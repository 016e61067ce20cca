/** The respondent controller's reload and engine-exchange protocol.

    One mounted controller owns at most one form engine and one host runtime. Reloads are
    asynchronous and may be superseded; a host may ask to swap the live engine, which takes
    a React commit to succeed and a second one to roll back. The protocol is written as a
    step function over states; `RespondentController` performs the same steps in place. */
module EngineExchange {
  import opened Common

  /** Engines and runtimes are opaque; the creation task that makes one lends it its number. */
  type Engine = nat

  /** What the renderer shows. `Other` is every display without an engine:
      sign-in, submitted, cleared and error pages. */
  datatype Display = Loading | Ready(engine: Engine) | Conflict(engine: Engine) | Other

  /** A queued state updater. `Touch` copies a ready state with the same engine. */
  datatype Update = Set(to: Display) | Replace(from: Engine, into: Engine) | Touch

  datatype Exchange = Exchange(
    epoch: nat, sequence: nat, expected: Engine, replacement: Engine,
    rollback: bool,
    // History: no reload, restart, disposal or page change came since the request, and the
    // expected engine's form was the one on display when it was made.
    undisturbed: bool)

  /** A creation in flight, tagged with the effect instance and reload that started it. */
  datatype Task = Task(epoch: nat, sequence: nat)

  datatype State = State(
    // The controller's own variables.
    mounted: bool, epoch: nat, sequence: nat,
    engine: Option<Engine>, runtime: Option<nat>, pending: Option<Exchange>,
    // The engine variables of cleaned-up effects: a cleanup disposes its engine but keeps it.
    stale: map<nat, Engine>,
    // React's part: the committed display and the updaters not yet applied.
    shown: Display, queue: seq<Update>,
    // The environment: creations in flight and those of them that hold an engine.
    next: nat, tasks: map<nat, Task>, building: set<nat>,
    // History: the creation begun by the live effect's last reload.
    latest: Option<nat>,
    // History: what was made, handed over, disposed and settled.
    created: set<Engine>, disposed: multiset<Engine>,
    runtimes: set<nat>, runtimesDisposed: multiset<nat>,
    accepted: set<Engine>, resolved: multiset<Engine>, rejected: multiset<Engine>,
    // History: disposed a second time, and whether Start-current or Clear disposed what is shown.
    again: set<Engine>, detached: bool)

  datatype Creation = MadeReady(owned: bool) | MadeConflict | NeedsSignIn | AlreadySubmitted | Failed

  datatype Event =
    | StartReload
    | LateReload(origin: nat)
    | EngineBuilt(task: nat)
    | CreationDone(task: nat, outcome: Creation)
    | RequestExchange(epoch: nat, sequence: nat, expected: Engine, guardsPass: bool)
    | CopyState
    | ShowPage
    | Commit(guardPasses: bool)
    | DisposeActive
    | Restart
    | Unmount

  // ---------------------------------------------------------------- React's updater queue

  function Apply(d: Display, u: Update): Display {
    match u
    case Set(to) => to
    case Replace(from, into) => if d == Ready(from) then Ready(into) else d
    case Touch => d
  }

  function ApplyAll(d: Display, q: seq<Update>): Display
    decreases |q|
  {
    if q == [] then d else ApplyAll(Apply(d, q[0]), q[1..])
  }

  /** Whether applying the queue yields a new object, so that the layout effect runs. */
  predicate Changes(d: Display, q: seq<Update>)
    decreases |q|
  {
    q != [] && (MakesNewObject(d, q[0]) || Changes(Apply(d, q[0]), q[1..]))
  }

  predicate MakesNewObject(d: Display, u: Update) {
    match u
    case Set(_) => true
    case Replace(from, _) => d == Ready(from)
    case Touch => d.Ready?
  }

  /** The display once every queued updater has been applied. */
  function Drain(s: State): Display {
    ApplyAll(s.shown, s.queue)
  }

  // ---------------------------------------------------------------- Steps

  function OneIf(b: bool, e: nat): multiset<nat> {
    if b then multiset{e} else multiset{}
  }

  function Holding(o: Option<nat>): multiset<nat> {
    match o
    case None => multiset{}
    case Some(e) => multiset{e}
  }

  function Promised(p: Option<Exchange>): multiset<Engine> {
    match p
    case None => multiset{}
    case Some(x) => multiset{x.replacement}
  }

  function Disturbed(p: Option<Exchange>): Option<Exchange> {
    match p
    case None => None
    case Some(x) => Some(x.(undisturbed := false))
  }

  /** What the controller holds is disposed. */
  function Released(s: State): State {
    s.(engine := None, disposed := s.disposed + Holding(s.engine),
       runtime := None, runtimesDisposed := s.runtimesDisposed + Holding(s.runtime))
  }

  /** `applyReadyState` up to its first await. */
  function StartReloadStep(s: State): State {
    if !s.mounted then s else
    Released(s).(
       pending := Disturbed(s.pending), queue := s.queue + [Set(Loading)],
       sequence := s.sequence + 1, detached := false,
       tasks := s.tasks[s.next := Task(s.epoch, s.sequence + 1)], next := s.next + 1, latest := Some(s.next))
  }

  /** A reload begun by an effect instance that was already cleaned up. It overwrites the
      display, and disposes once more the engine which the cleanup left in its variable. */
  function LateReloadStep(s: State, origin: nat): State {
    if origin >= s.epoch then s else
    s.(pending := Disturbed(s.pending), queue := if s.mounted then s.queue + [Set(Loading)] else s.queue,
       tasks := s.tasks[s.next := Task(origin, 0)], next := s.next + 1,
       disposed := s.disposed + Holding(Left(s.stale, origin)), again := s.again + Only(Left(s.stale, origin)),
       stale := s.stale - {origin})
  }

  /** What a cleaned-up effect still has in its engine variable. */
  function Left(stale: map<nat, Engine>, origin: nat): Option<Engine> {
    if origin in stale then Some(stale[origin]) else None
  }

  function Only(o: Option<Engine>): set<Engine> {
    match o
    case None => {}
    case Some(e) => {e}
  }

  function EngineBuiltStep(s: State, t: nat): State {
    if t !in s.tasks || t in s.building then s else
    s.(building := s.building + {t}, created := s.created + {t})
  }

  predicate Admissible(s: State, t: nat, outcome: Creation) {
    && t in s.tasks
    && (outcome.MadeReady? || outcome.MadeConflict? ==> t in s.building)
    && (outcome.NeedsSignIn? || outcome.AlreadySubmitted? ==> t !in s.building)
  }

  predicate Current(s: State, t: nat)
    requires t in s.tasks
  {
    s.tasks[t] == Task(s.epoch, s.sequence)
  }

  predicate BringsRuntime(outcome: Creation) {
    outcome == MadeReady(true) || outcome.AlreadySubmitted?
  }

  function DisplayOf(outcome: Creation, t: nat): Display {
    match outcome
    case MadeReady(_) => Ready(t)
    case MadeConflict => Conflict(t)
    case _ => Other
  }

  function CreationDoneStep(s: State, t: nat, outcome: Creation): State {
    if !Admissible(s, t, outcome) then s
    else if Current(s, t) then Install(s, t, outcome)
    else Discard(s, t, outcome)
  }

  /** A superseded or cancelled creation hands back whatever it made. */
  function Discard(s: State, t: nat, outcome: Creation): State {
    s.(tasks := s.tasks - {t}, building := s.building - {t},
       disposed := s.disposed + OneIf(t in s.building, t),
       runtimes := s.runtimes + (if BringsRuntime(outcome) then {t} else {}),
       runtimesDisposed := s.runtimesDisposed + OneIf(BringsRuntime(outcome), t))
  }

  function Install(s: State, t: nat, outcome: Creation): State {
    if outcome.Failed? then Discard(s, t, outcome).(queue := s.queue + [Set(Other)]) else
    s.(tasks := s.tasks - {t}, building := s.building - {t},
       engine := if outcome.MadeReady? || outcome.MadeConflict? then Some(t) else None,
       runtimes := s.runtimes + (if BringsRuntime(outcome) then {t} else {}),
       runtime := if BringsRuntime(outcome) then Some(t) else None,
       runtimesDisposed := s.runtimesDisposed + Holding(s.runtime),
       queue := s.queue + [Set(DisplayOf(outcome, t))], detached := false)
  }

  /** The guards of `exchangeEngine`: a refused request leaves the replacement with its host. */
  predicate Admits(s: State, epoch: nat, sequence: nat, expected: Engine, guardsPass: bool) {
    guardsPass && epoch == s.epoch && sequence == s.sequence && s.engine == Some(expected) && s.pending.None?
  }

  function RequestStep(s: State, epoch: nat, sequence: nat, expected: Engine, guardsPass: bool): State {
    if !Admits(s, epoch, sequence, expected, guardsPass) then s else
    s.(pending := Some(Exchange(epoch, sequence, expected, s.next, false, Drain(s) == Ready(expected))),
       queue := s.queue + [Replace(expected, s.next)],
       created := s.created + {s.next}, accepted := s.accepted + {s.next}, next := s.next + 1)
  }

  function CopyStep(s: State): State {
    if s.mounted then s.(queue := s.queue + [Touch]) else s
  }

  function ShowPageStep(s: State): State {
    if s.mounted then s.(queue := s.queue + [Set(Other)], pending := Disturbed(s.pending)) else s
  }

  /** A commit applies the whole queue; the layout effect runs when that made a new object. */
  function CommitStep(s: State, guardPasses: bool): State {
    if !s.mounted then s
    else if !Changes(s.shown, s.queue) || s.pending.None? then s.(shown := Drain(s), queue := [])
    else LayoutEffect(s, s.pending.value, guardPasses)
  }

  predicate MayResolve(s: State, p: Exchange, guardPasses: bool) {
    !p.rollback && guardPasses && p.epoch == s.epoch && p.sequence == s.sequence && s.engine == Some(p.expected)
  }

  function LayoutEffect(s: State, p: Exchange, guardPasses: bool): State {
    if Drain(s) != Ready(p.replacement) then Reject(s, p)
    else if MayResolve(s, p, guardPasses) then Resolve(s, p)
    else RollBack(s, p)
  }

  function Resolve(s: State, p: Exchange): State {
    s.(shown := Drain(s), queue := [], engine := Some(p.replacement), pending := None,
       disposed := s.disposed + multiset{p.expected}, resolved := s.resolved + multiset{p.replacement})
  }

  function RollBack(s: State, p: Exchange): State {
    s.(shown := Drain(s), queue := [Replace(p.replacement, p.expected)], pending := Some(p.(rollback := true)))
  }

  function Reject(s: State, p: Exchange): State {
    s.(shown := Drain(s), queue := [], pending := None,
       disposed := s.disposed + multiset{p.replacement}, rejected := s.rejected + multiset{p.replacement})
  }

  function DisposeActiveStep(s: State): State {
    if !s.mounted then s else Released(s).(pending := Disturbed(s.pending), detached := true)
  }

  /** The effect's cleanup: the engine variable is kept, what is held is disposed, a pending
      exchange is rejected. */
  function Cleanup(s: State): State {
    Emptied(s.(stale := Keep(s)))
  }

  function Emptied(s: State): State {
    Retired(Released(s)).(epoch := s.epoch + 1)
  }

  /** The pending exchange, if any, is rejected and its replacement disposed. */
  function Retired(s: State): State {
    s.(pending := None, disposed := s.disposed + Promised(s.pending), rejected := s.rejected + Promised(s.pending))
  }

  function Keep(s: State): map<nat, Engine> {
    if s.engine.Some? then s.stale[s.epoch := s.engine.value] else s.stale
  }

  function RestartStep(s: State): State {
    if !s.mounted then s else
    Cleanup(s).(queue := s.queue + [Set(Loading)], sequence := 0, detached := false, latest := None)
  }

  function UnmountStep(s: State): State {
    if !s.mounted then s else Cleanup(s).(mounted := false)
  }

  function Step(s: State, e: Event): State {
    match e
    case StartReload => StartReloadStep(s)
    case LateReload(origin) => LateReloadStep(s, origin)
    case EngineBuilt(t) => EngineBuiltStep(s, t)
    case CreationDone(t, outcome) => CreationDoneStep(s, t, outcome)
    case RequestExchange(epoch, sequence, expected, guards) => RequestStep(s, epoch, sequence, expected, guards)
    case CopyState => CopyStep(s)
    case ShowPage => ShowPageStep(s)
    case Commit(guard) => CommitStep(s, guard)
    case DisposeActive => DisposeActiveStep(s)
    case Restart => RestartStep(s)
    case Unmount => UnmountStep(s)
  }

  const INITIAL := State(
    true, 0, 0, None, None, None, map[], Loading, [Set(Loading)], 0, map[], {}, None, {}, multiset{}, {}, multiset{},
    {}, multiset{}, multiset{}, {}, false)

  function Run(events: seq<Event>): State {
    if events == [] then INITIAL else Step(Run(events[..|events| - 1]), events[|events| - 1])
  }

  lemma RunSnoc(events: seq<Event>, e: Event)
    ensures Run(events + [e]) == Step(Run(events), e)
  {
    assert (events + [e])[..|events|] == events;
  }

  // ---------------------------------------------------------------- Invariants

  ghost function Bit(b: bool): nat {
    if b then 1 else 0
  }

  predicate Pends(s: State, e: Engine) {
    s.pending.Some? && s.pending.value.replacement == e
  }

  /** Every engine ever handed over is in exactly one place (held by a creation in flight, by
      the controller, by the pending exchange, or disposed), and was disposed once more if a
      cleaned-up effect did so. */
  ghost predicate EnginesConserved(s: State) {
    forall e :: Bit(e in s.created) + Bit(e in s.again)
                == Bit(e in s.building) + Bit(s.engine == Some(e)) + Bit(Pends(s, e)) + s.disposed[e]
  }

  /** Cleaned-up effects keep different engines, each disposed but not yet disposed again. */
  ghost predicate StaleFits(s: State) {
    && (forall o :: o in s.stale ==> o < s.epoch && s.disposed[s.stale[o]] >= 1 && s.stale[o] !in s.again)
    && (forall o, p :: o in s.stale && p in s.stale && s.stale[o] == s.stale[p] ==> o == p)
    && (forall e :: e in s.again ==> s.disposed[e] >= 2)
  }

  /** Every host runtime handed over is held or disposed once. */
  ghost predicate RuntimesConserved(s: State) {
    forall r :: Bit(r in s.runtimes) == Bit(s.runtime == Some(r)) + s.runtimesDisposed[r]
  }

  /** Every accepted exchange is pending, or settled once: resolved or rejected, never both. */
  ghost predicate PromisesConserved(s: State) {
    forall e :: Bit(e in s.accepted) == Bit(Pends(s, e)) + s.resolved[e] + s.rejected[e]
  }

  /** Creations in flight: numbered below `next`, holding an engine exactly when one was made;
      only the last reload's creation may still install, and until it does nothing is held. */
  ghost predicate TasksFit(s: State) {
    && s.building <= s.tasks.Keys
    && (forall t :: t in s.tasks ==> t < s.next && (t in s.created <==> t in s.building) && t !in s.runtimes)
    && (forall t :: t in s.tasks ==> s.tasks[t].epoch <= s.epoch)
  }

  ghost predicate LatestFits(s: State) {
    && (forall t :: t in s.tasks && s.tasks[t].epoch == s.epoch ==> s.mounted && s.tasks[t].sequence <= s.sequence)
    && (forall t :: t in s.tasks && Current(s, t) ==> s.latest == Some(t) && s.engine.None? && s.runtime.None?)
  }

  ghost predicate NumbersFit(s: State) {
    && (forall e :: e in s.created ==> e < s.next)
    && (forall r :: r in s.runtimes ==> r < s.next)
    && s.accepted <= s.created
    && (!s.mounted ==> s.engine.None? && s.runtime.None? && s.pending.None?)
    && (s.engine.Some? ==> s.engine.value < s.next)
    && (s.pending.Some? ==> s.pending.value.expected < s.next)
  }

  predicate Below(u: Update, n: nat) {
    match u
    case Set(to) => BelowDisplay(to, n)
    case Replace(_, into) => into < n
    case Touch => true
  }

  predicate BelowDisplay(d: Display, n: nat) {
    (d.Ready? ==> d.engine < n) && (d.Conflict? ==> d.engine < n)
  }

  ghost predicate QueueFits(s: State) {
    BelowDisplay(s.shown, s.next) && forall u :: u in s.queue ==> Below(u, s.next)
  }

  /** An engine on (or about to be on) display is the controller's or the pending replacement,
      unless Start-current or Clear has just disposed it. */
  ghost predicate DisplayFits(s: State) {
    var d := Drain(s);
    s.mounted && !s.detached ==>
      && (d.Ready? ==> s.engine == Some(d.engine)
                       || (s.pending.Some? && s.pending.value.replacement == d.engine
                           && s.engine == Some(s.pending.value.expected)))
      && (d.Conflict? ==> s.engine == Some(d.engine))
  }

  ghost predicate DetachedFits(s: State) {
    s.detached ==> s.engine.None?
  }

  ghost predicate UndisturbedFits(s: State) {
    s.pending.Some? && s.pending.value.undisturbed ==>
      var p := s.pending.value;
      && s.mounted && p.epoch == s.epoch && p.sequence == s.sequence && s.engine == Some(p.expected)
      && if p.rollback then s.shown == Ready(p.replacement) && Drain(s) == Ready(p.expected)
         else s.shown != Ready(p.replacement) && Drain(s) == Ready(p.replacement)
  }

  ghost predicate Ledgers(s: State) {
    EnginesConserved(s) && RuntimesConserved(s) && PromisesConserved(s) && StaleFits(s)
  }

  ghost predicate Fits(s: State) {
    TasksFit(s) && LatestFits(s) && NumbersFit(s)
  }

  ghost predicate Showing(s: State) {
    QueueFits(s) && DisplayFits(s) && DetachedFits(s) && UndisturbedFits(s)
  }

  ghost predicate Inv(s: State) {
    Ledgers(s) && Fits(s) && Showing(s)
  }

  lemma {:induction false} ApplyAllSnoc(d: Display, q: seq<Update>, u: Update)
    ensures ApplyAll(d, q + [u]) == Apply(ApplyAll(d, q), u)
    decreases |q|
  {
    if q == [] {
      assert q + [u] == [u];
    } else {
      assert (q + [u])[1..] == q[1..] + [u];
      ApplyAllSnoc(Apply(d, q[0]), q[1..], u);
    }
  }

  lemma {:induction false} ApplyAllBelow(d: Display, q: seq<Update>, n: nat)
    requires BelowDisplay(d, n) && forall u :: u in q ==> Below(u, n)
    ensures BelowDisplay(ApplyAll(d, q), n)
    decreases |q|
  {
    if q != [] {
      assert q[0] in q;
      ApplyAllBelow(Apply(d, q[0]), q[1..], n);
    }
  }

  /** A display that differs after the queue was applied is a new object. */
  lemma {:induction false} DifferentIsNew(d: Display, q: seq<Update>)
    requires ApplyAll(d, q) != d
    ensures Changes(d, q)
    decreases |q|
  {
    if q != [] && Apply(d, q[0]) == d {
      DifferentIsNew(d, q[1..]);
    }
  }

  // ---------------------------------------------------------------- Every step keeps the invariant

  /** Steps that leave cleaned-up effects alone and take no disposal back. */
  lemma StaleStays(s: State, t: State)
    requires StaleFits(s) && t.stale == s.stale && t.again == s.again && t.epoch >= s.epoch
    requires forall e :: s.disposed[e] <= t.disposed[e]
    ensures StaleFits(t)
  {
  }

  lemma StartReloadEngines(s: State)
    requires EnginesConserved(s)
    ensures EnginesConserved(StartReloadStep(s))
  {
  }

  lemma StartReloadPapers(s: State)
    requires RuntimesConserved(s) && PromisesConserved(s)
    ensures RuntimesConserved(StartReloadStep(s)) && PromisesConserved(StartReloadStep(s))
  {
  }

  lemma StartReloadTasks(s: State)
    requires Fits(s)
    ensures Fits(StartReloadStep(s))
  {
  }

  lemma StartReloadDisplay(s: State)
    requires Showing(s)
    ensures Showing(StartReloadStep(s))
  {
    ApplyAllSnoc(s.shown, s.queue, Set(Loading));
  }

  lemma StartReloadKeeps(s: State)
    requires Inv(s)
    ensures Inv(StartReloadStep(s))
  {
    StartReloadEngines(s);
    StartReloadPapers(s);
    StaleStays(s, StartReloadStep(s));
    StartReloadTasks(s);
    StartReloadDisplay(s);
  }

  lemma LateReloadEngines(s: State, origin: nat)
    requires EnginesConserved(s) && StaleFits(s)
    ensures EnginesConserved(LateReloadStep(s, origin))
  {
    var t := LateReloadStep(s, origin);
    assert forall e :: Pends(t, e) == Pends(s, e);
  }

  lemma LateReloadStale(s: State, origin: nat)
    requires StaleFits(s)
    ensures StaleFits(LateReloadStep(s, origin))
  {
  }

  lemma LateReloadPapers(s: State, origin: nat)
    requires RuntimesConserved(s) && PromisesConserved(s)
    ensures RuntimesConserved(LateReloadStep(s, origin)) && PromisesConserved(LateReloadStep(s, origin))
  {
  }

  lemma LateReloadTasks(s: State, origin: nat)
    requires Fits(s)
    ensures Fits(LateReloadStep(s, origin))
  {
  }

  lemma LateReloadDisplay(s: State, origin: nat)
    requires Showing(s)
    ensures Showing(LateReloadStep(s, origin))
  {
    ApplyAllSnoc(s.shown, s.queue, Set(Loading));
  }

  lemma LateReloadKeeps(s: State, origin: nat)
    requires Inv(s)
    ensures Inv(LateReloadStep(s, origin))
  {
    LateReloadEngines(s, origin);
    LateReloadStale(s, origin);
    LateReloadPapers(s, origin);
    LateReloadTasks(s, origin);
    LateReloadDisplay(s, origin);
  }

  lemma EngineBuiltLedgers(s: State, t: nat)
    requires Ledgers(s) && TasksFit(s)
    ensures Ledgers(EngineBuiltStep(s, t))
  {
  }

  lemma EngineBuiltKeeps(s: State, t: nat)
    requires Inv(s)
    ensures Inv(EngineBuiltStep(s, t))
  {
    EngineBuiltLedgers(s, t);
  }

  lemma DiscardEngines(s: State, t: nat, outcome: Creation)
    requires EnginesConserved(s)
    ensures EnginesConserved(Discard(s, t, outcome))
  {
  }

  lemma DiscardPapers(s: State, t: nat, outcome: Creation)
    requires RuntimesConserved(s) && PromisesConserved(s) && TasksFit(s) && t in s.tasks
    ensures RuntimesConserved(Discard(s, t, outcome)) && PromisesConserved(Discard(s, t, outcome))
  {
  }

  lemma DiscardTasks(s: State, t: nat, outcome: Creation)
    requires Fits(s) && t in s.tasks
    ensures Fits(Discard(s, t, outcome))
  {
  }

  lemma DiscardKeeps(s: State, t: nat, outcome: Creation)
    requires Inv(s) && t in s.tasks
    ensures Inv(Discard(s, t, outcome))
  {
    DiscardEngines(s, t, outcome);
    DiscardPapers(s, t, outcome);
    StaleStays(s, Discard(s, t, outcome));
    DiscardTasks(s, t, outcome);
  }

  lemma InstallEngines(s: State, t: nat, outcome: Creation)
    requires EnginesConserved(s) && LatestFits(s) && Admissible(s, t, outcome) && Current(s, t)
    ensures EnginesConserved(Install(s, t, outcome))
  {
  }

  lemma InstallPapers(s: State, t: nat, outcome: Creation)
    requires RuntimesConserved(s) && PromisesConserved(s) && TasksFit(s) && LatestFits(s)
    requires t in s.tasks && Current(s, t)
    ensures RuntimesConserved(Install(s, t, outcome)) && PromisesConserved(Install(s, t, outcome))
  {
  }

  lemma InstallTasks(s: State, t: nat, outcome: Creation)
    requires Fits(s) && Admissible(s, t, outcome) && Current(s, t)
    ensures Fits(Install(s, t, outcome))
  {
  }

  lemma InstallDisplay(s: State, t: nat, outcome: Creation)
    requires QueueFits(s) && TasksFit(s) && LatestFits(s) && UndisturbedFits(s)
    requires Admissible(s, t, outcome) && Current(s, t)
    ensures Showing(Install(s, t, outcome))
  {
    ApplyAllSnoc(s.shown, s.queue, Set(if outcome.Failed? then Other else DisplayOf(outcome, t)));
  }

  lemma InstallKeeps(s: State, t: nat, outcome: Creation)
    requires Inv(s) && Admissible(s, t, outcome) && Current(s, t)
    ensures Inv(Install(s, t, outcome))
  {
    InstallEngines(s, t, outcome);
    InstallPapers(s, t, outcome);
    StaleStays(s, Install(s, t, outcome));
    InstallTasks(s, t, outcome);
    InstallDisplay(s, t, outcome);
  }

  lemma CreationDoneKeeps(s: State, t: nat, outcome: Creation)
    requires Inv(s)
    ensures Inv(CreationDoneStep(s, t, outcome))
  {
    if Admissible(s, t, outcome) {
      if Current(s, t) {
        InstallKeeps(s, t, outcome);
      } else {
        DiscardKeeps(s, t, outcome);
      }
    }
  }

  lemma RequestLedgers(s: State, epoch: nat, sequence: nat, expected: Engine, guardsPass: bool)
    requires Ledgers(s) && NumbersFit(s)
    ensures Ledgers(RequestStep(s, epoch, sequence, expected, guardsPass))
  {
  }

  lemma RequestTasks(s: State, epoch: nat, sequence: nat, expected: Engine, guardsPass: bool)
    requires Fits(s)
    ensures Fits(RequestStep(s, epoch, sequence, expected, guardsPass))
  {
  }

  lemma RequestDisplay(s: State, epoch: nat, sequence: nat, expected: Engine, guardsPass: bool)
    requires Showing(s) && NumbersFit(s)
    ensures Showing(RequestStep(s, epoch, sequence, expected, guardsPass))
  {
    ApplyAllSnoc(s.shown, s.queue, Replace(expected, s.next));
    ApplyAllBelow(s.shown, s.queue, s.next);
  }

  lemma RequestKeeps(s: State, epoch: nat, sequence: nat, expected: Engine, guardsPass: bool)
    requires Inv(s)
    ensures Inv(RequestStep(s, epoch, sequence, expected, guardsPass))
  {
    RequestLedgers(s, epoch, sequence, expected, guardsPass);
    RequestTasks(s, epoch, sequence, expected, guardsPass);
    RequestDisplay(s, epoch, sequence, expected, guardsPass);
  }

  lemma ResolveLedgers(s: State, p: Exchange)
    requires EnginesConserved(s) && RuntimesConserved(s) && PromisesConserved(s)
    requires s.pending == Some(p) && s.engine == Some(p.expected)
    ensures var t := Resolve(s, p);
            EnginesConserved(t) && RuntimesConserved(t) && PromisesConserved(t)
  {
  }

  lemma ResolveTasks(s: State, p: Exchange)
    requires Fits(s) && s.pending == Some(p) && s.engine == Some(p.expected) && p.replacement in s.created
    ensures Fits(Resolve(s, p))
  {
  }

  lemma ResolveDisplay(s: State, p: Exchange)
    requires QueueFits(s) && DetachedFits(s) && s.engine.Some? && Drain(s) == Ready(p.replacement)
    ensures Showing(Resolve(s, p))
  {
    ApplyAllBelow(s.shown, s.queue, s.next);
  }

  lemma ResolveKeeps(s: State, p: Exchange)
    requires Inv(s) && s.pending == Some(p) && MayResolve(s, p, true) && Drain(s) == Ready(p.replacement)
    ensures Inv(Resolve(s, p))
  {
    ResolveLedgers(s, p);
    PendingIsNotHeld(s, p);
    StaleStays(s, Resolve(s, p));
    ResolveTasks(s, p);
    ResolveDisplay(s, p);
  }

  lemma RejectLedgers(s: State, p: Exchange)
    requires EnginesConserved(s) && RuntimesConserved(s) && PromisesConserved(s) && s.pending == Some(p)
    ensures var t := Reject(s, p);
            EnginesConserved(t) && RuntimesConserved(t) && PromisesConserved(t)
  {
  }

  lemma RejectTasks(s: State, p: Exchange)
    requires Fits(s)
    ensures Fits(Reject(s, p))
  {
  }

  lemma RejectDisplay(s: State, p: Exchange)
    requires Showing(s) && s.pending == Some(p) && Drain(s) != Ready(p.replacement)
    ensures Showing(Reject(s, p))
  {
    ApplyAllBelow(s.shown, s.queue, s.next);
  }

  lemma RejectKeeps(s: State, p: Exchange)
    requires Inv(s) && s.pending == Some(p) && Drain(s) != Ready(p.replacement)
    ensures Inv(Reject(s, p))
  {
    RejectLedgers(s, p);
    StaleStays(s, Reject(s, p));
    RejectTasks(s, p);
    RejectDisplay(s, p);
  }

  lemma RollBackRest(s: State, p: Exchange)
    requires Ledgers(s) && Fits(s) && s.pending == Some(p)
    ensures Ledgers(RollBack(s, p)) && Fits(RollBack(s, p))
  {
    assert forall e :: Pends(RollBack(s, p), e) == Pends(s, e);
  }

  lemma RollBackDisplay(s: State, p: Exchange)
    requires Showing(s) && NumbersFit(s) && s.pending == Some(p) && Drain(s) == Ready(p.replacement)
    requires s.engine.Some? ==> s.engine.value != p.replacement
    ensures Showing(RollBack(s, p))
  {
    ApplyAllBelow(s.shown, s.queue, s.next);
    assert Drain(RollBack(s, p)) == Ready(p.expected) by {
      var undo := Replace(p.replacement, p.expected);
      assert ApplyAll(Drain(s), [undo]) == ApplyAll(Apply(Drain(s), undo), []);
    }
  }

  lemma PendingIsNotHeld(s: State, p: Exchange)
    requires EnginesConserved(s) && StaleFits(s) && s.pending == Some(p)
    ensures s.engine != Some(p.replacement) && p.replacement in s.created
  {
    assert Pends(s, p.replacement);
    assert s.disposed[p.replacement] >= 0;
  }

  lemma RollBackKeeps(s: State, p: Exchange)
    requires Inv(s) && s.pending == Some(p) && Drain(s) == Ready(p.replacement)
    ensures Inv(RollBack(s, p))
  {
    RollBackRest(s, p);
    PendingIsNotHeld(s, p);
    RollBackDisplay(s, p);
  }

  lemma CommitKeeps(s: State, guardPasses: bool)
    requires Inv(s)
    ensures Inv(CommitStep(s, guardPasses))
  {
    if s.mounted && (!Changes(s.shown, s.queue) || s.pending.None?) {
      QuietCommitKeeps(s);
    } else if s.mounted {
      LayoutEffectKeeps(s, guardPasses);
    }
  }

  lemma QuietCommitDisplay(s: State)
    requires Showing(s) && (!Changes(s.shown, s.queue) || s.pending.None?)
    ensures Showing(s.(shown := Drain(s), queue := []))
  {
    ApplyAllBelow(s.shown, s.queue, s.next);
    if Drain(s) != s.shown {
      DifferentIsNew(s.shown, s.queue);
    }
  }

  lemma QuietCommitKeeps(s: State)
    requires Inv(s) && (!Changes(s.shown, s.queue) || s.pending.None?)
    ensures Inv(s.(shown := Drain(s), queue := []))
  {
    QuietCommitDisplay(s);
  }

  lemma LayoutEffectKeeps(s: State, guardPasses: bool)
    requires Inv(s) && s.pending.Some?
    ensures Inv(LayoutEffect(s, s.pending.value, guardPasses))
  {
    if Drain(s) != Ready(s.pending.value.replacement) {
      RejectKeeps(s, s.pending.value);
    } else if MayResolve(s, s.pending.value, guardPasses) {
      ResolveKeeps(s, s.pending.value);
    } else {
      RollBackKeeps(s, s.pending.value);
    }
  }

  lemma DisposeActiveEngines(s: State)
    requires EnginesConserved(s)
    ensures EnginesConserved(DisposeActiveStep(s))
  {
    assert forall e :: Pends(DisposeActiveStep(s), e) == Pends(s, e);
  }

  lemma DisposeActivePapers(s: State)
    requires RuntimesConserved(s) && PromisesConserved(s)
    ensures RuntimesConserved(DisposeActiveStep(s)) && PromisesConserved(DisposeActiveStep(s))
  {
    assert forall e :: Pends(DisposeActiveStep(s), e) == Pends(s, e);
  }

  lemma DisposeActiveTasks(s: State)
    requires Fits(s)
    ensures Fits(DisposeActiveStep(s))
  {
  }

  lemma DisposeActiveDisplay(s: State)
    requires Showing(s)
    ensures Showing(DisposeActiveStep(s))
  {
  }

  lemma DisposeActiveKeeps(s: State)
    requires Inv(s)
    ensures Inv(DisposeActiveStep(s))
  {
    DisposeActiveEngines(s);
    DisposeActivePapers(s);
    StaleStays(s, DisposeActiveStep(s));
    DisposeActiveTasks(s);
    DisposeActiveDisplay(s);
  }

  lemma CleanupEngines(s: State)
    requires EnginesConserved(s)
    ensures EnginesConserved(Cleanup(s))
  {
  }

  lemma CleanupPapers(s: State)
    requires RuntimesConserved(s) && PromisesConserved(s)
    ensures RuntimesConserved(Cleanup(s)) && PromisesConserved(Cleanup(s))
  {
  }

  /** The engine in hand was never disposed, so no cleaned-up effect has it. */
  lemma HeldIsLive(s: State, e: Engine)
    requires EnginesConserved(s) && StaleFits(s) && s.engine == Some(e)
    ensures s.disposed[e] == 0 && e !in s.again && forall o :: o in s.stale ==> s.stale[o] != e
  {
    assert s.disposed[e] >= 0;
  }

  lemma CleanupStale(s: State)
    requires EnginesConserved(s) && StaleFits(s)
    ensures StaleFits(Cleanup(s))
  {
    if s.engine.Some? {
      HeldIsLive(s, s.engine.value);
    }
  }

  lemma CleanupLedgers(s: State)
    requires Ledgers(s)
    ensures Ledgers(Cleanup(s))
  {
    CleanupEngines(s);
    CleanupPapers(s);
    CleanupStale(s);
  }

  lemma RestartKeeps(s: State)
    requires Inv(s)
    ensures Inv(RestartStep(s))
  {
    if s.mounted {
      CleanupLedgers(s);
      SameLedgers(Cleanup(s), RestartStep(s));
      RestartTasks(s);
      RestartDisplay(s);
    }
  }

  /** The ledgers speak of nothing else. */
  lemma SameLedgers(s: State, t: State)
    requires Ledgers(s)
    requires t.created == s.created && t.again == s.again && t.building == s.building && t.engine == s.engine
    requires t.pending == s.pending && t.disposed == s.disposed && t.stale == s.stale && t.epoch == s.epoch
    requires t.runtimes == s.runtimes && t.runtime == s.runtime && t.runtimesDisposed == s.runtimesDisposed
    requires t.accepted == s.accepted && t.resolved == s.resolved && t.rejected == s.rejected
    ensures Ledgers(t)
  {
    assert forall e :: Pends(t, e) == Pends(s, e);
  }

  lemma RestartTasks(s: State)
    requires Fits(s)
    ensures Fits(RestartStep(s))
  {
  }

  lemma RestartDisplay(s: State)
    requires Showing(s)
    ensures Showing(RestartStep(s))
  {
    ApplyAllSnoc(s.shown, s.queue, Set(Loading));
  }

  lemma UnmountTasks(s: State)
    requires Fits(s)
    ensures Fits(UnmountStep(s))
  {
  }

  lemma UnmountDisplay(s: State)
    requires Showing(s)
    ensures Showing(UnmountStep(s))
  {
  }

  lemma UnmountKeeps(s: State)
    requires Inv(s)
    ensures Inv(UnmountStep(s))
  {
    if s.mounted {
      CleanupLedgers(s);
      SameLedgers(Cleanup(s), UnmountStep(s));
      UnmountTasks(s);
      UnmountDisplay(s);
    }
  }

  lemma CopyKeeps(s: State)
    requires Inv(s)
    ensures Inv(CopyStep(s))
  {
    SameLedgers(s, CopyStep(s));
    ApplyAllSnoc(s.shown, s.queue, Touch);
  }

  lemma ShowPageRest(s: State)
    requires Ledgers(s) && Fits(s)
    ensures Ledgers(ShowPageStep(s)) && Fits(ShowPageStep(s))
  {
    assert forall e :: Pends(ShowPageStep(s), e) == Pends(s, e);
  }

  lemma ShowPageKeeps(s: State)
    requires Inv(s)
    ensures Inv(ShowPageStep(s))
  {
    ShowPageRest(s);
    ApplyAllSnoc(s.shown, s.queue, Set(Other));
  }

  lemma StepKeeps(s: State, e: Event)
    requires Inv(s)
    ensures Inv(Step(s, e))
  {
    match e
    case StartReload => StartReloadKeeps(s);
    case LateReload(origin) => LateReloadKeeps(s, origin);
    case EngineBuilt(t) => EngineBuiltKeeps(s, t);
    case CreationDone(t, outcome) => CreationDoneKeeps(s, t, outcome);
    case _ => ExchangeStepKeeps(s, e);
  }

  lemma ExchangeStepKeeps(s: State, e: Event)
    requires Inv(s) && !e.StartReload? && !e.LateReload? && !e.EngineBuilt? && !e.CreationDone?
    ensures Inv(Step(s, e))
  {
    match e
    case RequestExchange(epoch, sequence, expected, guards) => RequestKeeps(s, epoch, sequence, expected, guards);
    case CopyState => CopyKeeps(s);
    case ShowPage => ShowPageKeeps(s);
    case Commit(guard) => CommitKeeps(s, guard);
    case DisposeActive => DisposeActiveKeeps(s);
    case Restart => RestartKeeps(s);
    case Unmount => UnmountKeeps(s);
  }

  lemma {:induction false} RunKeeps(events: seq<Event>)
    ensures Inv(Run(events))
    decreases |events|
  {
    if events != [] {
      RunKeeps(events[..|events| - 1]);
      StepKeeps(Run(events[..|events| - 1]), events[|events| - 1]);
    }
  }

  // ---------------------------------------------------------------- Engine ownership

  /** By effect instance, the engine its cleanup disposed. */
  function CleanedUp(events: seq<Event>): map<nat, Engine> {
    if events == [] then map[] else
    var most, last := events[..|events| - 1], events[|events| - 1];
    var s := Run(most);
    if (last.Restart? || last.Unmount?) && s.mounted && s.engine.Some? then CleanedUp(most)[s.epoch := s.engine.value]
    else CleanedUp(most)
  }

  /** Some reload came from the effect instance whose cleanup had disposed `e`. */
  ghost predicate ReloadedLate(events: seq<Event>, e: Engine) {
    exists i :: 0 <= i < |events| && ReloadsAfter(CleanedUp(events[..i]), events[i], e)
  }

  predicate ReloadsAfter(cleaned: map<nat, Engine>, e: Event, x: Engine) {
    e.LateReload? && Left(cleaned, e.origin) == Some(x)
  }

  lemma ReloadedLateSnoc(events: seq<Event>, last: Event, e: Engine)
    ensures ReloadedLate(events + [last], e) <==> ReloadedLate(events, e) || ReloadsAfter(CleanedUp(events), last, e)
  {
    var more := events + [last];
    assert more[..|events|] == events && more[|events|] == last;
    assert forall i :: 0 <= i < |events| ==> more[..i] == events[..i] && more[i] == events[i];
    if ReloadedLate(events, e) {
      var i :| 0 <= i < |events| && ReloadsAfter(CleanedUp(events[..i]), events[i], e);
      assert ReloadsAfter(CleanedUp(more[..i]), more[i], e);
    }
    if ReloadsAfter(CleanedUp(events), last, e) {
      assert ReloadsAfter(CleanedUp(more[..|events|]), more[|events|], e);
    }
    if ReloadedLate(more, e) {
      var i :| 0 <= i < |more| && ReloadsAfter(CleanedUp(more[..i]), more[i], e);
      if i < |events| {
        assert ReloadsAfter(CleanedUp(events[..i]), events[i], e);
      }
    }
  }

  /** What is left of each cleanup: its engine in the variable, or a second disposal. */
  ghost predicate Accounts(cleaned: map<nat, Engine>, stale: map<nat, Engine>, again: set<Engine>, epoch: nat) {
    && (forall o :: o in stale ==> o in cleaned && cleaned[o] == stale[o])
    && (forall o :: o in cleaned ==> o < epoch && (o in stale || cleaned[o] in again))
  }

  ghost predicate Remembers(events: seq<Event>, s: State) {
    && Accounts(CleanedUp(events), s.stale, s.again, s.epoch)
    && forall e: Engine :: e in s.again <==> ReloadedLate(events, e)
  }

  lemma CleanedUpSnoc(events: seq<Event>, last: Event)
    ensures var s := Run(events);
            CleanedUp(events + [last])
            == if (last.Restart? || last.Unmount?) && s.mounted && s.engine.Some?
               then CleanedUp(events)[s.epoch := s.engine.value] else CleanedUp(events)
  {
    assert (events + [last])[..|events|] == events;
  }

  lemma ReloadAccounted(cleaned: map<nat, Engine>, stale: map<nat, Engine>, again: set<Engine>, epoch: nat, o: nat)
    requires Accounts(cleaned, stale, again, epoch)
    ensures Accounts(cleaned, stale - {o}, again + Only(Left(stale, o)), epoch)
    ensures forall e :: e in again + Only(Left(stale, o)) <==> e in again || Left(cleaned, o) == Some(e)
    ensures o >= epoch ==> Left(cleaned, o) == None
  {
  }

  lemma RememberLateReload(events: seq<Event>, s: State, o: nat)
    requires Remembers(events, s)
    ensures Remembers(events + [LateReload(o)], LateReloadStep(s, o))
  {
    assert LateReloadStep(s, o).again == s.again + Only(Left(s.stale, o)) || o >= s.epoch;
    CleanedUpSnoc(events, LateReload(o));
    ReloadAccounted(CleanedUp(events), s.stale, s.again, s.epoch, o);
    forall e: Engine
      ensures ReloadedLate(events + [LateReload(o)], e)
              <==> ReloadedLate(events, e) || Left(CleanedUp(events), o) == Some(e)
    {
      ReloadedLateSnoc(events, LateReload(o), e);
    }
  }

  lemma RememberOther(events: seq<Event>, last: Event, t: State)
    requires Remembers(events, Run(events)) && !last.LateReload?
    requires var s := Run(events);
             t.again == s.again
             && if (last.Restart? || last.Unmount?) && s.mounted then t.stale == Keep(s) && t.epoch == s.epoch + 1
                else t.stale == s.stale && t.epoch == s.epoch
    ensures Remembers(events + [last], t)
  {
    CleanedUpSnoc(events, last);
    forall e: Engine
      ensures ReloadedLate(events + [last], e) <==> ReloadedLate(events, e)
    {
      ReloadedLateSnoc(events, last, e);
    }
  }

  /** Only late reloads and cleanups touch cleaned-up effects. */
  lemma StaleUntouched(s: State, e: Event)
    requires !e.LateReload? && (e.Restart? || e.Unmount? ==> !s.mounted)
    ensures Step(s, e).stale == s.stale && Step(s, e).again == s.again && Step(s, e).epoch == s.epoch
  {
    match e
    case CreationDone(t, outcome) => CreationLeavesStale(s, t, outcome);
    case Commit(guard) => CommitLeavesStale(s, guard);
    case _ => EasyLeavesStale(s, e);
  }

  lemma CreationLeavesStale(s: State, t: nat, outcome: Creation)
    ensures var u := CreationDoneStep(s, t, outcome);
            u.stale == s.stale && u.again == s.again && u.epoch == s.epoch
  {
    if Admissible(s, t, outcome) {
      if Current(s, t) {
        InstallLeavesStale(s, t, outcome);
      } else {
        DiscardLeavesStale(s, t, outcome);
      }
    }
  }

  lemma DiscardLeavesStale(s: State, t: nat, outcome: Creation)
    ensures var u := Discard(s, t, outcome);
            u.stale == s.stale && u.again == s.again && u.epoch == s.epoch
  {
  }

  lemma InstallLeavesStale(s: State, t: nat, outcome: Creation)
    ensures var u := Install(s, t, outcome);
            u.stale == s.stale && u.again == s.again && u.epoch == s.epoch
  {
    DiscardLeavesStale(s, t, outcome);
  }

  lemma CommitLeavesStale(s: State, guard: bool)
    ensures CommitStep(s, guard).stale == s.stale && CommitStep(s, guard).again == s.again
    ensures CommitStep(s, guard).epoch == s.epoch
  {
    if s.pending.Some? {
      LayoutLeavesStale(s, s.pending.value, guard);
    }
  }

  lemma LayoutLeavesStale(s: State, p: Exchange, guard: bool)
    ensures var u := LayoutEffect(s, p, guard);
            u.stale == s.stale && u.again == s.again && u.epoch == s.epoch
  {
  }

  lemma EasyLeavesStale(s: State, e: Event)
    requires !e.LateReload? && !e.CreationDone? && !e.Commit? && (e.Restart? || e.Unmount? ==> !s.mounted)
    ensures Step(s, e).stale == s.stale && Step(s, e).again == s.again && Step(s, e).epoch == s.epoch
  {
  }

  lemma {:induction false} RunRemembers(events: seq<Event>)
    ensures Remembers(events, Run(events))
    decreases |events|
  {
    if events != [] {
      var most, last := events[..|events| - 1], events[|events| - 1];
      assert events == most + [last];
      RunRemembers(most);
      if last.LateReload? {
        RememberLateReload(most, Run(most), last.origin);
      } else {
        if !((last.Restart? || last.Unmount?) && Run(most).mounted) {
          StaleUntouched(Run(most), last);
        }
        RememberOther(most, last, Step(Run(most), last));
      }
    }
  }

  /** In every run an engine is disposed at most twice, and twice if and only if a reload came
      late from the effect instance whose cleanup had disposed it. One that is disposed is held
      by no creation, not by the controller and not by the pending exchange. */
  lemma EngineOwnership(events: seq<Event>, e: Engine)
    ensures var s := Run(events);
            && s.disposed[e] <= 2
            && (s.disposed[e] == 2 <==> ReloadedLate(events, e))
            && (e in s.disposed ==> e in s.created && e !in s.building && s.engine != Some(e) && !Pends(s, e))
            && !(s.engine == Some(e) && Pends(s, e))
            && (e in s.building ==> s.engine != Some(e) && !Pends(s, e))
  {
    RunKeeps(events);
    RunRemembers(events);
    HeldOrDisposed(Run(events), e);
  }

  lemma HeldOrDisposed(s: State, e: Engine)
    requires EnginesConserved(s) && StaleFits(s)
    ensures s.disposed[e] <= 2 && (s.disposed[e] == 2 <==> e in s.again)
    ensures e in s.disposed ==> e in s.created && e !in s.building && s.engine != Some(e) && !Pends(s, e)
    ensures Bit(e in s.building) + Bit(s.engine == Some(e)) + Bit(Pends(s, e)) <= 1
    ensures e in s.created && e !in s.building && s.engine != Some(e) && !Pends(s, e) ==>
              s.disposed[e] == 1 + Bit(e in s.again)
  {
    var held := Bit(e in s.building) + Bit(s.engine == Some(e)) + Bit(Pends(s, e));
    assert Bit(e in s.created) + Bit(e in s.again) == held + s.disposed[e];
  }

  /** Such a run: the cleanup disposes the engine, and so does the reload that comes after it. */
  lemma DisposedTwice()
    ensures exists events, e :: Run(events).disposed[e] == 2
  {
    var shown := ShownForm(false);
    var events := ReloadAfterUnmount(shown);
  }

  lemma ReloadAfterUnmount(shown: seq<Event>) returns (events: seq<Event>)
    requires var s := Run(shown);
             s.mounted && s.epoch == 0 && s.engine == Some(0) && s.pending.None? && s.disposed[0] == 0
    ensures Run(events).disposed[0] == 2
  {
    events := shown + [Unmount] + [LateReload(0)];
    RunTwoMore(shown, Unmount, LateReload(0));
    UnmountThenReload(Run(shown));
  }

  lemma RunTwoMore(events: seq<Event>, d: Event, e: Event)
    ensures Run(events + [d] + [e]) == Step(Step(Run(events), d), e)
  {
    RunSnoc(events, d);
    RunSnoc(events + [d], e);
  }

  lemma UnmountThenReload(s: State)
    requires s.mounted && s.epoch == 0 && s.engine == Some(0) && s.pending.None? && s.disposed[0] == 0
    ensures LateReloadStep(UnmountStep(s), 0).disposed[0] == 2
  {
    var u := UnmountStep(s);
    assert u.disposed[0] == 1 && Left(u.stale, 0) == Some(0);
  }

  /** A run that ends with engine 0 on display and the queue applied, or about to be. */
  lemma ShownForm(committed: bool) returns (events: seq<Event>)
    ensures var s := Run(events);
            && s.mounted && s.epoch == 0 && s.engine == Some(0) && s.pending.None?
            && s.rejected == multiset{} && s.disposed == multiset{} && s.stale == map[]
            && (if committed then s.shown == Ready(0) && s.queue == [] else s.shown == Loading)
  {
    var e1 := [StartReload];
    var e2 := e1 + [EngineBuilt(0)];
    var e3 := e2 + [CreationDone(0, MadeReady(false))];
    RunSnoc([], StartReload);
    assert [] + [StartReload] == e1;
    var s1 := Run(e1);
    assert 0 in s1.tasks && Current(s1, 0);
    RunSnoc(e1, EngineBuilt(0));
    var s2 := Run(e2);
    assert 0 in s2.building && Current(s2, 0);
    RunSnoc(e2, CreationDone(0, MadeReady(false)));
    var s3 := Run(e3);
    ApplyAllSnoc(s2.shown, s2.queue, Set(Ready(0)));
    assert Drain(s3) == Ready(0);
    events := e3;
    if committed {
      RunSnoc(e3, Commit(true));
      events := e3 + [Commit(true)];
    }
  }

  lemma RuntimeOwnership(events: seq<Event>, r: nat)
    ensures var s := Run(events);
            s.runtimesDisposed[r] <= 1 && (r in s.runtimesDisposed ==> s.runtime != Some(r))
  {
    RunKeeps(events);
  }

  /** After the unmount, everything not still inside a creation has been disposed: once, or
      twice if a reload came late; with no creation in flight that is every engine. Every
      runtime was disposed once, and every promise has settled. */
  lemma NothingLeaksAfterUnmount(events: seq<Event>, e: nat)
    requires !Run(events).mounted
    ensures var s := Run(events);
            && (e in s.created && (e !in s.building || s.tasks == map[]) ==>
                  s.disposed[e] == 1 + Bit(ReloadedLate(events, e)))
            && (e in s.runtimes ==> s.runtimesDisposed[e] == 1)
            && (e in s.accepted ==> s.resolved[e] + s.rejected[e] == 1)
  {
    RunKeeps(events);
    RunRemembers(events);
    HeldOrDisposed(Run(events), e);
    NothingHeld(Run(events), e);
  }

  lemma NothingHeld(s: State, e: nat)
    requires Ledgers(s) && Fits(s) && !s.mounted
    ensures s.engine.None? && s.pending.None? && (s.tasks == map[] ==> e !in s.building)
    ensures e in s.runtimes ==> s.runtimesDisposed[e] == 1
    ensures e in s.accepted ==> s.resolved[e] + s.rejected[e] == 1
  {
  }

  /** Only the creation begun by the live effect's last reload may install; any other one
      disposes what it made, once, and changes neither the controller nor the display. */
  lemma SupersededNeverInstalls(events: seq<Event>, t: nat, outcome: Creation)
    requires Admissible(Run(events), t, outcome) && Run(events).latest != Some(t)
    ensures var s, s' := Run(events), Run(events + [CreationDone(t, outcome)]);
            && s'.engine == s.engine && s'.runtime == s.runtime && s'.pending == s.pending
            && s'.shown == s.shown && s'.queue == s.queue
            && (t in s.building ==> s'.disposed[t] == 1)
            && (t in s'.runtimes ==> s'.runtimesDisposed[t] == 1)
  {
    RunKeeps(events);
    RunSnoc(events, CreationDone(t, outcome));
    DiscardedOnce(Run(events), t, outcome);
  }

  lemma DiscardedOnce(s: State, t: nat, outcome: Creation)
    requires EnginesConserved(s) && RuntimesConserved(s) && StaleFits(s) && TasksFit(s) && LatestFits(s)
    requires Admissible(s, t, outcome) && s.latest != Some(t)
    ensures CreationDoneStep(s, t, outcome) == Discard(s, t, outcome)
    ensures t in s.building ==> Discard(s, t, outcome).disposed[t] == 1
    ensures t in Discard(s, t, outcome).runtimes ==> Discard(s, t, outcome).runtimesDisposed[t] == 1
  {
    HeldOrDisposed(s, t);
    assert Bit(t in s.runtimes) == Bit(s.runtime == Some(t)) + s.runtimesDisposed[t];
  }

  /** The creation of the live effect's last reload, when it comes back: a ready form and a draft
      conflict are held and put on display, whether a runtime came with them or not; every
      other result holds no engine and shows a page without one. The runtime is held exactly
      for an owned ready form and for a submitted one. */
  lemma CurrentCreationShows(events: seq<Event>, t: nat, outcome: Creation)
    requires var s := Run(events);
             Admissible(s, t, outcome) && s.tasks[t] == Task(s.epoch, s.sequence)
    ensures var s := Run(events + [CreationDone(t, outcome)]);
            && (outcome.MadeReady? ==> s.engine == Some(t) && Drain(s) == Ready(t))
            && (outcome.MadeConflict? ==> s.engine == Some(t) && Drain(s) == Conflict(t))
            && (outcome.NeedsSignIn? || outcome.AlreadySubmitted? || outcome.Failed? ==>
                  s.engine == None && Drain(s) == Other)
            && s.runtime == (if outcome == MadeReady(true) || outcome == AlreadySubmitted then Some(t) else None)
  {
    RunSnoc(events, CreationDone(t, outcome));
    assert LatestFits(Run(events)) by { RunKeeps(events); }
    CurrentStepShows(Run(events), t, outcome);
  }

  lemma CurrentStepShows(s: State, t: nat, outcome: Creation)
    requires LatestFits(s) && Admissible(s, t, outcome) && s.tasks[t] == Task(s.epoch, s.sequence)
    ensures var u := CreationDoneStep(s, t, outcome);
            && (outcome.MadeReady? ==> u.engine == Some(t) && Drain(u) == Ready(t))
            && (outcome.MadeConflict? ==> u.engine == Some(t) && Drain(u) == Conflict(t))
            && (outcome.NeedsSignIn? || outcome.AlreadySubmitted? || outcome.Failed? ==>
                  u.engine == None && Drain(u) == Other)
            && u.runtime == (if outcome == MadeReady(true) || outcome == AlreadySubmitted then Some(t) else None)
  {
    ApplyAllSnoc(s.shown, s.queue, Set(if outcome.Failed? then Other else DisplayOf(outcome, t)));
  }

  /** A reload and `disposeActiveEngine` let go of what the controller holds, disposing it; the
      reload shows the loading page and begins the one creation that may install. */
  lemma LettingGo(events: seq<Event>, e: Event)
    requires (e.StartReload? || e.DisposeActive?) && Run(events).mounted
    ensures var s, u := Run(events), Run(events + [e]);
            && u.engine == None && u.runtime == None
            && (s.engine.Some? ==> u.disposed[s.engine.value] == 1)
            && (s.runtime.Some? ==> u.runtimesDisposed[s.runtime.value] == 1)
            && (e.DisposeActive? ==> Drain(u) == Drain(s))
            && (e.StartReload? ==>
                  Drain(u) == Loading && s.next in u.tasks && u.tasks[s.next] == Task(u.epoch, u.sequence)
                  && forall t :: t in u.tasks && t != s.next ==> u.tasks[t] != Task(u.epoch, u.sequence))
  {
    RunSnoc(events, e);
    RunKeeps(events);
    LettingGoStep(Run(events), e);
  }

  lemma LettingGoStep(s: State, e: Event)
    requires (e.StartReload? || e.DisposeActive?) && s.mounted
    requires EnginesConserved(s) && StaleFits(s) && RuntimesConserved(s) && LatestFits(s)
    ensures var u := Step(s, e);
            && u.engine == None && u.runtime == None
            && (s.engine.Some? ==> u.disposed[s.engine.value] == 1)
            && (s.runtime.Some? ==> u.runtimesDisposed[s.runtime.value] == 1)
            && (e.DisposeActive? ==> Drain(u) == Drain(s))
            && (e.StartReload? ==>
                  Drain(u) == Loading && s.next in u.tasks && u.tasks[s.next] == Task(u.epoch, u.sequence)
                  && forall t :: t in u.tasks && t != s.next ==> u.tasks[t] != Task(u.epoch, u.sequence))
  {
    ApplyAllSnoc(s.shown, s.queue, Set(Loading));
    if s.engine.Some? {
      HeldIsLive(s, s.engine.value);
    }
    if s.runtime.Some? {
      var r := s.runtime.value;
      assert Bit(r in s.runtimes) == Bit(s.runtime == Some(r)) + s.runtimesDisposed[r];
    }
  }

  /** A request is refused, and changes nothing, exactly when a guard fails, the effect instance
      or the reload it belongs to is no longer current, the expected engine is not the one held,
      or another exchange is pending; else a new engine is pending as its replacement. */
  lemma RefusedRequestChangesNothing(events: seq<Event>, epoch: nat, sequence: nat, expected: Engine, guardsPass: bool)
    ensures var s := Run(events);
            var u := Run(events + [RequestExchange(epoch, sequence, expected, guardsPass)]);
            if !guardsPass || epoch != s.epoch || sequence != s.sequence || s.engine != Some(expected)
               || s.pending.Some?
            then u == s
            else && s.mounted && u.engine == Some(expected) && u.pending.Some? && !u.pending.value.rollback
                 && u.pending.value.expected == expected && u.pending.value.replacement !in s.created
                 && u.accepted == s.accepted + {u.pending.value.replacement} && u.disposed == s.disposed
  {
    RunSnoc(events, RequestExchange(epoch, sequence, expected, guardsPass));
    assert NumbersFit(Run(events)) by { RunKeeps(events); }
  }

  /** Once the queue is applied, an engine on display is alive, unless Start-current or Clear
      has just disposed it. */
  lemma DisplayedEngineIsAlive(events: seq<Event>)
    ensures var s := Run(events);
            s.mounted && !s.detached && s.queue == [] && s.shown.Ready? ==> s.shown.engine !in s.disposed
  {
    RunKeeps(events);
    var s := Run(events);
    if s.shown.Ready? {
      EngineOwnership(events, s.shown.engine);
    }
  }

  // ---------------------------------------------------------------- Exchange atomicity

  /** A promise settles at most once, never before it was accepted. */
  lemma SettlesAtMostOnce(events: seq<Event>, e: Engine)
    ensures var s := Run(events);
            && s.resolved[e] + s.rejected[e] <= 1
            && (e in s.resolved || e in s.rejected ==> e in s.accepted && !Pends(s, e))
            && (e in s.accepted ==> Pends(s, e) || s.resolved[e] + s.rejected[e] == 1)
  {
    RunKeeps(events);
  }

  predicate Intervenes(e: Event) {
    e.StartReload? || e.LateReload? || e.ShowPage? || e.DisposeActive? || e.Restart? || e.Unmount?
  }

  /** `undisturbed` is true of history: from a request made while its form was on display, it
      holds until the first reload, page change, disposal, restart or unmount. */
  lemma {:induction false} UndisturbedUntilIntervention(events: seq<Event>, after: seq<Event>)
    requires Run(events).pending.Some? && Run(events).pending.value.undisturbed
    requires forall e :: e in after ==> !Intervenes(e)
    ensures var s, s' := Run(events), Run(events + after);
            Pends(s', s.pending.value.replacement) ==> s'.pending.value.undisturbed
    decreases |after|
  {
    var x := Run(events).pending.value.replacement;
    assert x in Run(events).created by {
      RunKeeps(events);
      assert Pends(Run(events), x);
    }
    if after == [] {
      assert events + after == events;
    } else {
      var most, e := after[..|after| - 1], after[|after| - 1];
      UndisturbedUntilIntervention(events, most);
      assert events + after == (events + most) + [e];
      RunSnoc(events + most, e);
      CreatedGrows(events, most);
      assert NumbersFit(Run(events + most)) by { RunKeeps(events + most); }
      StaysUndisturbed(Run(events + most), e, x);
    }
  }

  lemma StaysUndisturbed(s: State, e: Event, x: Engine)
    requires !Intervenes(e) && NumbersFit(s) && x in s.created
    requires Pends(s, x) ==> s.pending.value.undisturbed
    ensures Pends(Step(s, e), x) ==> Step(s, e).pending.value.undisturbed
  {
    if Pends(Step(s, e), x) {
      StepKeepsHistory(s, e, x);
    }
  }

  lemma StepKeepsHistory(s: State, e: Event, x: Engine)
    requires !Intervenes(e) && Pends(Step(s, e), x)
    ensures if Pends(s, x) then Step(s, e).pending.value.undisturbed == s.pending.value.undisturbed else x == s.next
  {
  }

  lemma CreatedGrowsInAStep(s: State, e: Event)
    ensures s.created <= Step(s, e).created
  {
    match e
    case CreationDone(t, outcome) => CreationKeepsCreated(s, t, outcome);
    case Commit(guard) => assert CommitStep(s, guard).created == s.created;
    case _ =>
  }

  lemma CreationKeepsCreated(s: State, t: nat, outcome: Creation)
    ensures CreationDoneStep(s, t, outcome).created == s.created
  {
  }

  lemma {:induction false} CreatedGrows(events: seq<Event>, after: seq<Event>)
    ensures Run(events).created <= Run(events + after).created
    decreases |after|
  {
    if after == [] {
      assert events + after == events;
    } else {
      var most, e := after[..|after| - 1], after[|after| - 1];
      assert events + after == (events + most) + [e];
      CreatedGrows(events, most);
      RunSnoc(events + most, e);
      CreatedGrowsInAStep(Run(events + most), e);
    }
  }

  lemma OnlyCommitsResolve(s: State, e: Event)
    requires Step(s, e).resolved != s.resolved
    ensures e.Commit? && s.pending.Some? && Step(s, e) == Resolve(s, s.pending.value)
    ensures Drain(s) == Ready(s.pending.value.replacement) && MayResolve(s, s.pending.value, true)
  {
  }

  /** A promise is rejected by a commit, or at the latest by the effect's cleanup. */
  lemma WhatRejects(s: State, e: Event)
    requires Step(s, e).rejected != s.rejected
    ensures s.pending.Some? && (e.Commit? || e.Restart? || e.Unmount?)
    ensures Step(s, e).pending.None? && Step(s, e).rejected == s.rejected + multiset{s.pending.value.replacement}
  {
  }

  lemma RejectingCommit(s: State, guard: bool)
    requires CommitStep(s, guard).rejected != s.rejected
    ensures s.pending.Some? && CommitStep(s, guard) == Reject(s, s.pending.value)
    ensures Drain(s) != Ready(s.pending.value.replacement)
  {
  }

  /** A resolved exchange: the local and the displayed engine are both the replacement, which
      is alive, and the expected engine is disposed. */
  lemma ResolvedExchange(events: seq<Event>, e: Event)
    requires Run(events + [e]).resolved != Run(events).resolved
    ensures var s, s' := Run(events), Run(events + [e]);
            && s.pending.Some?
            && var p := s.pending.value;
            && s'.resolved == s.resolved + multiset{p.replacement} && s'.pending.None?
            && s'.engine == Some(p.replacement) && s'.shown == Ready(p.replacement) && s'.queue == []
            && p.replacement !in s'.disposed && s'.disposed[p.expected] == 1
  {
    RunSnoc(events, e);
    OnlyCommitsResolve(Run(events), e);
    assert EnginesConserved(Run(events)) && StaleFits(Run(events)) by { RunKeeps(events); }
    HeldIsLive(Run(events), Run(events).pending.value.expected);
    assert EnginesConserved(Run(events + [e])) && StaleFits(Run(events + [e])) by { RunKeeps(events + [e]); }
    HeldIsLive(Run(events + [e]), Run(events).pending.value.replacement);
  }

  /** An undisturbed exchange that is rejected by a commit: both are still the expected engine,
      which is alive; only the replacement was disposed; and a failed guard was the cause. */
  lemma RejectedExchange(events: seq<Event>, guard: bool)
    requires Run(events).pending.Some? && Run(events).pending.value.undisturbed
    requires Run(events + [Commit(guard)]).rejected != Run(events).rejected
    ensures var s, s' := Run(events), Run(events + [Commit(guard)]);
            var p := s.pending.value;
            && p.rollback && s'.rejected == s.rejected + multiset{p.replacement} && s'.pending.None?
            && s'.engine == Some(p.expected) && s'.shown == Ready(p.expected) && s'.queue == []
            && p.expected !in s'.disposed && s'.disposed == s.disposed + multiset{p.replacement}
  {
    RunSnoc(events, Commit(guard));
    RunKeeps(events);
    RejectedUndisturbed(Run(events), guard);
  }

  lemma RejectedUndisturbed(s: State, guard: bool)
    requires UndisturbedFits(s) && EnginesConserved(s) && StaleFits(s)
    requires s.pending.Some? && s.pending.value.undisturbed && CommitStep(s, guard).rejected != s.rejected
    ensures var p, t := s.pending.value, CommitStep(s, guard);
            && p.rollback && t.rejected == s.rejected + multiset{p.replacement} && t.pending.None?
            && t.engine == Some(p.expected) && t.shown == Ready(p.expected) && t.queue == []
            && p.expected !in t.disposed && t.disposed == s.disposed + multiset{p.replacement}
  {
    RejectingCommit(s, guard);
    HeldIsLive(s, s.pending.value.expected);
    PendingIsNotHeld(s, s.pending.value);
  }

  /** Two commits settle an undisturbed exchange: it resolves at the first exactly when the
      guards still pass, and is otherwise rejected at the second. */
  lemma UndisturbedExchangeSettles(events: seq<Event>, guard: bool, again: bool)
    requires Run(events).pending.Some? && Run(events).pending.value.undisturbed
    requires !Run(events).pending.value.rollback
    ensures var s := Run(events);
            var p, s1 := s.pending.value, CommitStep(s, guard);
            var s2 := CommitStep(s1, again);
            && (guard ==> s1.resolved == s.resolved + multiset{p.replacement} && s1.pending.None?)
            && (!guard ==> s1.pending == Some(p.(rollback := true)))
            && (!guard ==> s2.rejected == s.rejected + multiset{p.replacement} && s2.pending.None?)
  {
    RunKeeps(events);
    var s := Run(events);
    FirstCommit(s, guard);
    if !guard {
      CommitKeeps(s, guard);
      PendingIsNotHeld(s, s.pending.value);
      SecondCommit(CommitStep(s, guard), again);
    }
  }

  lemma FirstCommit(s: State, guard: bool)
    requires UndisturbedFits(s) && s.pending.Some? && s.pending.value.undisturbed && !s.pending.value.rollback
    ensures var p, s1 := s.pending.value, CommitStep(s, guard);
            && (guard ==> s1.resolved == s.resolved + multiset{p.replacement} && s1.pending.None?)
            && (!guard ==> s1.pending == Some(p.(rollback := true)) && s1.rejected == s.rejected)
  {
    DifferentIsNew(s.shown, s.queue);
  }

  lemma SecondCommit(s: State, guard: bool)
    requires UndisturbedFits(s) && s.pending.Some? && s.pending.value.undisturbed && s.pending.value.rollback
    requires s.pending.value.expected != s.pending.value.replacement
    ensures var p, s1 := s.pending.value, CommitStep(s, guard);
            s1.rejected == s.rejected + multiset{p.replacement} && s1.pending.None?
  {
    DifferentIsNew(s.shown, s.queue);
  }

  /** With passing guards and nothing in between, an accepted exchange resolves at the next
      commit if and only if the expected engine's form was on display (or queued to be) when
      the request was made; under an error or sign-in page it does not. */
  lemma ResolvesIffFormOnDisplay(events: seq<Event>, expected: Engine)
    requires var s := Run(events);
             s.mounted && Admits(s, s.epoch, s.sequence, expected, true)
    ensures var s := Run(events);
            var s1 := RequestStep(s, s.epoch, s.sequence, expected, true);
            CommitStep(s1, true).resolved == s.resolved + multiset{s.next} <==> Drain(s) == Ready(expected)
  {
    RunKeeps(events);
    RequestThenCommit(Run(events), expected);
  }

  lemma RequestThenCommit(s: State, expected: Engine)
    requires QueueFits(s) && s.mounted && Admits(s, s.epoch, s.sequence, expected, true)
    ensures var s1 := RequestStep(s, s.epoch, s.sequence, expected, true);
            CommitStep(s1, true).resolved == s.resolved + multiset{s.next} <==> Drain(s) == Ready(expected)
  {
    var s1 := RequestStep(s, s.epoch, s.sequence, expected, true);
    ApplyAllSnoc(s.shown, s.queue, Replace(expected, s.next));
    ApplyAllBelow(s.shown, s.queue, s.next);
    if Drain(s) == Ready(expected) {
      DifferentIsNew(s1.shown, s1.queue);
    } else {
      assert (s.resolved + multiset{s.next})[s.next] != s.resolved[s.next];
    }
  }

  /** No updater among these ever makes a new object of a display without a form. */
  predicate Quiet(q: seq<Update>) {
    forall u :: u in q ==> u.Touch? || u.Replace?
  }

  lemma {:induction false} QuietQueue(d: Display, q: seq<Update>)
    requires Quiet(q) && !d.Ready?
    ensures ApplyAll(d, q) == d && !Changes(d, q)
    decreases |q|
  {
    if q != [] {
      assert q[0] in q;
      QuietQueue(d, q[1..]);
    }
  }

  lemma {:induction false} UnchangedIsQuiet(d: Display, q: seq<Update>)
    requires !Changes(d, q)
    ensures Quiet(q)
    decreases |q|
  {
    if q != [] {
      UnchangedIsQuiet(Apply(d, q[0]), q[1..]);
    }
  }

  lemma {:induction false} ChangesSnoc(d: Display, q: seq<Update>, u: Update)
    ensures Changes(d, q + [u]) <==> Changes(d, q) || MakesNewObject(ApplyAll(d, q), u)
    decreases |q|
  {
    if q == [] {
      assert q + [u] == [u];
    } else {
      assert (q + [u])[1..] == q[1..] + [u];
      ChangesSnoc(Apply(d, q[0]), q[1..], u);
    }
  }

  /** When the form is not on display, the next commit rejects the exchange if and only if
      something else queued makes that commit yield a new object. */
  lemma CoveredExchange(events: seq<Event>, expected: Engine, guard: bool)
    requires var s := Run(events);
             Admits(s, s.epoch, s.sequence, expected, true) && Drain(s) != Ready(expected)
    ensures var s := Run(events);
            var s1 := RequestStep(s, s.epoch, s.sequence, expected, true);
            && (Changes(s.shown, s.queue) ==>
                  && CommitStep(s1, guard).rejected == s.rejected + multiset{s.next}
                  && CommitStep(s1, guard).pending.None?)
            && (!Changes(s.shown, s.queue) ==>
                  CommitStep(s1, guard).rejected == s.rejected && Stuck(s1, s.next))
  {
    var s := Run(events);
    RunKeeps(events);
    CoveredRequest(s, expected);
    var s1 := RequestStep(s, s.epoch, s.sequence, expected, true);
    assert Drain(s1) != Ready(s.next);
  }

  lemma CoveredRequest(s: State, expected: Engine)
    requires QueueFits(s) && DisplayFits(s) && DetachedFits(s) && NumbersFit(s)
    requires Admits(s, s.epoch, s.sequence, expected, true) && Drain(s) != Ready(expected)
    ensures s.mounted && !Drain(s).Ready?
    ensures var s1 := RequestStep(s, s.epoch, s.sequence, expected, true);
            && Drain(s1) == Drain(s) && (Changes(s1.shown, s1.queue) <==> Changes(s.shown, s.queue))
            && (!Changes(s.shown, s.queue) ==> Stuck(s1, s.next))
  {
    ApplyAllSnoc(s.shown, s.queue, Replace(expected, s.next));
    ChangesSnoc(s.shown, s.queue, Replace(expected, s.next));
    if !Changes(s.shown, s.queue) {
      if Drain(s) != s.shown {
        DifferentIsNew(s.shown, s.queue);
      }
      UnchangedIsQuiet(s.shown, s.queue);
    }
  }

  /** The exchange is pending under a committed page that nothing queued will replace. */
  ghost predicate Stuck(s: State, replacement: Engine) {
    Pends(s, replacement) && s.engine.Some? && !s.shown.Ready? && Quiet(s.queue)
  }

  /** Then it stays pending, and every other exchange is refused, through every run without a
      reload, page change, disposal, restart or unmount. */
  lemma {:induction false} StaysPending(events: seq<Event>, replacement: Engine, after: seq<Event>)
    requires Stuck(Run(events), replacement) && forall e :: e in after ==> !Intervenes(e)
    ensures var s, t := Run(events), Run(events + after);
            && Stuck(t, replacement) && t.resolved == s.resolved && t.rejected == s.rejected
            && forall epoch: nat, sequence: nat, expected: Engine :: !Admits(t, epoch, sequence, expected, true)
    decreases |after|
  {
    if after == [] {
      assert events + after == events;
    } else {
      var most, e := after[..|after| - 1], after[|after| - 1];
      assert events + after == (events + most) + [e];
      StaysPending(events, replacement, most);
      RunSnoc(events + most, e);
      assert LatestFits(Run(events + most)) by { RunKeeps(events + most); }
      StuckStep(Run(events + most), e, replacement);
    }
  }

  /** The three fates of an accepted exchange, told apart when it is requested: it resolves at
      the next commit, is rejected there, or is neither until something intervenes. */
  lemma ThreeFates(events: seq<Event>, expected: Engine, after: seq<Event>)
    requires var s := Run(events);
             Admits(s, s.epoch, s.sequence, expected, true)
    requires forall e :: e in after ==> !Intervenes(e)
    ensures var s := Run(events);
            var s1 := RequestStep(s, s.epoch, s.sequence, expected, true);
            && (CommitStep(s1, true).resolved == s.resolved + multiset{s.next} <==> Drain(s) == Ready(expected))
            && (CommitStep(s1, true).rejected == s.rejected + multiset{s.next}
                <==> Drain(s) != Ready(expected) && Changes(s.shown, s.queue))
            && (Drain(s) != Ready(expected) && !Changes(s.shown, s.queue) ==>
                  var t := Run(events + [RequestExchange(s.epoch, s.sequence, expected, true)] + after);
                  Pends(t, s.next) && t.resolved == s.resolved && t.rejected == s.rejected)
  {
    var s := Run(events);
    assert s.mounted by { RunKeeps(events); }
    ResolvesIffFormOnDisplay(events, expected);
    if Drain(s) != Ready(expected) {
      CoveredExchange(events, expected, true);
      NotTwice(s.rejected, s.next);
      if !Changes(s.shown, s.queue) {
        var request := RequestExchange(s.epoch, s.sequence, expected, true);
        RunSnoc(events, request);
        StaysPending(events + [request], s.next, after);
      }
    } else {
      FormCommitRejectsNothing(events, expected);
      NotTwice(s.rejected, s.next);
    }
  }

  lemma NotTwice(m: multiset<Engine>, e: Engine)
    ensures m != m + multiset{e}
  {
    assert (m + multiset{e})[e] == m[e] + 1;
  }

  lemma FormCommitRejectsNothing(events: seq<Event>, expected: Engine)
    requires var s := Run(events);
             Admits(s, s.epoch, s.sequence, expected, true) && Drain(s) == Ready(expected)
    ensures var s := Run(events);
            CommitStep(RequestStep(s, s.epoch, s.sequence, expected, true), true).rejected == s.rejected
  {
    var s := Run(events);
    ApplyAllSnoc(s.shown, s.queue, Replace(expected, s.next));
  }

  lemma StuckStep(s: State, e: Event, replacement: Engine)
    requires LatestFits(s) && Stuck(s, replacement) && !Intervenes(e)
    ensures Stuck(Step(s, e), replacement)
    ensures Step(s, e).resolved == s.resolved && Step(s, e).rejected == s.rejected
  {
    QuietQueue(s.shown, s.queue);
  }

  /** Such runs: an error page covers the form. While the page is still queued, the exchange is
      accepted and then rejected although nothing intervened; once the page is committed, the
      exchange is accepted and stays pending. */
  lemma CoveredFormRejects()
    ensures exists events: seq<Event>, expected: Engine ::
              var s := Run(events);
              && s.mounted && Admits(s, s.epoch, s.sequence, expected, true)
              && var s2 := CommitStep(RequestStep(s, s.epoch, s.sequence, expected, true), true);
              s2.rejected[s.next] == 1 && s2.shown == Other && s2.engine == Some(expected)
  {
    var shown := ShownForm(false);
    RunSnoc(shown, ShowPage);
    ApplyAllSnoc(Run(shown).shown, Run(shown).queue, Set(Other));
    var s := Run(shown + [ShowPage]);
    CoveredCommit(s);
  }

  lemma CoveredCommit(s: State)
    requires s.mounted && s.engine == Some(0) && s.pending.None? && s.rejected == multiset{}
    requires s.shown == Loading && Drain(s) == Other
    ensures var s2 := CommitStep(RequestStep(s, s.epoch, s.sequence, 0, true), true);
            s2.rejected[s.next] == 1 && s2.shown == Other && s2.engine == Some(0)
  {
    var r := RequestStep(s, s.epoch, s.sequence, 0, true);
    ApplyAllSnoc(s.shown, s.queue, Replace(0, s.next));
    DifferentIsNew(r.shown, r.queue);
    assert CommitStep(r, true) == Reject(r, r.pending.value);
  }

  lemma CoveredFormStaysPending()
    ensures exists events: seq<Event>, expected: Engine ::
              var s := Run(events);
              && Admits(s, s.epoch, s.sequence, expected, true)
              && Stuck(RequestStep(s, s.epoch, s.sequence, expected, true), s.next)
  {
    var shown := ShownForm(true);
    RunSnoc(shown, ShowPage);
    var s2 := Run(shown + [ShowPage]);
    assert s2.queue == [Set(Other)] && [Set(Other)][1..] == [];
    assert Drain(s2) == Other;
    RunSnoc(shown + [ShowPage], Commit(true));
    var s := Run(shown + [ShowPage] + [Commit(true)]);
    assert s.shown == Other && s.queue == [];
    var r := RequestStep(s, s.epoch, s.sequence, 0, true);
    assert Stuck(r, s.next);
  }

  // ---------------------------------------------------------------- The controller in place

  /** The controller's variables. `world` carries the environment and history; `log` is what
      has happened, so that every theorem about runs speaks of this object. */
  class RespondentController {
    var mounted: bool
    var epoch: nat
    var sequence: nat
    var engine: Option<Engine>
    var runtime: Option<nat>
    var pending: Option<Exchange>
    var stale: map<nat, Engine>
    var shown: Display
    var queue: seq<Update>
    ghost var world: State
    ghost var log: seq<Event>

    ghost function View(): State
      reads this
    {
      world.(mounted := mounted, epoch := epoch, sequence := sequence, engine := engine, runtime := runtime,
             pending := pending, stale := stale, shown := shown, queue := queue)
    }

    ghost predicate Valid()
      reads this
    {
      View() == Run(log)
    }

    constructor ()
      ensures Valid() && log == []
    {
      mounted, epoch, sequence, engine, runtime, pending := true, 0, 0, None, None, None;
      stale, shown, queue := map[], Loading, [Set(Loading)];
      world, log := INITIAL, [];
    }

    ghost method Record(e: Event, before: State)
      requires before == Run(log) && View() == Step(before, e)
      modifies this`log
      ensures Valid() && log == old(log) + [e]
    {
      RunSnoc(log, e);
      log := log + [e];
    }

    /** Dispose what the controller holds. */
    method ReleaseHeld()
      modifies this`engine, this`runtime, this`world
      ensures View() == Released(old(View()))
    {
      world := world.(runtimesDisposed := world.runtimesDisposed + Holding(runtime));
      runtime := None;
      world := world.(disposed := world.disposed + Holding(engine));
      engine := None;
    }

    /** `applyReadyState` up to the await on the creation. */
    method StartReload()
      requires Valid() && mounted
      modifies this
      ensures Valid() && log == old(log) + [Event.StartReload]
    {
      ghost var before := View();
      Reload();
      Record(Event.StartReload, before);
    }

    method Reload()
      requires mounted
      modifies this`sequence, this`engine, this`runtime, this`pending, this`queue, this`world
      ensures View() == StartReloadStep(old(View()))
    {
      sequence := sequence + 1;
      ReleaseHeld();
      NoteReload();
      queue := queue + [Set(Loading)];
      pending := Disturbed(pending);
    }

    ghost method NoteReload()
      modifies this`world
      ensures world == old(world.(tasks := world.tasks[world.next := Task(epoch, sequence)], next := world.next + 1,
                                  latest := Some(world.next), detached := false))
    {
      world := world.(tasks := world.tasks[world.next := Task(epoch, sequence)], next := world.next + 1,
                      latest := Some(world.next), detached := false);
    }

    /** A creation in flight makes its engine. */
    ghost method BuildEngine(t: nat)
      requires Valid() && t in View().tasks && t !in View().building
      modifies this
      ensures Valid() && log == old(log) + [EngineBuilt(t)] && t in View().building
    {
      var before := View();
      AddEngine(t);
      Record(EngineBuilt(t), before);
    }

    ghost method AddEngine(t: nat)
      requires t in View().tasks && t !in View().building
      modifies this`world
      ensures View() == EngineBuiltStep(old(View()), t) && t in View().building
    {
      world := world.(building := world.building + {t}, created := world.created + {t});
    }

    /** A spread of the previous state with the same engine is queued. */
    method QueueCopy()
      requires Valid() && mounted
      modifies this
      ensures Valid() && log == old(log) + [CopyState]
    {
      ghost var before := View();
      queue := queue + [Touch];
      Record(CopyState, before);
    }

    /** A page without an engine (sign-in, an error, the cleared form) is queued. */
    method QueuePage()
      requires Valid() && mounted
      modifies this
      ensures Valid() && log == old(log) + [ShowPage]
    {
      ghost var before := View();
      PutPage();
      Record(ShowPage, before);
    }

    method PutPage()
      requires mounted
      modifies this`pending, this`queue
      ensures View() == ShowPageStep(old(View()))
    {
      queue := queue + [Set(Other)];
      pending := Disturbed(pending);
    }

    /** `applyReadyState` after the await: a stale creation disposes its result, the current
        one installs it. */
    method FinishCreation(t: nat, started: Task, outcome: Creation)
      requires Valid() && Admissible(View(), t, outcome)
      requires View().tasks[t] == started
      modifies this
      ensures Valid() && log == old(log) + [CreationDone(t, outcome)]
    {
      ghost var before := View();
      var current := started.epoch == epoch && started.sequence == sequence;
      SettleCreation(t, current, outcome);
      Record(CreationDone(t, outcome), before);
    }

    method SettleCreation(t: nat, current: bool, outcome: Creation)
      modifies this`engine, this`runtime, this`queue, this`world
      ensures View() == if current then Install(old(View()), t, outcome) else Discard(old(View()), t, outcome)
    {
      if current && !outcome.Failed? {
        InstallResult(t, outcome);
      } else {
        DiscardResult(t, outcome);
        if current {
          queue := queue + [Set(Other)];
        }
      }
    }

    ghost method DiscardResult(t: nat, outcome: Creation)
      modifies this`world
      ensures View() == Discard(old(View()), t, outcome)
    {
      world := Discard(world, t, outcome);
    }

    method InstallResult(t: nat, outcome: Creation)
      requires !outcome.Failed?
      modifies this`engine, this`runtime, this`queue, this`world
      ensures View() == Install(old(View()), t, outcome)
    {
      world := world.(tasks := world.tasks - {t}, building := world.building - {t},
                      runtimes := world.runtimes + (if BringsRuntime(outcome) then {t} else {}),
                      runtimesDisposed := world.runtimesDisposed + Holding(runtime), detached := false);
      runtime := if BringsRuntime(outcome) then Some(t) else None;
      engine := if outcome.MadeReady? || outcome.MadeConflict? then Some(t) else None;
      queue := queue + [Set(DisplayOf(outcome, t))];
    }

    /** `exchangeEngine` with a fresh replacement: refused, or left pending with an updater queued. */
    method ExchangeEngine(ep: nat, seqNo: nat, expected: Engine, replacement: Engine, guardsPass: bool)
        returns (admitted: bool)
      requires Valid() && replacement == View().next
      modifies this
      ensures admitted == Admits(old(View()), ep, seqNo, expected, guardsPass)
      ensures Valid() && log == old(log) + [RequestExchange(ep, seqNo, expected, guardsPass)]
    {
      ghost var before := View();
      admitted := Request(ep, seqNo, expected, replacement, guardsPass);
      Record(RequestExchange(ep, seqNo, expected, guardsPass), before);
    }

    method Request(ep: nat, seqNo: nat, expected: Engine, replacement: Engine, guardsPass: bool)
        returns (admitted: bool)
      requires replacement == View().next
      modifies this`pending, this`queue, this`world
      ensures admitted == Admits(old(View()), ep, seqNo, expected, guardsPass)
      ensures View() == RequestStep(old(View()), ep, seqNo, expected, guardsPass)
    {
      admitted := guardsPass && ep == epoch && seqNo == sequence && engine == Some(expected) && pending.None?;
      if admitted {
        pending := Some(Exchange(ep, seqNo, expected, replacement, false, ApplyAll(shown, queue) == Ready(expected)));
        queue := queue + [Replace(expected, replacement)];
        world := world.(created := world.created + {replacement}, accepted := world.accepted + {replacement},
                        next := world.next + 1);
      }
    }

    /** React applies the queue in order and runs the layout effect when the state is a new object. */
    method CommitUpdates(guardPasses: bool)
      requires Valid() && mounted
      modifies this
      ensures Valid() && log == old(log) + [Event.Commit(guardPasses)]
    {
      ghost var before := View();
      Commit(guardPasses);
      Record(Event.Commit(guardPasses), before);
    }

    method Commit(guardPasses: bool)
      requires mounted
      modifies this`engine, this`pending, this`shown, this`queue, this`world
      ensures View() == CommitStep(old(View()), guardPasses)
    {
      var changed := ApplyQueue();
      if changed && pending.Some? {
        RunLayoutEffect(pending.value, guardPasses);
      }
    }

    method ApplyQueue() returns (changed: bool)
      modifies this`shown, this`queue
      ensures shown == old(ApplyAll(shown, queue)) && queue == []
      ensures changed == old(Changes(shown, queue))
    {
      ghost var d, q := shown, queue;
      var i := 0;
      changed := false;
      while i < |queue|
        invariant 0 <= i <= |queue| && queue == q
        invariant ApplyAll(shown, q[i..]) == ApplyAll(d, q)
        invariant Changes(d, q) <==> changed || Changes(shown, q[i..])
      {
        assert q[i..][1..] == q[i + 1..];
        changed := changed || MakesNewObject(shown, queue[i]);
        shown := Apply(shown, queue[i]);
        i := i + 1;
      }
      queue := [];
    }

    method RunLayoutEffect(p: Exchange, guardPasses: bool)
      requires pending == Some(p)
      modifies this`engine, this`pending, this`queue, this`world
      ensures var s := old(View());
              View() == if s.shown != Ready(p.replacement)
                        then s.(pending := None, disposed := s.disposed + multiset{p.replacement},
                                rejected := s.rejected + multiset{p.replacement})
                        else if MayResolve(s, p, guardPasses)
                        then s.(engine := Some(p.replacement), pending := None,
                                disposed := s.disposed + multiset{p.expected},
                                resolved := s.resolved + multiset{p.replacement})
                        else s.(pending := Some(p.(rollback := true)),
                                queue := s.queue + [Replace(p.replacement, p.expected)])
    {
      if shown == Ready(p.replacement) {
        if !p.rollback && guardPasses && p.epoch == epoch && p.sequence == sequence && engine == Some(p.expected) {
          engine := Some(p.replacement);
          pending := None;
          world := world.(disposed := world.disposed + multiset{p.expected},
                          resolved := world.resolved + multiset{p.replacement});
        } else {
          pending := Some(p.(rollback := true));
          queue := queue + [Replace(p.replacement, p.expected)];
        }
      } else {
        pending := None;
        world := world.(disposed := world.disposed + multiset{p.replacement},
                        rejected := world.rejected + multiset{p.replacement});
      }
    }

    /** `disposeActiveEngine`, called by Start-current and Clear. */
    method DisposeActiveEngine()
      requires Valid() && mounted
      modifies this
      ensures Valid() && log == old(log) + [DisposeActive]
    {
      ghost var before := View();
      Detach();
      Record(DisposeActive, before);
    }

    method Detach()
      requires mounted
      modifies this`engine, this`runtime, this`pending, this`world
      ensures View() == DisposeActiveStep(old(View()))
    {
      ReleaseHeld();
      world := world.(detached := true);
      pending := Disturbed(pending);
    }

    /** The effect's cleanup: dispose what is held, keep the engine variable, reject the
        pending exchange. */
    method CleanUp()
      modifies this`epoch, this`engine, this`runtime, this`pending, this`stale, this`world
      ensures View() == Cleanup(old(View()))
    {
      KeepEngine();
      Empty();
    }

    method KeepEngine()
      modifies this`stale
      ensures View() == old(View()).(stale := Keep(old(View())))
    {
      if engine.Some? {
        stale := stale[epoch := engine.value];
      }
    }

    method Empty()
      modifies this`epoch, this`engine, this`runtime, this`pending, this`world
      ensures View() == Emptied(old(View()))
    {
      ReleaseHeld();
      RetirePending();
      epoch := epoch + 1;
    }

    method RetirePending()
      modifies this`pending, this`world
      ensures View() == Retired(old(View()))
    {
      world := world.(disposed := world.disposed + Promised(pending), rejected := world.rejected + Promised(pending));
      pending := None;
    }

    /** A cleaned-up effect reloads: whatever its engine variable holds is disposed once more. */
    method ReloadAfterCleanup(origin: nat)
      requires Valid() && origin < epoch
      modifies this
      ensures Valid() && log == old(log) + [Event.LateReload(origin)]
    {
      ghost var before := View();
      LateReload(origin);
      Record(Event.LateReload(origin), before);
    }

    method LateReload(origin: nat)
      requires origin < epoch
      modifies this`pending, this`stale, this`queue, this`world
      ensures View() == LateReloadStep(old(View()), origin)
    {
      DisposeLeft(origin);
      world := world.(tasks := world.tasks[world.next := Task(origin, 0)], next := world.next + 1);
      pending := Disturbed(pending);
      if mounted {
        queue := queue + [Set(Loading)];
      }
    }

    method DisposeLeft(origin: nat)
      modifies this`stale, this`world
      ensures stale == old(stale) - {origin}
      ensures world == old(world.(disposed := world.disposed + Holding(Left(stale, origin)),
                                  again := world.again + Only(Left(stale, origin))))
    {
      if origin in stale {
        world := world.(disposed := world.disposed + multiset{stale[origin]}, again := world.again + {stale[origin]});
        stale := stale - {origin};
      }
    }

    method Unmounted()
      requires Valid() && mounted
      modifies this
      ensures Valid() && log == old(log) + [Event.Unmount]
    {
      ghost var before := View();
      Unmount();
      Record(Event.Unmount, before);
    }

    method Unmount()
      requires mounted
      modifies this`mounted, this`epoch, this`engine, this`runtime, this`pending, this`stale, this`world
      ensures View() == UnmountStep(old(View()))
    {
      CleanUp();
      mounted := false;
    }

    /** A dependency change: cleanup, then a new effect instance. */
    method Restarted()
      requires Valid() && mounted
      modifies this
      ensures Valid() && log == old(log) + [Event.Restart]
    {
      ghost var before := View();
      Restart();
      Record(Event.Restart, before);
    }

    method Restart()
      requires mounted
      modifies this`epoch, this`sequence, this`engine, this`runtime, this`pending, this`stale, this`queue, this`world
      ensures View() == RestartStep(old(View()))
    {
      CleanUp();
      sequence := 0;
      queue := queue + [Set(Loading)];
      world := world.(detached := false, latest := None);
    }
  }
}
