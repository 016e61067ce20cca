/** The lifetime of a native package's host. Every mount of one composition receives the same
    memoised host; a generation counter, one to a component instance, decides which mount may
    dispose it. */
module NativeHost {
  import opened Common

  /** The memoised load: all mounts see the same result. */
  datatype Load = Pending | Ready | Broken

  /** `Settled` shows the host once active; `GaveUp` shows the failure. */
  datatype Phase = Loading | Resuming | Settled | GaveUp

  predicate Done(phase: Phase) {
    phase.Settled? || phase.GaveUp?
  }

  datatype Microtask = NotQueued | Queued | Ran

  /** One run of the effect: its closure's variables and how far its promises have come. */
  datatype Mount = Mount(
    component: nat, generation: nat, mounted: bool, active: bool, boot: bool, subscribed: bool,
    phase: Phase, microtask: Microtask)

  /** `generations` holds each component's counter; `disposals` counts calls of the host's dispose. */
  datatype State = State(generations: map<nat, nat>, mounts: seq<Mount>, load: Load, disposals: nat)

  datatype Action =
    | LoadDone(session: bool)
    | LoadFailed
    | ResumeOk
    | ResumeFail
    | CleanUp
    | RunMicrotask
    | IdentityChange

  datatype Event = Begin(component: nat) | LoadSettles(ok: bool) | Act(index: nat, action: Action)

  // ---------------------------------------------------------------- Steps

  predicate Enabled(load: Load, m: Mount, a: Action) {
    match a
    case LoadDone(_) => m.phase == Loading && load == Ready
    case LoadFailed => m.phase == Loading && load == Broken
    case ResumeOk => m.phase == Resuming
    case ResumeFail => m.phase == Resuming
    case CleanUp => m.mounted
    case RunMicrotask => m.microtask == Queued
    case IdentityChange => m.subscribed
  }

  function Next(m: Mount, a: Action): Mount {
    match a
    case LoadDone(session) => m.(boot := true, subscribed := session && m.active, phase := Resuming)
    case LoadFailed => m.(phase := GaveUp)
    case ResumeOk => m.(phase := Settled)
    case ResumeFail => m.(phase := GaveUp)
    case CleanUp => m.(mounted := false, active := false, subscribed := false, microtask := Queued)
    case RunMicrotask => m.(microtask := Ran)
    case IdentityChange => m.(active := false, subscribed := false)
  }

  /** Whether the callback disposes the host, given that its generation is the current one. */
  predicate Disposes(m: Mount, current: bool, a: Action) {
    match a
    case ResumeOk => !m.active && current
    case ResumeFail => current && m.boot
    case LoadFailed => current && m.boot
    case RunMicrotask => current && m.boot
    case IdentityChange => true
    case _ => false
  }

  predicate Current(s: State, m: Mount) {
    m.component in s.generations && s.generations[m.component] == m.generation
  }

  predicate Idle(s: State, component: nat) {
    forall m :: m in s.mounts && m.component == component ==> !m.mounted
  }

  predicate Possible(s: State, e: Event) {
    match e
    case Begin(component) => Idle(s, component)
    case LoadSettles(_) => s.load == Pending
    case Act(i, a) => i < |s.mounts| && Enabled(s.load, s.mounts[i], a)
  }

  function GenerationOf(s: State, component: nat): nat {
    if component in s.generations then s.generations[component] else 0
  }

  function Step(s: State, e: Event): State {
    if !Possible(s, e) then s else
    match e
    case Begin(component) =>
      var g := GenerationOf(s, component) + 1;
      s.(generations := s.generations[component := g],
         mounts := s.mounts + [Mount(component, g, true, true, false, false, Loading, NotQueued)])
    case LoadSettles(ok) => s.(load := if ok then Ready else Broken)
    case Act(i, a) =>
      var m := s.mounts[i];
      s.(mounts := s.mounts[i := Next(m, a)],
         disposals := s.disposals + if Disposes(m, Current(s, m), a) then 1 else 0)
  }

  function Run(events: seq<Event>): State {
    if events == [] then State(map[], [], Pending, 0) else Step(Run(events[..|events| - 1]), events[|events| - 1])
  }

  lemma RunSnoc(events: seq<Event>, e: Event)
    ensures Run(events + [e]) == Step(Run(events), e)
  {
    assert (events + [e])[..|events|] == events;
  }

  // ---------------------------------------------------------------- Invariant

  ghost predicate Counted(s: State, m: Mount) {
    && m.component in s.generations && m.generation <= s.generations[m.component]
    && (m.mounted ==> m.generation == s.generations[m.component])
  }

  ghost predicate Consistent(load: Load, m: Mount) {
    && (m.mounted <==> m.microtask == NotQueued)
    && (m.active || m.subscribed ==> m.mounted)
    && (m.boot ==> load == Ready && m.phase != Loading)
    && (m.phase != Loading ==> m.boot || load == Broken) && (m.phase == Resuming ==> m.boot)
  }

  /** The current mount of a component has left no live host behind once it has drained. */
  ghost predicate Released(s: State, m: Mount) {
    Current(s, m) && m.boot && Done(m.phase) && m.microtask == Ran ==> s.disposals > 0
  }

  /** An effect that lost its active flag while mounted lost it to an identity change. */
  ghost predicate Dethroned(s: State, m: Mount) {
    m.mounted && !m.active ==> s.disposals > 0
  }

  ghost predicate MountFits(s: State, m: Mount) {
    Counted(s, m) && Consistent(s.load, m) && Released(s, m) && Dethroned(s, m)
  }

  /** Later mounts of a component have later generations. */
  ghost predicate Ordered(s: State) {
    forall i, j :: 0 <= i < j < |s.mounts| && s.mounts[i].component == s.mounts[j].component ==>
      s.mounts[i].generation < s.mounts[j].generation
  }

  ghost predicate Inv(s: State) {
    Ordered(s) && forall i :: 0 <= i < |s.mounts| ==> MountFits(s, s.mounts[i])
  }

  lemma ActedMountFits(s: State, i: nat, a: Action)
    requires i < |s.mounts| && Enabled(s.load, s.mounts[i], a) && MountFits(s, s.mounts[i])
    ensures MountFits(Step(s, Act(i, a)), Next(s.mounts[i], a))
  {
  }

  lemma ActKeeps(s: State, i: nat, a: Action)
    requires Inv(s) && i < |s.mounts| && Enabled(s.load, s.mounts[i], a)
    ensures Inv(Step(s, Act(i, a)))
  {
    var t := Step(s, Act(i, a));
    ActedMountFits(s, i, a);
    forall k | 0 <= k < |t.mounts|
      ensures MountFits(t, t.mounts[k])
    {
      assert MountFits(s, s.mounts[k]);
    }
  }

  lemma BeginKeeps(s: State, component: nat)
    requires Inv(s) && Idle(s, component)
    ensures Inv(Step(s, Begin(component)))
  {
    var t := Step(s, Begin(component));
    forall k | 0 <= k < |t.mounts|
      ensures MountFits(t, t.mounts[k])
      ensures k < |s.mounts| && t.mounts[k].component == component ==> t.mounts[k].generation < t.generations[component]
    {
      if k < |s.mounts| {
        assert s.mounts[k] in s.mounts && MountFits(s, s.mounts[k]);
      }
    }
  }

  lemma StepKeeps(s: State, e: Event)
    requires Inv(s)
    ensures Inv(Step(s, e))
  {
    if Possible(s, e) {
      match e
      case Begin(component) => BeginKeeps(s, component);
      case LoadSettles(ok) =>
        forall k | 0 <= k < |s.mounts|
          ensures MountFits(Step(s, e), s.mounts[k])
        {
          assert MountFits(s, s.mounts[k]);
        }
      case Act(i, a) => ActKeeps(s, i, a);
    }
  }

  lemma {:induction false} RunKeeps(events: seq<Event>)
    ensures Inv(Run(events))
    decreases |events|
  {
    if events != [] {
      RunKeeps(events[..|events| - 1]);
      StepKeeps(Run(events[..|events| - 1]), events[|events| - 1]);
    }
  }

  // ---------------------------------------------------------------- Who disposes the host

  /** Outside an identity change, only a component's newest mount disposes the host; while
      another mount of that component is mounted, no older one does. */
  lemma OlderNeverDisposes(events: seq<Event>, e: Event, n: nat)
    requires e.Act? && !e.action.IdentityChange? && Run(events + [e]).disposals > Run(events).disposals
    requires n < |Run(events).mounts| && Run(events).mounts[n].mounted
    ensures var s := Run(events);
            && e.index < |s.mounts| && Current(s, s.mounts[e.index])
            && (s.mounts[n].component == s.mounts[e.index].component ==> n == e.index)
  {
    RunSnoc(events, e);
    RunKeeps(events);
    var s := Run(events);
    assert MountFits(s, s.mounts[n]);
  }

  lemma NothingElseMounted(s: State, i: nat)
    requires Inv(s) && i < |s.mounts| && Current(s, s.mounts[i]) && !s.mounts[i].mounted
    ensures Idle(s, s.mounts[i].component)
  {
    forall m | m in s.mounts && m.component == s.mounts[i].component
      ensures !m.mounted
    {
      var k :| 0 <= k < |s.mounts| && s.mounts[k] == m;
      assert MountFits(s, s.mounts[k]);
    }
  }

  /** An identity change seen by a mounted effect, a failed resume, an effect that an earlier
      disposal had deposed, or a component with nothing mounted. */
  ghost predicate HasCause(s: State, m: Mount, a: Action) {
    (a.IdentityChange? && m.mounted) || a.ResumeFail? || (m.mounted && s.disposals > 0) || Idle(s, m.component)
  }

  lemma CauseOf(s: State, i: nat, a: Action)
    requires Inv(s) && i < |s.mounts| && Enabled(s.load, s.mounts[i], a)
    ensures Disposes(s.mounts[i], Current(s, s.mounts[i]), a) ==> HasCause(s, s.mounts[i], a)
  {
    var m := s.mounts[i];
    assert MountFits(s, m);
    if Current(s, m) && !m.mounted {
      NothingElseMounted(s, i);
    }
  }

  /** Every disposal has a cause. */
  lemma WhyDisposed(events: seq<Event>, e: Event)
    requires Run(events + [e]).disposals > Run(events).disposals
    ensures e.Act? && e.index < |Run(events).mounts| && HasCause(Run(events), Run(events).mounts[e.index], e.action)
  {
    RunSnoc(events, e);
    RunKeeps(events);
    CauseOf(Run(events), e.index, e.action);
  }

  /** After the last cleanup, once every load, resume and microtask has run, a host that was
      loaded has been disposed. */
  lemma LoadedHostIsReleased(events: seq<Event>)
    requires var s := Run(events);
             && s.mounts != [] && s.load == Ready
             && forall i :: 0 <= i < |s.mounts| ==> Done(s.mounts[i].phase) && s.mounts[i].microtask == Ran
    ensures Run(events).disposals > 0
  {
    RunKeeps(events);
    var s := Run(events);
    var i := NewestMount(events, s.mounts[0].component);
    assert MountFits(s, s.mounts[i]);
  }

  lemma {:induction false} NewestMount(events: seq<Event>, component: nat) returns (i: nat)
    requires component in Run(events).generations
    ensures i < |Run(events).mounts|
    ensures Run(events).mounts[i].component == component && Current(Run(events), Run(events).mounts[i])
    decreases |events|
  {
    var most, e := events[..|events| - 1], events[|events| - 1];
    if Possible(Run(most), e) && e == Begin(component) {
      i := |Run(most).mounts|;
    } else {
      i := NewestMount(most, component);
    }
  }

  // ---------------------------------------------------------------- Following identities

  /** The mount's load completes with a session while the mount is active. */
  predicate Subscribes(s: State, e: Event, i: nat) {
    e == Act(i, LoadDone(true)) && Possible(s, e) && s.mounts[i].active
  }

  predicate Unsubscribes(e: Event, i: nat) {
    e == Act(i, CleanUp) || e == Act(i, IdentityChange)
  }

  /** It did so at `d`, and has neither been cleaned up nor seen an identity change since. */
  ghost predicate SubscribedAt(events: seq<Event>, i: nat, d: int) {
    && 0 <= d < |events| && Subscribes(Run(events[..d]), events[d], i)
    && forall k :: d < k < |events| ==> !Unsubscribes(events[k], i)
  }

  lemma SubscriptionStep(s: State, e: Event, i: nat)
    requires Inv(s) && i < |Step(s, e).mounts|
    requires i < |s.mounts| && s.mounts[i].subscribed ==> s.mounts[i].phase != Loading
    ensures var after := Step(s, e).mounts[i];
            && (after.subscribed ==> after.phase != Loading)
            && (after.subscribed <==>
                Subscribes(s, e, i) || (i < |s.mounts| && s.mounts[i].subscribed && !Unsubscribes(e, i)))
  {
    if i < |s.mounts| {
      assert MountFits(s, s.mounts[i]);
    }
  }

  /** A mount follows identities exactly from a load with a session that completed while it was
      active until its cleanup or the first identity change. */
  lemma {:induction false} SubscribedIff(events: seq<Event>, i: nat)
    requires i < |Run(events).mounts|
    ensures Run(events).mounts[i].subscribed ==> Run(events).mounts[i].phase != Loading
    ensures Run(events).mounts[i].subscribed <==> exists d :: SubscribedAt(events, i, d)
    decreases |events|
  {
    var n := |events| - 1;
    var most, e := events[..n], events[n];
    RunKeeps(most);
    if i < |Run(most).mounts| {
      SubscribedIff(most, i);
    }
    SubscriptionStep(Run(most), e, i);
    assert forall d :: 0 <= d < n ==> most[..d] == events[..d];
    if Subscribes(Run(most), e, i) {
      assert SubscribedAt(events, i, n);
    } else if i < |Run(most).mounts| {
      assert most + [e] == events;
      EarlierSubscription(most, e, i);
    } else {
      NoEarlierSubscription(events, i);
    }
  }

  lemma EarlierSubscription(most: seq<Event>, e: Event, i: nat)
    requires !Subscribes(Run(most), e, i)
    ensures (exists d :: SubscribedAt(most + [e], i, d)) <==>
              (exists d :: SubscribedAt(most, i, d)) && !Unsubscribes(e, i)
  {
    var events, n := most + [e], |most|;
    assert events[..n] == most && events[n] == e;
    assert forall d :: 0 <= d < n ==> most[..d] == events[..d] && most[d] == events[d];
    if d :| SubscribedAt(events, i, d) {
      assert d != n;
      assert SubscribedAt(most, i, d);
    }
    if d :| !Unsubscribes(e, i) && SubscribedAt(most, i, d) {
      assert SubscribedAt(events, i, d);
    }
  }

  lemma {:induction false} MountsGrow(events: seq<Event>, d: nat)
    requires d <= |events|
    ensures |Run(events[..d]).mounts| <= |Run(events).mounts|
    decreases |events|
  {
    if d < |events| {
      MountsGrow(events[..|events| - 1], d);
      assert events[..|events| - 1][..d] == events[..d];
    } else {
      assert events[..d] == events;
    }
  }

  lemma NoEarlierSubscription(events: seq<Event>, i: nat)
    requires events != [] && i >= |Run(events[..|events| - 1]).mounts|
    ensures !exists d :: SubscribedAt(events, i, d)
  {
    var most := events[..|events| - 1];
    forall d | 0 <= d < |events|
      ensures !SubscribedAt(events, i, d)
    {
      MountsGrow(most, d);
      assert most[..d] == events[..d];
    }
  }

  /** While a mount follows identities, a change of identity can reach it, disposes the host once
      more and takes the mount's activity; otherwise a change does nothing. */
  lemma IdentityChangeIff(events: seq<Event>, i: nat)
    requires i < |Run(events).mounts|
    ensures var s, t := Run(events), Run(events + [Act(i, IdentityChange)]);
            if exists d :: SubscribedAt(events, i, d)
            then t.disposals == s.disposals + 1 && !t.mounts[i].active && !t.mounts[i].subscribed
            else t == s
  {
    SubscribedIff(events, i);
    RunSnoc(events, Act(i, IdentityChange));
  }

  // ---------------------------------------------------------------- Exactly when the host is disposed

  /** The mounts that were cleaned up, no mount of their component having begun since. */
  function CleanedUp(events: seq<Event>): set<nat> {
    if events == [] then {} else
    var most, e := events[..|events| - 1], events[|events| - 1];
    var s := Run(most);
    if !Possible(s, e) then CleanedUp(most) else
    match e
    case Begin(component) => set i | i in CleanedUp(most) && !(i < |s.mounts| && s.mounts[i].component == component)
    case Act(i, CleanUp) => CleanedUp(most) + {i}
    case _ => CleanedUp(most)
  }

  /** A cleaned-up mount lets go of the host: its microtask runs with the host loaded, or its
      resume ends, no mount of its component having begun in between. */
  predicate LetsGo(s: State, cleaned: set<nat>, e: Event) {
    && e.Act? && Possible(s, e) && e.index in cleaned
    && ((e.action.RunMicrotask? && s.mounts[e.index].boot) || e.action.ResumeOk?)
  }

  predicate ChangesIdentity(s: State, e: Event) {
    e.Act? && e.action.IdentityChange? && Possible(s, e)
  }

  /** The resume of a component's newest mount fails. */
  predicate FailsToResume(s: State, e: Event) {
    e.Act? && e.action.ResumeFail? && Possible(s, e) && Current(s, s.mounts[e.index])
  }

  ghost predicate LetGoAt(events: seq<Event>, d: int) {
    0 <= d < |events| && LetsGo(Run(events[..d]), CleanedUp(events[..d]), events[d])
  }

  /** An identity change, or a failed resume of a newest mount. */
  ghost predicate BrokenAt(events: seq<Event>, d: int) {
    0 <= d < |events| && (ChangesIdentity(Run(events[..d]), events[d]) || FailsToResume(Run(events[..d]), events[d]))
  }

  ghost predicate EndsAt(events: seq<Event>, d: int) {
    LetGoAt(events, d) || BrokenAt(events, d)
  }

  ghost predicate Retired(s: State, i: nat) {
    i < |s.mounts| && !s.mounts[i].mounted && Current(s, s.mounts[i])
  }

  lemma RetiredStep(s: State, e: Event, i: nat)
    requires Inv(s) && Possible(s, e)
    ensures Retired(Step(s, e), i) <==>
              match e
              case Begin(component) => Retired(s, i) && s.mounts[i].component != component
              case Act(j, CleanUp) => Retired(s, i) || i == j
              case _ => Retired(s, i)
  {
    if i < |s.mounts| {
      assert MountFits(s, s.mounts[i]);
    }
  }

  /** The history agrees with the counters: cleaned up for good is what a current mount is that
      is no longer mounted. */
  lemma {:induction false} CleanedUpIsRetired(events: seq<Event>, i: nat)
    ensures i in CleanedUp(events) <==> Retired(Run(events), i)
    decreases |events|
  {
    if events != [] {
      var most, e := events[..|events| - 1], events[|events| - 1];
      CleanedUpIsRetired(most, i);
      RunKeeps(most);
      if Possible(Run(most), e) {
        RetiredStep(Run(most), e, i);
      }
    }
  }

  /** What one more event adds to the causes. */
  lemma EndsSnoc(most: seq<Event>, e: Event)
    ensures (exists d :: EndsAt(most + [e], d)) <==> (exists d :: EndsAt(most, d)) || EndsAt(most + [e], |most|)
  {
    var events := most + [e];
    forall d | 0 <= d < |most|
      ensures EndsAt(events, d) <==> EndsAt(most, d)
    {
      assert events[..d] == most[..d] && events[d] == most[d];
    }
    if d :| EndsAt(most, d) {
      assert EndsAt(events, d);
    }
    if d :| EndsAt(events, d) {
      assert 0 <= d < |events|;
    }
  }

  /** An event disposes a host that is still live exactly when it is one of the three. */
  lemma DisposesIffEnds(s: State, cleaned: set<nat>, e: Event)
    requires Inv(s) && s.disposals == 0 && (e.Act? ==> (e.index in cleaned <==> Retired(s, e.index)))
    ensures Step(s, e).disposals > 0 <==> LetsGo(s, cleaned, e) || ChangesIdentity(s, e) || FailsToResume(s, e)
  {
    if e.Act? && Possible(s, e) {
      var m := s.mounts[e.index];
      assert MountFits(s, m) && e.index < |s.mounts|;
      assert Retired(s, e.index) <==> !m.mounted && Current(s, m);
      assert Step(s, e).disposals == if Disposes(m, Current(s, m), e.action) then 1 else 0;
    }
  }

  /** The host has been disposed if and only if a cleaned-up mount let go of it with no remount
      of its component in between, or an identity changed, or a newest mount failed to resume:
      for any number of components, mounts and events. */
  lemma {:induction false} DisposedIff(events: seq<Event>)
    ensures Run(events).disposals > 0 <==> exists d :: EndsAt(events, d)
    decreases |events|
  {
    if events != [] {
      var most, e := events[..|events| - 1], events[|events| - 1];
      assert events == most + [e];
      DisposedIff(most);
      EndsSnoc(most, e);
      assert EndsAt(events, |most|) <==>
        LetsGo(Run(most), CleanedUp(most), e) || ChangesIdentity(Run(most), e) || FailsToResume(Run(most), e);
      if Run(most).disposals == 0 {
        RunKeeps(most);
        if e.Act? {
          CleanedUpIsRetired(most, e.index);
        }
        DisposesIffEnds(Run(most), CleanedUp(most), e);
      }
    }
  }

  ghost predicate Shows(s: State, i: nat) {
    i < |s.mounts| && s.mounts[i].mounted && s.mounts[i].active && s.mounts[i].boot && s.mounts[i].phase == Settled
  }

  ghost predicate ShowsLiveHost(events: seq<Event>, i: nat) {
    Shows(Run(events), i) && Run(events).disposals == 0
  }

  /** A mounted, settled effect shows a live host, however late it was mounted and whatever
      other components do, if and only if none of that has happened; without identity changes
      and failed resumes, if and only if no mount of any component has let go. */
  lemma ShownHostIsLiveIff(events: seq<Event>, i: nat)
    requires Shows(Run(events), i)
    ensures ShowsLiveHost(events, i) <==> forall d :: !EndsAt(events, d)
    ensures (forall d :: !BrokenAt(events, d)) ==> (ShowsLiveHost(events, i) <==> forall d :: !LetGoAt(events, d))
  {
    DisposedIff(events);
    SameWithoutBreaks(events);
  }

  lemma SameWithoutBreaks(events: seq<Event>)
    ensures (forall d :: !BrokenAt(events, d)) ==>
              ((forall d :: !EndsAt(events, d)) <==> forall d :: !LetGoAt(events, d))
  {
    assert forall d :: EndsAt(events, d) <==> LetGoAt(events, d) || BrokenAt(events, d);
  }

  // ---------------------------------------------------------------- One component, remounted at once

  /** One component only, nothing fails or changes identity, and whenever nothing is mounted
      the next thing to happen is a mount (as when development mode remounts at once). */
  predicate Calm(e: Event) {
    match e
    case Begin(component) => component == 0
    case LoadSettles(_) => true
    case Act(_, a) => !a.IdentityChange? && !a.ResumeFail?
  }

  ghost predicate PromptlyRemounted(events: seq<Event>) {
    forall i :: 0 <= i < |events| ==> Calm(events[i]) && (Idle(Run(events[..i]), 0) ==> events[i].Begin?)
  }

  lemma {:induction false} OnlyComponentZero(events: seq<Event>)
    requires forall e :: e in events ==> Calm(e)
    ensures forall m :: m in Run(events).mounts ==> m.component == 0
    decreases |events|
  {
    if events != [] {
      var most, e := events[..|events| - 1], events[|events| - 1];
      assert e in events;
      OnlyComponentZero(most);
      var s := Run(most);
      if e.Act? && Possible(s, e) {
        assert s.mounts[e.index] in s.mounts;
      }
    }
  }

  /** Then the host is never disposed: the guards let it survive every remount. */
  lemma {:induction false} SurvivesRemounts(events: seq<Event>)
    requires PromptlyRemounted(events)
    ensures Run(events).disposals == 0
    decreases |events|
  {
    if events != [] {
      var most, e := events[..|events| - 1], events[|events| - 1];
      assert events == most + [e];
      forall i | 0 <= i < |most|
        ensures Calm(most[i]) && (Idle(Run(most[..i]), 0) ==> most[i].Begin?)
      {
        assert most[..i] == events[..i] && most[i] == events[i];
      }
      SurvivesRemounts(most);
      assert Calm(events[|most|]);
      OnlyComponentZero(most);
      RunKeeps(most);
      CalmStep(Run(most), e);
    }
  }

  lemma CalmStep(s: State, e: Event)
    requires Inv(s) && s.disposals == 0 && (forall m :: m in s.mounts ==> m.component == 0)
    requires Calm(e) && (Idle(s, 0) ==> e.Begin?)
    ensures Step(s, e).disposals == 0
  {
    if e.Act? && Possible(s, e) {
      assert s.mounts[e.index] in s.mounts;
      CauseOf(s, e.index, e.action);
    }
  }

  lemma Follow(events: seq<Event>, s: State, e: Event) returns (more: seq<Event>, t: State)
    requires Run(events) == s
    ensures more == events + [e] && t == Step(s, e) && Run(more) == t
  {
    RunSnoc(events, e);
    more, t := events + [e], Step(s, e);
  }

  lemma ShowHost() returns (events: seq<Event>, s: State)
    ensures Run(events) == s
    ensures s == State(map[0 := 1], [Mount(0, 1, true, true, true, false, Settled, NotQueued)], Ready, 0)
    ensures forall e :: e in events ==> Calm(e)
  {
    events, s := [], State(map[], [], Pending, 0);
    events, s := Follow(events, s, Begin(0));
    events, s := Follow(events, s, LoadSettles(true));
    events, s := Follow(events, s, Act(0, LoadDone(false)));
    events, s := Follow(events, s, Act(0, ResumeOk));
  }

  /** Mounted again after its host was released, a component shows a host already disposed:
      the load is memoised. */
  lemma RemountAfterReleaseShowsADisposedHost()
    ensures exists events, i ::
              Run(events).disposals > 0 && (forall e :: e in events ==> Calm(e)) && Shows(Run(events), i)
  {
    var events, s := ShowHost();
    events, s := Follow(events, s, Act(0, CleanUp));
    events, s := Follow(events, s, Act(0, RunMicrotask));
    events, s := Follow(events, s, Begin(0));
    assert s == State(map[0 := 2], [Mount(0, 1, false, false, true, false, Settled, Ran),
                                    Mount(0, 2, true, true, false, false, Loading, NotQueued)], Ready, 1);
    events, s := Follow(events, s, Act(1, LoadDone(false)));
    events, s := Follow(events, s, Act(1, ResumeOk));
    assert Shows(Run(events), 1);
  }

  /** Two components that share a composition share its host, but not their counters: one's
      cleanup disposes the host that the other shows. */
  lemma TwoComponentsShareTheHost()
    ensures exists events: seq<Event>, i: nat, n: nat ::
              && Shows(Run(events), n) && n != i && Shows(Run(events + [Act(i, RunMicrotask)]), n)
              && Run(events).disposals == 0 && Run(events + [Act(i, RunMicrotask)]).disposals > 0
  {
    var events, s := ShowHost();
    var shown := Mount(0, 1, true, true, true, false, Settled, NotQueued);
    events, s := Follow(events, s, Begin(1));
    assert s.mounts == [shown, Mount(1, 1, true, true, false, false, Loading, NotQueued)] && s.load == Ready;
    assert s.generations == map[0 := 1, 1 := 1] && s.disposals == 0;
    events, s := Follow(events, s, Act(1, LoadDone(false)));
    assert s.mounts == [shown, Mount(1, 1, true, true, true, false, Resuming, NotQueued)] && s.disposals == 0;
    events, s := Follow(events, s, Act(1, CleanUp));
    assert s.mounts == [shown, Mount(1, 1, false, false, true, false, Resuming, Queued)] && s.disposals == 0;
    var more, t := Follow(events, s, Act(1, RunMicrotask));
    assert t.mounts[0] == shown && t.disposals == 1;
    assert Shows(Run(events), 0) && Shows(Run(more), 0);
  }

  // ---------------------------------------------------------------- The effect in place

  /** The memoised host and a component's counter: shared by the effects that close over them. */
  class Host {
    var disposals: nat

    constructor ()
      ensures disposals == 0
    {
      disposals := 0;
    }

    method Dispose()
      modifies this
      ensures disposals == old(disposals) + 1
    {
      disposals := disposals + 1;
    }
  }

  class Lifetime {
    var generation: nat

    constructor ()
      ensures generation == 0
    {
      generation := 0;
    }
  }

  function Bit(b: bool): nat {
    if b then 1 else 0
  }

  /** One run of the effect. Each callback does to its variables what `Next` says, and disposes
      the host exactly when `Disposes` says, reading the counter at that moment. */
  class MountedEffect {
    const component: nat
    const lifetime: Lifetime
    const host: Host
    const generation: nat
    var active: bool
    var boot: bool
    var subscribed: bool
    ghost var mounted: bool
    ghost var phase: Phase
    ghost var microtask: Microtask

    ghost function View(): Mount
      reads this
    {
      Mount(component, generation, mounted, active, boot, subscribed, phase, microtask)
    }

    predicate IsCurrent()
      reads lifetime
    {
      lifetime.generation == generation
    }

    constructor (component: nat, lifetime: Lifetime, host: Host)
      modifies lifetime
      ensures this.lifetime == lifetime && this.host == host
      ensures lifetime.generation == old(lifetime.generation) + 1
      ensures View() == Mount(component, lifetime.generation, true, true, false, false, Loading, NotQueued)
    {
      this.component, this.lifetime, this.host := component, lifetime, host;
      lifetime.generation := lifetime.generation + 1;
      generation := lifetime.generation;
      active, boot, subscribed := true, false, false;
      mounted, phase, microtask := true, Loading, NotQueued;
    }

    method Loaded(session: bool)
      modifies this
      ensures View() == Next(old(View()), LoadDone(session))
    {
      boot := true;
      if session && active {
        subscribed := true;
      } else {
        subscribed := false;
      }
      phase := Resuming;
    }

    method Resumed()
      modifies this, host
      ensures View() == Next(old(View()), ResumeOk)
      ensures host.disposals == old(host.disposals) + Bit(Disposes(old(View()), old(IsCurrent()), ResumeOk))
    {
      if !active && IsCurrent() {
        host.Dispose();
      }
      phase := Settled;
    }

    /** The catch block: the load or the resume failed. */
    method Failed(loading: bool)
      modifies this, host
      ensures View() == Next(old(View()), if loading then LoadFailed else ResumeFail)
      ensures host.disposals
              == old(host.disposals)
                 + Bit(Disposes(old(View()), old(IsCurrent()), if loading then LoadFailed else ResumeFail))
    {
      if IsCurrent() && boot {
        host.Dispose();
      }
      phase := GaveUp;
    }

    method CleanedUp()
      modifies this
      ensures View() == Next(old(View()), CleanUp)
    {
      active := false;
      subscribed := false;
      mounted, microtask := false, Queued;
    }

    method MicrotaskRuns()
      modifies this, host
      ensures View() == Next(old(View()), RunMicrotask)
      ensures host.disposals == old(host.disposals) + Bit(Disposes(old(View()), old(IsCurrent()), RunMicrotask))
    {
      if IsCurrent() && boot {
        host.Dispose();
      }
      microtask := Ran;
    }

    method IdentityChanged()
      modifies this, host
      ensures View() == Next(old(View()), IdentityChange) && host.disposals == old(host.disposals) + 1
    {
      host.Dispose();
      active := false;
      subscribed := false;
    }
  }
}
