/** The draft keys one form writes and clears, and the barrier that keeps a cleared draft
    from being written again before the next boot. */
module DraftBarrier {
  import opened Common
  import opened Text
  import opened MultiParty

  // ---------------------------------------------------------------- Draft keys

  datatype DraftKey = DraftKey(
    formUrl: string, formVersion: Option<string>, subjectRef: Option<string>, partyRef: Option<string>)

  /** The hash of form URL and version that scopes the shared progress draft. */
  type Scope = (string, Option<string>) -> string

  const PROGRESS_PARTY := "__formspec-multi-party-progress"

  function PartyKey(base: DraftKey, partyRef: string): DraftKey {
    if partyRef == "" then base else base.(partyRef := Some(partyRef))
  }

  function ProgressKey(base: DraftKey, scope: Scope): DraftKey {
    DraftKey(base.formUrl, base.formVersion,
             Some("formspec:multi-party:" + scope(base.formUrl, base.formVersion)), Some(PROGRESS_PARTY))
  }

  function SlotKeys(base: DraftKey, slots: seq<Slot>): (r: seq<DraftKey>)
    ensures |r| == |slots| && forall i :: 0 <= i < |r| ==> r[i] == PartyKey(base, slots[i].partyRef)
  {
    seq(|slots|, i requires 0 <= i < |slots| => PartyKey(base, slots[i].partyRef))
  }

  /** Every draft key of a form: its own, and with a multi-party policy the shared progress
      and one for each slot. */
  function FormKeys(base: DraftKey, slots: Option<seq<Slot>>, scope: Scope): seq<DraftKey> {
    match slots
    case None => [base]
    case Some(ss) => [base, ProgressKey(base, scope)] + SlotKeys(base, ss)
  }

  /** A party's draft belongs to that party: the keys of two parties agree only when the refs do,
      and they keep form, version and subject. */
  lemma PartyKeysDiffer(base: DraftKey, x: string, y: string)
    requires x != "" && y != ""
    ensures PartyKey(base, x) == PartyKey(base, y) <==> x == y
    ensures var k := PartyKey(base, x);
            k.partyRef == Some(x) && k.formUrl == base.formUrl && k.formVersion == base.formVersion
            && k.subjectRef == base.subjectRef
    ensures PartyKey(base, x) == base <==> base.partyRef == Some(x)
  {
    assert PartyKey(base, x).partyRef == Some(x) && PartyKey(base, y).partyRef == Some(y);
  }

  /** The shared progress is found by every subject and party of one form and version; it is a
      slot's key only for the reserved ref, seen by the subject that the form's scope spells. */
  lemma ProgressIsShared(base: DraftKey, other: DraftKey, scope: Scope, x: string)
    ensures base.formUrl == other.formUrl && base.formVersion == other.formVersion ==>
              ProgressKey(base, scope) == ProgressKey(other, scope)
    ensures ProgressKey(base, scope) == ProgressKey(other, scope) ==>
              base.formUrl == other.formUrl && base.formVersion == other.formVersion
    ensures x != "" ==>
              (ProgressKey(base, scope) == PartyKey(base, x) <==>
               x == PROGRESS_PARTY
               && base.subjectRef == Some("formspec:multi-party:" + scope(base.formUrl, base.formVersion)))
  {
  }

  /** For every policy the resolver accepts: no two slots share a draft key if and only if no
      single-slot role id spells a numbered slot of another role. */
  lemma SlotsHaveOwnDraftsIff(policy: Policy, base: DraftKey)
    requires Resolvable(policy)
    ensures (forall i, j :: 0 <= i < j < |Slots(policy.parties)| ==>
               SlotKeys(base, Slots(policy.parties))[i] != SlotKeys(base, Slots(policy.parties))[j])
            <==> NoShadow(policy.parties)
  {
    var slots := Slots(policy.parties);
    var keys, refs := SlotKeys(base, slots), Refs(slots);
    SlotsDistinctIff(policy);
    forall i, j | 0 <= i < j < |slots|
      ensures keys[i] == keys[j] <==> refs[i] == refs[j]
    {
      SlotRefsNonEmpty(policy, i);
      SlotRefsNonEmpty(policy, j);
      PartyKeysDiffer(base, refs[i], refs[j]);
    }
  }

  lemma SlotRefsNonEmpty(policy: Policy, n: nat)
    requires Resolvable(policy) && n < |Slots(policy.parties)|
    ensures Slots(policy.parties)[n].partyRef != ""
  {
    var i, k := SlotOf(policy.parties, n);
    assert PartyFits(policy.parties[i]);
  }

  const NUL := '\U{0000}'

  function OrEmpty(o: Option<string>): string {
    match o
    case None => ""
    case Some(s) => s
  }

  function Fingerprint(k: DraftKey): string {
    OrEmpty(k.subjectRef) + [NUL] + (OrEmpty(k.partyRef) + [NUL] + (k.formUrl + [NUL] + OrEmpty(k.formVersion)))
  }

  predicate NulFree(k: DraftKey) {
    NUL !in OrEmpty(k.subjectRef) && NUL !in OrEmpty(k.partyRef) && NUL !in k.formUrl && NUL !in OrEmpty(k.formVersion)
  }

  /** NUL-free keys share a fingerprint only when they agree up to absent against empty parts. */
  lemma FingerprintInjective(j: DraftKey, k: DraftKey)
    requires NulFree(j) && NulFree(k)
    ensures Fingerprint(j) == Fingerprint(k) <==>
              OrEmpty(j.subjectRef) == OrEmpty(k.subjectRef) && OrEmpty(j.partyRef) == OrEmpty(k.partyRef)
              && j.formUrl == k.formUrl && OrEmpty(j.formVersion) == OrEmpty(k.formVersion)
  {
    if Fingerprint(j) == Fingerprint(k) {
      SameCut(NUL, OrEmpty(j.subjectRef), OrEmpty(j.partyRef) + [NUL] + (j.formUrl + [NUL] + OrEmpty(j.formVersion)),
               OrEmpty(k.subjectRef), OrEmpty(k.partyRef) + [NUL] + (k.formUrl + [NUL] + OrEmpty(k.formVersion)));
      SameCut(NUL, OrEmpty(j.partyRef), j.formUrl + [NUL] + OrEmpty(j.formVersion),
               OrEmpty(k.partyRef), k.formUrl + [NUL] + OrEmpty(k.formVersion));
      SameCut(NUL, j.formUrl, OrEmpty(j.formVersion), k.formUrl, OrEmpty(k.formVersion));
    }
  }

  type Mark = DraftKey -> string

  ghost predicate Represented(k: DraftKey, result: seq<DraftKey>, mark: Mark) {
    exists r :: r in result && mark(r) == mark(k)
  }

  /** Only listed keys, every fingerprint once. */
  ghost predicate Deduped(keys: seq<DraftKey>, result: seq<DraftKey>, mark: Mark) {
    && (forall r :: r in result ==> r in keys)
    && (forall k :: k in keys ==> Represented(k, result, mark))
    && (forall i, j :: 0 <= i < j < |result| ==> mark(result[i]) != mark(result[j]))
  }

  lemma DedupedSnoc(keys: seq<DraftKey>, result: seq<DraftKey>, mark: Mark, k: DraftKey)
    requires Deduped(keys, result, mark)
    ensures Deduped(keys + [k], if Represented(k, result, mark) then result else result + [k], mark)
  {
    if !Represented(k, result, mark) {
      forall j | j in keys + [k]
        ensures Represented(j, result + [k], mark)
      {
        if j in keys {
          var r :| r in result && mark(r) == mark(j);
          assert r in result + [k];
        } else {
          assert k in result + [k];
        }
      }
    }
  }

  ghost predicate Marks(seen: set<string>, result: seq<DraftKey>, mark: Mark) {
    && (forall r :: r in result ==> mark(r) in seen)
    && (forall f :: f in seen ==> exists r :: r in result && mark(r) == f)
  }

  lemma MarksSnoc(seen: set<string>, result: seq<DraftKey>, mark: Mark, k: DraftKey)
    requires Marks(seen, result, mark)
    ensures Marks(seen + {mark(k)}, result + [k], mark)
  {
    forall f | f in seen + {mark(k)}
      ensures exists r :: r in result + [k] && mark(r) == f
    {
      if f in seen {
        var r :| r in result && mark(r) == f;
        assert r in result + [k];
      } else {
        assert k in result + [k];
      }
    }
  }

  lemma DedupeNext(keys: seq<DraftKey>, seen: set<string>, result: seq<DraftKey>, mark: Mark, k: DraftKey)
    requires Marks(seen, result, mark) && Deduped(keys, result, mark)
    ensures mark(k) in seen ==> Deduped(keys + [k], result, mark)
    ensures mark(k) !in seen ==> Deduped(keys + [k], result + [k], mark) && Marks(seen + {mark(k)}, result + [k], mark)
  {
    DedupedSnoc(keys, result, mark, k);
    MarksSnoc(seen, result, mark, k);
  }

  /** `dedupeDraftKeys`: drop a key whose fingerprint was seen before. */
  method DedupeDraftKeys(keys: seq<DraftKey>, mark: Mark) returns (result: seq<DraftKey>)
    ensures Deduped(keys, result, mark)
    ensures keys != [] ==> result != [] && result[0] == keys[0]
  {
    var seen: set<string> := {};
    result := [];
    for i := 0 to |keys|
      invariant Marks(seen, result, mark)
      invariant Deduped(keys[..i], result, mark)
      invariant i > 0 ==> result != [] && result[0] == keys[0]
    {
      assert keys[..i + 1] == keys[..i] + [keys[i]];
      DedupeNext(keys[..i], seen, result, mark, keys[i]);
      if mark(keys[i]) !in seen {
        seen := seen + {mark(keys[i])};
        result := result + [keys[i]];
      }
    }
    assert keys[..|keys|] == keys;
  }

  /** `publicTerminalDraftKeysToClear`. */
  method DraftKeysToClear(base: DraftKey, slots: Option<seq<Slot>>, scope: Scope) returns (result: seq<DraftKey>)
    ensures Deduped(FormKeys(base, slots, scope), result, Fingerprint)
    ensures result != [] && result[0] == base
  {
    var keys := [base];
    if slots.Some? {
      keys := keys + [ProgressKey(base, scope)];
      for i := 0 to |slots.value|
        invariant keys == [base, ProgressKey(base, scope)] + SlotKeys(base, slots.value)[..i]
      {
        keys := keys + [PartyKey(base, slots.value[i].partyRef)];
      }
    }
    assert keys == FormKeys(base, slots, scope);
    result := DedupeDraftKeys(keys, Fingerprint);
  }

  /** Among the NUL-free keys of one form, equal fingerprints mean equal keys: dropping
      duplicates drops no distinct key, so the list to clear holds every key of the form. */
  lemma EveryFormKeyIsCleared(base: DraftKey, slots: Option<seq<Slot>>, scope: Scope, result: seq<DraftKey>,
                              key: DraftKey)
    requires forall k :: k in FormKeys(base, slots, scope) ==> NulFree(k)
    requires slots.Some? ==> forall s :: s in slots.value ==> s.partyRef != ""
    requires Deduped(FormKeys(base, slots, scope), result, Fingerprint)
    requires key in FormKeys(base, slots, scope)
    ensures key in result
  {
    assert Represented(key, result, Fingerprint);
    var r :| r in result && Fingerprint(r) == Fingerprint(key);
    assert r in FormKeys(base, slots, scope);
    FingerprintInjective(r, key);
    FormKeyShape(base, slots, scope, r);
    FormKeyShape(base, slots, scope, key);
    SameFormKey(base, scope, r, key);
  }

  predicate FormShape(base: DraftKey, scope: Scope, k: DraftKey) {
    && k.formUrl == base.formUrl && k.formVersion == base.formVersion
    && (k == base || k == ProgressKey(base, scope)
        || (k.subjectRef == base.subjectRef && k.partyRef.Some? && k.partyRef.value != ""))
  }

  lemma SameFormKey(base: DraftKey, scope: Scope, j: DraftKey, k: DraftKey)
    requires FormShape(base, scope, j) && FormShape(base, scope, k)
    requires OrEmpty(j.subjectRef) == OrEmpty(k.subjectRef) && OrEmpty(j.partyRef) == OrEmpty(k.partyRef)
    ensures j == k
  {
    assert "formspec:multi-party:" + scope(base.formUrl, base.formVersion) != "";
  }

  lemma FormKeyShape(base: DraftKey, slots: Option<seq<Slot>>, scope: Scope, k: DraftKey)
    requires k in FormKeys(base, slots, scope)
    requires slots.Some? ==> forall s :: s in slots.value ==> s.partyRef != ""
    ensures FormShape(base, scope, k)
  {
    if k != base && k != ProgressKey(base, scope) {
      var i :| 0 <= i < |slots.value| && SlotKeys(base, slots.value)[i] == k;
      assert slots.value[i] in slots.value;
    }
  }

  /** The keys that language saves and submits write: the form's own or the active party's
      slice, and the shared progress. */
  lemma EveryWriteIsAFormKey(base: DraftKey, slots: seq<Slot>, scope: Scope, active: string)
    requires active in Refs(slots)
    ensures PartyKey(base, active) in FormKeys(base, Some(slots), scope)
    ensures ProgressKey(base, scope) in FormKeys(base, Some(slots), scope)
    ensures base in FormKeys(base, None, scope) && base in FormKeys(base, Some(slots), scope)
  {
    assert FormKeys(base, Some(slots), scope)[0] == base;
    var i :| 0 <= i < |slots| && Refs(slots)[i] == active;
    assert SlotKeys(base, slots)[i] == PartyKey(base, active);
    assert FormKeys(base, Some(slots), scope)[i + 2] == PartyKey(base, active);
    assert FormKeys(base, Some(slots), scope)[1] == ProgressKey(base, scope);
  }

  // ---------------------------------------------------------------- The write barrier

  /** `submitState.status`, as far as the handlers tell it apart. */
  datatype Status =
    | Idle | Submitting | Authorizing | Invalid | Errored | PaymentVoided | CaptureFailed | Queued | AwaitingNextParty
    | Confirmed

  /** `submissionLocksLocale`. */
  predicate Locks(status: Status) {
    !status.Idle? && !status.Invalid? && !status.Errored? && !status.PaymentVoided?
  }

  /** The statuses in which `handleSubmit` refuses. */
  predicate Refuses(status: Status) {
    status.Submitting? || status.Authorizing? || status.Confirmed? || status.Queued? || status.AwaitingNextParty?
  }

  /** Where Start-current or Clear stands: draining the language saves, deleting, finishing
      (listing and revoking, Clear only) and done, until the next boot. */
  datatype Phase = Open | Draining(target: set<DraftKey>) | Deleting(todo: set<DraftKey>) | Finishing | Ended

  datatype State = State(
    saves: seq<DraftKey>,          // the language saves chained and not yet finished
    status: Status, inProgress: bool,
    running: seq<nat>,             // submits at work, each with the number of saves it still waits for
    requested: bool, clearing: bool, phase: Phase,
    strays: multiset<DraftKey>,    // deletes still under way for a request that no longer stands
    orphans: multiset<bool>,       // handlers whose refusal a boot lifted at work; true for Clear
    stored: set<DraftKey>,
    written: set<DraftKey>,        // history: what was written
    goal: set<DraftKey>,           // history: what the standing request set out to delete
    deleted: set<DraftKey>,        // history: what it has deleted
    clean: bool)                   // history: no submit was running when it was made

  datatype Event =
    | ChangeLanguage(key: DraftKey)
    | SaveFinishes(ok: bool)
    | StartSubmit
    | SubmitAuthorizes(index: nat)
    | SubmitWrites(index: nat, key: DraftKey)
    | EndSubmit(index: nat, outcome: Status)
    | ReplayEnds(sent: bool)
    | StartCurrent(key: DraftKey, recovering: bool)
    | Clear(target: set<DraftKey>)
    | QueueDrained
    | DeleteFinishes(key: DraftKey, ok: bool)
    | StrayFinishes(key: DraftKey, ok: bool)
    | FinishEnd(ok: bool)
    | OrphanEnds(cleared: bool, ok: bool)
    | Reload
    | Boot

  function Write(s: State, key: DraftKey): State {
    s.(stored := s.stored + {key}, written := s.written + {key})
  }

  function Waited(running: seq<nat>): (r: seq<nat>)
    ensures |r| == |running|
    ensures forall i :: 0 <= i < |r| ==> r[i] == if running[i] == 0 then 0 else running[i] - 1
  {
    if running == [] then [] else [if running[0] == 0 then 0 else running[0] - 1] + Waited(running[1..])
  }

  /** A submit that has waited for its saves. */
  predicate AtWork(s: State, index: nat) {
    index < |s.running| && s.running[index] == 0
  }

  /** The refusal of writes is lifted; deletes already under way go on. */
  function Lift(s: State, rest: set<DraftKey>): State {
    s.(requested := false, phase := Open, strays := s.strays + multiset(rest), deleted := {}, clean := false)
  }

  function Remaining(phase: Phase): set<DraftKey> {
    match phase
    case Draining(target) => target
    case Deleting(todo) => todo
    case _ => {}
  }

  /** Any refusal is lifted, whatever a handler at work still has to do. */
  function LiftAny(s: State): State {
    var working := s.phase.Draining? || s.phase.Deleting? || s.phase.Finishing?;
    Lift(s, Remaining(s.phase)).(orphans := s.orphans + if working then multiset{s.clearing} else multiset{})
  }

  function OrphanStep(s: State, cleared: bool, ok: bool): State {
    if cleared !in s.orphans then s else
    var s1 := s.(orphans := s.orphans - multiset{cleared});
    if !ok then LiftAny(s1) else if cleared then s1.(status := Idle) else s1
  }

  predicate Accepts(s: State, e: Event) {
    match e
    case StartCurrent(_, recovering) => !s.requested && !s.inProgress && (recovering || !Locks(s.status))
    case Clear(_) => !s.requested && s.status == Confirmed
    case _ => false
  }

  function Request(s: State, clearing: bool, target: set<DraftKey>): State {
    s.(requested := true, clearing := clearing, phase := Draining(target), goal := target, deleted := {},
       clean := s.running == [])
  }

  function DeleteStep(s: State, key: DraftKey, ok: bool): State {
    if !s.phase.Deleting? || key !in s.phase.todo then s else
    var rest := s.phase.todo - {key};
    if !ok then Lift(s, rest) else
    s.(stored := s.stored - {key}, deleted := s.deleted + {key}, phase := After(rest, s.clearing))
  }

  /** With nothing left to delete, Clear goes on to list and revoke; Start-current is done. */
  function After(rest: set<DraftKey>, clearing: bool): Phase {
    if rest != {} then Deleting(rest) else if clearing then Finishing else Ended
  }

  function Step(s: State, e: Event): State {
    match e
    case ChangeLanguage(key) =>
      if s.inProgress || Locks(s.status) || s.requested then s else s.(saves := s.saves + [key])
    case SaveFinishes(ok) =>
      if s.saves == [] then s else
      var s1 := s.(saves := s.saves[1..], running := Waited(s.running));
      if ok then Write(s1, s.saves[0]) else s1
    case StartSubmit =>
      if s.requested || Refuses(s.status) then s
      else s.(status := Submitting, inProgress := true, running := s.running + [|s.saves|])
    case SubmitAuthorizes(i) => if AtWork(s, i) then s.(status := Authorizing) else s
    case SubmitWrites(i, key) => if AtWork(s, i) then Write(s, key) else s
    case EndSubmit(i, outcome) =>
      if !AtWork(s, i) || outcome.Idle? || outcome.Submitting? || outcome.Authorizing? then s
      else s.(status := outcome, inProgress := false, running := s.running[..i] + s.running[i + 1..])
    case ReplayEnds(sent) => if s.status.Queued? then s.(status := if sent then Confirmed else Errored) else s
    case StartCurrent(key, _) => if Accepts(s, e) then Request(s, false, {key}) else s
    case Clear(target) => if Accepts(s, e) then Request(s, true, target) else s
    case QueueDrained =>
      if s.phase.Draining? && s.saves == [] then s.(phase := After(s.phase.target, s.clearing)) else s
    case DeleteFinishes(key, ok) => DeleteStep(s, key, ok)
    case StrayFinishes(key, ok) =>
      if key !in s.strays then s else
      s.(strays := s.strays - multiset{key}, stored := if ok then s.stored - {key} else s.stored)
    case FinishEnd(ok) =>
      if !s.phase.Finishing? then s else if ok then s.(phase := Ended, status := Idle) else Lift(s, {})
    case OrphanEnds(cleared, ok) => OrphanStep(s, cleared, ok)
    case Reload => s.(status := Idle)
    case Boot => LiftAny(s).(status := Idle)
  }

  function Run(s: State, events: seq<Event>): State {
    if events == [] then s else Step(Run(s, events[..|events| - 1]), events[|events| - 1])
  }

  function Initial(stored: set<DraftKey>): State {
    State([], Idle, false, [], false, false, Open, multiset{}, multiset{}, stored, {}, {}, {}, false)
  }

  predicate Behind(phase: Phase) {
    phase.Deleting? || phase.Finishing? || phase.Ended?
  }

  /** The request is not lifted at any point of the run. */
  predicate Stands(s: State, events: seq<Event>) {
    Run(s, events).requested && (events == [] || Stands(s, events[..|events| - 1]))
  }

  /** Only these keys are written (see `Concrete` for what the form's handlers write). */
  predicate Writes(e: Event, keys: set<DraftKey>) {
    && (e.ChangeLanguage? ==> e.key in keys)
    && (e.SubmitWrites? ==> e.key in keys)
  }

  ghost predicate Inv(s: State, keys: set<DraftKey>) {
    && (s.requested <==> s.phase != Open)
    && (s.clean ==> s.requested && s.running == [])
    && (Behind(s.phase) ==> s.saves == [])
    && (Behind(s.phase) && s.clean ==> s.deleted !! s.stored)
    && (s.phase.Draining? ==> s.goal == s.phase.target && s.deleted == {})
    && (s.phase.Deleting? ==> s.goal == s.phase.todo + s.deleted)
    && (s.phase.Finishing? || s.phase.Ended? ==> s.goal == s.deleted)
    && s.written <= keys && forall k :: k in s.saves ==> k in keys
  }

  /** No submit waits for more saves than there are. */
  ghost predicate WaitsFit(s: State) {
    forall i :: 0 <= i < |s.running| ==> s.running[i] <= |s.saves|
  }

  lemma StepKeeps(s: State, e: Event, keys: set<DraftKey>)
    requires Inv(s, keys) && Writes(e, keys)
    ensures Inv(Step(s, e), keys)
  {
    if IsSubmits(e) {
      SubmitKeeps(s, e, keys);
    } else if e.Boot? || e.OrphanEnds? || e.DeleteFinishes? || e.SaveFinishes? {
      EndingKeeps(s, e, keys);
    } else {
      RequestKeeps(s, e, keys);
    }
  }

  lemma EndingKeeps(s: State, e: Event, keys: set<DraftKey>)
    requires Inv(s, keys) && (e.Boot? || e.OrphanEnds? || e.DeleteFinishes? || e.SaveFinishes?)
    ensures Inv(Step(s, e), keys)
  {
    match e
    case Boot => LiftKeeps(s, keys);
    case OrphanEnds(cleared, ok) => LiftKeeps(s.(orphans := s.orphans - multiset{cleared}), keys);
    case DeleteFinishes(key, ok) => DeleteKeeps(s, key, ok, keys);
    case SaveFinishes(ok) => SaveKeeps(s, ok, keys);
  }

  predicate IsSubmits(e: Event) {
    e.StartSubmit? || e.SubmitAuthorizes? || e.SubmitWrites? || e.EndSubmit? || e.ReplayEnds? || e.Reload?
  }

  lemma SubmitKeeps(s: State, e: Event, keys: set<DraftKey>)
    requires Inv(s, keys) && Writes(e, keys) && IsSubmits(e)
    ensures Inv(Step(s, e), keys)
  {
  }

  lemma RequestKeeps(s: State, e: Event, keys: set<DraftKey>)
    requires Inv(s, keys) && Writes(e, keys) && !IsSubmits(e)
    requires !e.Boot? && !e.OrphanEnds? && !e.DeleteFinishes? && !e.SaveFinishes?
    ensures Inv(Step(s, e), keys)
  {
  }

  lemma LiftKeeps(s: State, keys: set<DraftKey>)
    requires Inv(s, keys)
    ensures Inv(LiftAny(s), keys)
  {
  }

  lemma DeleteKeeps(s: State, key: DraftKey, ok: bool, keys: set<DraftKey>)
    requires Inv(s, keys)
    ensures Inv(DeleteStep(s, key, ok), keys)
  {
  }

  lemma SaveKeeps(s: State, ok: bool, keys: set<DraftKey>)
    requires Inv(s, keys)
    ensures Inv(Step(s, SaveFinishes(ok)), keys)
  {
  }

  lemma WaitsKept(s: State, e: Event)
    requires WaitsFit(s)
    ensures WaitsFit(Step(s, e))
  {
    match e
    case SaveFinishes(_) =>
    case EndSubmit(i, outcome) => EndKeepsWaits(s, i, outcome);
    case _ =>
  }

  lemma EndKeepsWaits(s: State, index: nat, outcome: Status)
    requires WaitsFit(s)
    ensures WaitsFit(Step(s, EndSubmit(index, outcome)))
  {
  }

  lemma {:induction false} RunFrom(s: State, events: seq<Event>, keys: set<DraftKey>)
    requires Inv(s, keys) && forall e :: e in events ==> Writes(e, keys)
    ensures Inv(Run(s, events), keys)
    decreases |events|
  {
    if events != [] {
      RunFrom(s, events[..|events| - 1], keys);
      StepKeeps(Run(s, events[..|events| - 1]), events[|events| - 1], keys);
    }
  }

  lemma RunKeeps(stored: set<DraftKey>, events: seq<Event>, keys: set<DraftKey>)
    requires forall e :: e in events ==> Writes(e, keys)
    ensures Inv(Run(Initial(stored), events), keys)
  {
    RunFrom(Initial(stored), events, keys);
  }

  lemma {:induction false} RunWaits(stored: set<DraftKey>, events: seq<Event>)
    ensures WaitsFit(Run(Initial(stored), events))
    decreases |events|
  {
    if events != [] {
      RunWaits(stored, events[..|events| - 1]);
      WaitsKept(Run(Initial(stored), events[..|events| - 1]), events[|events| - 1]);
    }
  }

  /** A standing request keeps its goal and how it was made; once it deletes it goes on to the
      end, and if no submit was running nothing is written from then on. */
  lemma StandingStep(s: State, e: Event, keys: set<DraftKey>)
    requires Inv(s, keys) && s.requested && Step(s, e).requested && Writes(e, keys)
    ensures Continues(s, Step(s, e))
  {
    match e
    case DeleteFinishes(key, ok) => StandingDelete(s, key, ok, keys);
    case OrphanEnds(cleared, ok) => StandingOrphan(s, cleared, ok);
    case _ => if IsSubmits(e) { StandingSubmit(s, e, keys); } else { StandingOther(s, e); }
  }

  ghost predicate Continues(s: State, t: State) {
    && t.goal == s.goal && t.clean == s.clean
    && (Behind(s.phase) ==> Behind(t.phase))
    && (Behind(s.phase) && s.clean ==> t.stored <= s.stored && t.written == s.written)
  }

  lemma StandingDelete(s: State, key: DraftKey, ok: bool, keys: set<DraftKey>)
    requires Inv(s, keys) && DeleteStep(s, key, ok).requested
    ensures Continues(s, DeleteStep(s, key, ok))
  {
  }

  lemma StandingOrphan(s: State, cleared: bool, ok: bool)
    requires OrphanStep(s, cleared, ok).requested
    ensures Continues(s, OrphanStep(s, cleared, ok))
  {
  }

  lemma StandingSubmit(s: State, e: Event, keys: set<DraftKey>)
    requires Inv(s, keys) && s.requested && IsSubmits(e)
    ensures Continues(s, Step(s, e))
  {
  }

  lemma StandingOther(s: State, e: Event)
    requires (Behind(s.phase) ==> s.saves == []) && s.requested && Step(s, e).requested
    requires !IsSubmits(e) && !e.DeleteFinishes? && !e.OrphanEnds?
    ensures Continues(s, Step(s, e))
  {
    match e
    case SaveFinishes(ok) => StandingSave(s, ok);
    case StrayFinishes(key, ok) => StandingStray(s, key, ok);
    case QueueDrained => StandingQueue(s);
    case StartCurrent(_, _) => assert Step(s, e) == s;
    case Clear(_) => assert Step(s, e) == s;
    case Boot => assert false;
    case _ => StandingSimple(s, e);
  }

  lemma StandingSave(s: State, ok: bool)
    requires Behind(s.phase) ==> s.saves == []
    ensures Continues(s, Step(s, SaveFinishes(ok)))
  {
  }

  lemma StandingStray(s: State, key: DraftKey, ok: bool)
    ensures Continues(s, Step(s, StrayFinishes(key, ok)))
  {
  }

  lemma StandingQueue(s: State)
    ensures Continues(s, Step(s, QueueDrained))
  {
  }

  lemma StandingSimple(s: State, e: Event)
    requires s.requested && Step(s, e).requested && (e.ChangeLanguage? || e.FinishEnd?)
    ensures Continues(s, Step(s, e))
  {
  }

  lemma {:induction false} StandingRun(s: State, after: seq<Event>, keys: set<DraftKey>)
    requires Inv(s, keys) && Stands(s, after) && forall e :: e in after ==> Writes(e, keys)
    ensures var t := Run(s, after);
            Inv(t, keys) && s.requested && Continues(s, t)
    decreases |after|
  {
    if after != [] {
      var most, last := after[..|after| - 1], after[|after| - 1];
      StandingRun(s, most, keys);
      RunFrom(s, most, keys);
      StandingHolds(s, most);
      StepKeeps(Run(s, most), last, keys);
      StandingStep(Run(s, most), last, keys);
    }
  }

  lemma StandingHolds(s: State, events: seq<Event>)
    requires Stands(s, events)
    ensures Run(s, events).requested
  {
  }

  /** When a deletion requested without a running submit is under way or done, every earlier
      language save has finished, and while the request stands nothing is written: no draft is
      added to the store, and nothing deleted comes back. */
  lemma NothingIsRecreated(stored: set<DraftKey>, events: seq<Event>, after: seq<Event>, keys: set<DraftKey>)
    requires forall e :: e in events + after ==> Writes(e, keys)
    requires var s := Run(Initial(stored), events);
             Behind(s.phase) && s.clean && Stands(s, after)
    ensures var s, s' := Run(Initial(stored), events), Run(Run(Initial(stored), events), after);
            && s.saves == [] && s'.saves == []
            && s'.stored <= s.stored && s'.written == s.written && s'.deleted !! s'.stored
  {
    assert forall e :: e in events ==> e in events + after;
    RunKeeps(stored, events, keys);
    assert forall e :: e in after ==> e in events + after;
    StandingRun(Run(Initial(stored), events), after, keys);
  }

  // ---------------------------------------------------------------- When an ending is safe

  function Target(request: Event): set<DraftKey> {
    match request
    case StartCurrent(key, _) => {key}
    case Clear(target) => target
    case _ => {}
  }

  /** Whatever happens while the request stands, nothing it deleted is in the store. */
  ghost predicate IsSafe(s: State, request: Event, keys: set<DraftKey>) {
    forall after :: (forall e :: e in after ==> Writes(e, keys)) && Stands(Step(s, request), after) ==>
      Run(Step(s, request), after).deleted !! Run(Step(s, request), after).stored
  }

  /** An accepted Start-current or Clear is safe if and only if no submit is running when it is
      requested; neither guard looks at the submits that are running. */
  lemma EndingIsSafeIff(s: State, request: Event, keys: set<DraftKey>, key: DraftKey)
    requires Inv(s, keys) && WaitsFit(s) && Accepts(s, request) && key in Target(request) && key in keys
    ensures IsSafe(s, request, keys) <==> s.running == []
  {
    var s1 := Step(s, request);
    StepKeeps(s, request, keys);
    if s.running == [] {
      forall after | (forall e :: e in after ==> Writes(e, keys)) && Stands(s1, after)
        ensures Run(s1, after).deleted !! Run(s1, after).stored
      {
        StandingRun(s1, after, keys);
        StandingHolds(s1, after);
      }
    } else {
      var after := SubmitRecreates(s, request, key);
      assert key in Run(s1, after).deleted && key in Run(s1, after).stored;
      assert forall e :: e in after ==> Writes(e, keys);
    }
  }

  function WaitedFor(running: seq<nat>, n: nat): (r: seq<nat>)
    ensures |r| == |running|
    ensures forall i :: 0 <= i < |r| ==> r[i] == if running[i] <= n then 0 else running[i] - n
  {
    if n == 0 then running else Waited(WaitedFor(running, n - 1))
  }

  function Drains(n: nat): seq<Event> {
    if n == 0 then [] else Drains(n - 1) + [SaveFinishes(false)]
  }

  lemma {:induction false} Drained(s: State, n: nat)
    requires n <= |s.saves| && s.requested
    ensures Run(s, Drains(n)) == s.(saves := s.saves[n..], running := WaitedFor(s.running, n)) && Stands(s, Drains(n))
  {
    if n > 0 {
      Drained(s, n - 1);
      assert Drains(n)[..|Drains(n)| - 1] == Drains(n - 1);
      assert s.saves[n - 1..][1..] == s.saves[n..];
    }
  }

  lemma Follow(s: State, events: seq<Event>, t: State, e: Event) returns (more: seq<Event>)
    requires Run(s, events) == t && Stands(s, events) && Step(t, e).requested
    ensures Run(s, more) == Step(t, e) && Stands(s, more) && forall x :: x in more ==> x in events || x == e
  {
    more := events + [e];
    assert more[..|events|] == events;
  }

  lemma {:induction false} DrainOnly(n: nat, e: Event)
    requires e in Drains(n)
    ensures e == SaveFinishes(false)
  {
    if n > 0 && e in Drains(n - 1) {
      DrainOnly(n - 1, e);
    }
  }

  predicate Rewrites(e: Event, key: DraftKey) {
    e == SaveFinishes(false) || e == QueueDrained || e == DeleteFinishes(key, true) || e == SubmitWrites(0, key)
  }

  lemma DeleteThenRewrite(s: State, key: DraftKey)
    requires s.requested && AtWork(s, 0) && s.phase.Deleting? && key in s.phase.todo
    ensures var t := Step(s, DeleteFinishes(key, true));
            var u := Step(t, SubmitWrites(0, key));
            t.requested && u.requested && key in u.deleted && key in u.stored
  {
  }

  /** Once the saves have drained, the deletes begin and the first submit has waited enough. */
  lemma StartsDeleting(s: State, request: Event, key: DraftKey)
    requires WaitsFit(s) && Accepts(s, request) && s.running != [] && key in Target(request)
    ensures var s1 := Step(s, request);
            var s2 := s1.(saves := [], running := WaitedFor(s1.running, |s1.saves|));
            var t := Step(s2, QueueDrained);
            s1.saves == s.saves && t.requested && AtWork(t, 0) && t.phase == Deleting(Target(request))
  {
  }

  /** The failing run: the saves drain, the key is deleted, and the submit writes it again. */
  lemma SubmitRecreates(s: State, request: Event, key: DraftKey) returns (after: seq<Event>)
    requires WaitsFit(s) && Accepts(s, request) && s.running != [] && key in Target(request)
    ensures forall e :: e in after ==> Rewrites(e, key)
    ensures var s1 := Step(s, request);
            Stands(s1, after) && key in Run(s1, after).deleted && key in Run(s1, after).stored
  {
    var s1 := Step(s, request);
    StartsDeleting(s, request, key);
    var drains := DrainAll(s1, key);
    var s2 := s1.(saves := [], running := WaitedFor(s1.running, |s1.saves|));
    var s3 := Step(s2, QueueDrained);
    DeleteThenRewrite(s3, key);
    var b := Follow(s1, drains, s2, QueueDrained);
    var c := Follow(s1, b, s3, DeleteFinishes(key, true));
    after := Follow(s1, c, Step(s3, DeleteFinishes(key, true)), SubmitWrites(0, key));
  }

  lemma DrainAll(s: State, key: DraftKey) returns (drains: seq<Event>)
    requires s.requested
    ensures Run(s, drains) == s.(saves := [], running := WaitedFor(s.running, |s.saves|)) && Stands(s, drains)
    ensures forall e :: e in drains ==> Rewrites(e, key)
  {
    drains := Drains(|s.saves|);
    Drained(s, |s.saves|);
    assert s.saves[|s.saves|..] == [];
    forall e | e in drains
      ensures Rewrites(e, key)
    {
      DrainOnly(|s.saves|, e);
    }
  }

  // ---------------------------------------------------------------- When a submit can be running

  /** What resets `submitState` although a submit may be running: a boot, a reload, and the end
      of a Clear whose refusal a boot had lifted. */
  predicate Resets(e: Event) {
    e.Boot? || e.Reload? || (e.OrphanEnds? && e.cleared && e.ok)
  }

  /** None of these came while a submit was running. */
  predicate Undisturbed(stored: set<DraftKey>, events: seq<Event>) {
    events == []
    || (Undisturbed(stored, events[..|events| - 1])
        && (Resets(events[|events| - 1]) ==> Run(Initial(stored), events[..|events| - 1]).running == []))
  }

  /** One submit at a time, told by the ref and by the status; none while a request stands. */
  ghost predicate OneAtATime(s: State) {
    && |s.running| <= 1
    && (s.inProgress <==> s.running != [])
    && (s.running != [] ==> (s.status.Submitting? || s.status.Authorizing?) && !s.requested)
    && (s.requested <==> s.phase != Open)
  }

  lemma OneAtATimeKept(s: State, e: Event)
    requires OneAtATime(s) && (Resets(e) ==> s.running == [])
    ensures OneAtATime(Step(s, e))
  {
    if IsSubmits(e) {
      OneSubmitKept(s, e);
    } else {
      OneRequestKept(s, e);
    }
  }

  lemma OneSubmitKept(s: State, e: Event)
    requires OneAtATime(s) && (Resets(e) ==> s.running == []) && IsSubmits(e)
    ensures OneAtATime(Step(s, e))
  {
  }

  lemma OneRequestKept(s: State, e: Event)
    requires OneAtATime(s) && (Resets(e) ==> s.running == []) && !IsSubmits(e)
    ensures OneAtATime(Step(s, e))
  {
  }

  lemma {:induction false} UndisturbedIsOneAtATime(stored: set<DraftKey>, events: seq<Event>)
    requires Undisturbed(stored, events)
    ensures OneAtATime(Run(Initial(stored), events))
    decreases |events|
  {
    if events != [] {
      UndisturbedIsOneAtATime(stored, events[..|events| - 1]);
      OneAtATimeKept(Run(Initial(stored), events[..|events| - 1]), events[|events| - 1]);
    }
  }

  /** As long as nothing resets the status during a submit, no Start-current and no Clear is
      accepted while one runs, and so every one of them is safe. */
  lemma UndisturbedEndingsAreSafe(stored: set<DraftKey>, events: seq<Event>, request: Event, keys: set<DraftKey>,
                                  key: DraftKey)
    requires Undisturbed(stored, events) && forall e :: e in events ==> Writes(e, keys)
    requires Accepts(Run(Initial(stored), events), request) && key in Target(request) && key in keys
    ensures Run(Initial(stored), events).running == [] && IsSafe(Run(Initial(stored), events), request, keys)
  {
    UndisturbedIsOneAtATime(stored, events);
    RunKeeps(stored, events, keys);
    RunWaits(stored, events);
    EndingIsSafeIff(Run(Initial(stored), events), request, keys, key);
  }

  lemma RunSnoc(s: State, events: seq<Event>, e: Event)
    ensures Run(s, events + [e]) == Step(Run(s, events), e)
  {
    assert (events + [e])[..|events|] == events;
  }

  /** A second submit is accepted after a reload, and the end of the first clears the ref. */
  function Overlap(outcome: Status): seq<Event> {
    [StartSubmit] + [Reload] + [StartSubmit] + [EndSubmit(0, outcome)]
  }

  lemma OverlapRuns(outcome: Status)
    requires outcome == Errored || outcome == Confirmed
    ensures var s := Run(Initial({}), Overlap(outcome));
            s.running == [0] && !s.inProgress && !s.requested && s.status == outcome && s.saves == []
  {
    var s0 := Initial({});
    RunSnoc(s0, [], StartSubmit);
    assert [] + [StartSubmit] == [StartSubmit];
    RunSnoc(s0, [StartSubmit], Reload);
    RunSnoc(s0, [StartSubmit] + [Reload], StartSubmit);
    RunSnoc(s0, [StartSubmit] + [Reload] + [StartSubmit], EndSubmit(0, outcome));
    OverlapStates(s0, outcome);
  }

  lemma OverlapStates(s: State, outcome: Status)
    requires s == Initial({}) && (outcome == Errored || outcome == Confirmed)
    ensures var t := Step(Step(Step(Step(s, StartSubmit), Reload), StartSubmit), EndSubmit(0, outcome));
            t.running == [0] && !t.inProgress && !t.requested && t.status == outcome && t.saves == []
  {
    var t := Step(Step(Step(s, StartSubmit), Reload), StartSubmit);
    assert t.running == [0, 0] && t.status == Submitting;
    assert [0, 0][..0] + [0, 0][1..] == [0];
  }

  /** Start-current undone: a submit runs, a reload comes, a second submit is accepted, the first
      ends in an error, Start-current is accepted and deletes, and the second submit writes the
      deleted key again. */
  lemma StartCurrentUndone(key: DraftKey) returns (events: seq<Event>)
    ensures var s := Run(Initial({}), events);
            && |events| > 4 && events[..4] == Overlap(Errored) && events[4] == StartCurrent(key, false)
            && s.requested && key in s.deleted && key in s.stored
  {
    OverlapRuns(Errored);
    events := RequestUndone(Overlap(Errored), StartCurrent(key, false), key);
  }

  /** Likewise Clear, when the first submit ends confirmed. */
  lemma ClearUndone(key: DraftKey) returns (events: seq<Event>)
    ensures var s := Run(Initial({}), events);
            && |events| > 4 && events[..4] == Overlap(Confirmed) && events[4] == Clear({key})
            && s.requested && key in s.deleted && key in s.stored
  {
    OverlapRuns(Confirmed);
    events := RequestUndone(Overlap(Confirmed), Clear({key}), key);
  }

  lemma RequestUndone(before: seq<Event>, request: Event, key: DraftKey) returns (events: seq<Event>)
    requires var s := Run(Initial({}), before);
             Accepts(s, request) && s.running != [] && key in Target(request)
    ensures var s := Run(Initial({}), events);
            s.requested && key in s.deleted && key in s.stored
    ensures |events| > |before| && events[..|before|] == before && events[|before|] == request
  {
    RunWaits({}, before);
    var s := Run(Initial({}), before);
    var after := SubmitRecreates(s, request, key);
    events := before + [request] + after;
    RunConcat(Initial({}), before + [request], after);
    assert (before + [request])[..|before|] == before;
    StandingHolds(Step(s, request), after);
  }

  lemma {:induction false} RunConcat(s: State, a: seq<Event>, b: seq<Event>)
    ensures Run(s, a + b) == Run(Run(s, a), b)
    decreases |b|
  {
    if b == [] {
      assert a + b == a;
    } else {
      assert (a + b)[..|a + b| - 1] == a + b[..|b| - 1];
      RunConcat(s, a, b[..|b| - 1]);
    }
  }

  // ---------------------------------------------------------------- An ordinary visit

  /** No handler is at work. */
  predicate Quiet(s: State) {
    s.saves == [] && s.running == [] && !s.requested && !s.inProgress && s.phase.Open?
  }

  /** What each handler does at each status when no ending has been requested: the language can
      change and a submit can start only before one is at work or has succeeded. */
  lemma WhatAStatusAllows(s: State, key: DraftKey, target: set<DraftKey>)
    requires !s.requested
    ensures var early := s.status.Idle? || s.status.Invalid? || s.status.Errored? || s.status.PaymentVoided?;
            && Step(s, ChangeLanguage(key)).saves == s.saves + (if early && !s.inProgress then [key] else [])
            && |Step(s, StartSubmit).running| == |s.running| + (if early || s.status.CaptureFailed? then 1 else 0)
            && (Step(s, StartCurrent(key, false)).requested <==> early && !s.inProgress)
            && (Step(s, StartCurrent(key, true)).requested <==> !s.inProgress)
            && (Step(s, Clear(target)).requested <==> s.status.Confirmed?)
  {
  }

  /** Change the language, submit, let the save and the submit write, and end the submit. */
  function Visit(k: DraftKey, j: DraftKey, outcome: Status): seq<Event> {
    [ChangeLanguage(k), StartSubmit, SaveFinishes(true), SubmitWrites(0, j), EndSubmit(0, outcome)]
  }

  lemma FiveSteps(s: State, es: seq<Event>)
    requires |es| == 5
    ensures Run(s, es) == Step(Step(Step(Step(Step(s, es[0]), es[1]), es[2]), es[3]), es[4])
  {
    var e4, e3, e2, e1 := es[..4], es[..3], es[..2], es[..1];
    assert e4[..3] == e3 && e3[..2] == e2 && e2[..1] == e1 && e1[..0] == [];
    assert Run(s, e1) == Step(s, es[0]);
    assert Run(s, e2) == Step(Run(s, e1), es[1]);
    assert Run(s, e3) == Step(Run(s, e2), es[2]);
    assert Run(s, e4) == Step(Run(s, e3), es[3]);
  }

  lemma SaveAndSubmitStart(s: State, k: DraftKey)
    requires Quiet(s) && (s.status.Idle? || s.status.Invalid? || s.status.Errored? || s.status.PaymentVoided?)
    ensures var t := Step(Step(s, ChangeLanguage(k)), StartSubmit);
            t == s.(saves := [k], status := Submitting, inProgress := true, running := [1])
  {
  }

  lemma SaveAndSubmitWrite(t: State, k: DraftKey, j: DraftKey)
    requires t.saves == [k] && t.running == [1] && !t.requested && t.phase.Open?
    ensures var u := Step(Step(t, SaveFinishes(true)), SubmitWrites(0, j));
            u.saves == [] && u.running == [0] && !u.requested && u.phase.Open? && u.stored == t.stored + {k, j}
  {
    var t1 := Step(t, SaveFinishes(true));
    assert t1.saves == [] && t1.running == [0] && t1.stored == t.stored + {k};
  }

  lemma SubmitEnds(u: State, outcome: Status)
    requires u.saves == [] && u.running == [0] && !u.requested && u.phase.Open?
    requires !outcome.Idle? && !outcome.Submitting? && !outcome.Authorizing?
    ensures var t := Step(u, EndSubmit(0, outcome));
            Quiet(t) && t.status == outcome && t.stored == u.stored
  {
    assert u.running[..0] + u.running[1..] == [];
  }

  /** An undisturbed visit stores the language save and what the submit writes, and ends with the
      submit's outcome and no handler at work. */
  lemma VisitStores(s: State, k: DraftKey, j: DraftKey, outcome: Status)
    requires Quiet(s) && (s.status.Idle? || s.status.Invalid? || s.status.Errored? || s.status.PaymentVoided?)
    requires !outcome.Idle? && !outcome.Submitting? && !outcome.Authorizing?
    ensures var t := Run(s, Visit(k, j, outcome));
            Quiet(t) && t.status == outcome && t.stored == s.stored + {k, j}
  {
    FiveSteps(s, Visit(k, j, outcome));
    var t := Step(Step(s, ChangeLanguage(k)), StartSubmit);
    SaveAndSubmitStart(s, k);
    SaveAndSubmitWrite(t, k, j);
    SubmitEnds(Step(Step(t, SaveFinishes(true)), SubmitWrites(0, j)), outcome);
  }

  predicate Succeeds(e: Event) {
    e.QueueDrained? || (e.DeleteFinishes? && e.ok)
  }

  /** `done` is deleted, `todo` still to be deleted. */
  function Without(s: State, done: set<DraftKey>, todo: set<DraftKey>): State {
    s.(stored := s.stored - done, deleted := s.deleted + done, phase := After(todo, s.clearing))
  }

  lemma DeletesOne(s: State, todo: set<DraftKey>, key: DraftKey)
    requires s.phase == After(todo, s.clearing) && key in todo
    ensures Step(s, DeleteFinishes(key, true)) == Without(s, {key}, todo - {key})
  {
  }

  lemma WithoutTwice(s: State, todo: set<DraftKey>, key: DraftKey)
    requires key in todo
    ensures Without(Without(s, {key}, todo - {key}), todo - {key}, {}) == Without(s, todo, {})
  {
    assert s.stored - {key} - (todo - {key}) == s.stored - todo;
    assert s.deleted + {key} + (todo - {key}) == s.deleted + todo;
  }

  lemma RunCons(s: State, e: Event, rest: seq<Event>)
    ensures Run(s, [e] + rest) == Run(Step(s, e), rest)
  {
    RunConcat(s, [e], rest);
    assert [e][..0] == [] && Run(s, [e]) == Step(s, e);
  }

  lemma {:induction false} DeletesAll(s: State, todo: set<DraftKey>) returns (events: seq<Event>)
    requires s.phase == After(todo, s.clearing)
    ensures Run(s, events) == Without(s, todo, {})
    ensures forall e :: e in events ==> Succeeds(e)
    decreases |todo|
  {
    if todo == {} {
      events := [];
      assert s.stored - todo == s.stored && s.deleted + todo == s.deleted;
    } else {
      var key :| key in todo;
      DeletesOne(s, todo, key);
      WithoutTwice(s, todo, key);
      var rest := DeletesAll(Without(s, {key}, todo - {key}), todo - {key});
      events := [DeleteFinishes(key, true)] + rest;
      RunCons(s, DeleteFinishes(key, true), rest);
    }
  }

  /** From a confirmed submit with no handler at work, an accepted Clear whose deletions succeed
      removes exactly its keys from the store, and its end resets the status. */
  lemma ClearRemoves(s: State, target: set<DraftKey>) returns (deletions: seq<Event>)
    requires Quiet(s) && s.status == Confirmed
    ensures forall e :: e in deletions ==> Succeeds(e)
    ensures var t := Run(s, [Clear(target)] + deletions + [FinishEnd(true)]);
            t.requested && t.phase == Ended && t.status == Idle && t.stored == s.stored - target
  {
    var s1 := Step(s, Clear(target));
    assert [Clear(target)][..0] == [] && Run(s, [Clear(target)]) == s1;
    var s2 := Step(s1, QueueDrained);
    assert [QueueDrained][..0] == [] && Run(s1, [QueueDrained]) == s2;
    var deletes := DeletesAll(s2, target);
    deletions := [QueueDrained] + deletes;
    RunConcat(s1, [QueueDrained], deletes);
    RunConcat(s, [Clear(target)], deletions);
    RunSnoc(s, [Clear(target)] + deletions, FinishEnd(true));
  }

  // ---------------------------------------------------------------- From the form's keys to the store

  /** A form as its handlers see it, with the list that `DraftKeysToClear` computed for it. */
  datatype Form = Form(base: DraftKey, slots: Option<seq<Slot>>, scope: Scope, list: seq<DraftKey>)

  ghost predicate FormFits(form: Form) {
    && (forall k :: k in FormKeys(form.base, form.slots, form.scope) ==> NulFree(k))
    && (form.slots.Some? ==> forall s :: s in form.slots.value ==> s.partyRef != "")
    && Deduped(FormKeys(form.base, form.slots, form.scope), form.list, Fingerprint)
  }

  /** What happens on a form; `active` is the active party of a multi-party form. */
  datatype FormEvent =
    | ChangesLanguage(active: Option<string>)
    | SubmitsSlice(index: nat, active: Option<string>)
    | SubmitsProgress(index: nat)
    | ClearsForm
    | Happens(e: Event)

  predicate OnForm(form: Form, fe: FormEvent) {
    match fe
    case ChangesLanguage(active) => active.Some? ==> form.slots.Some? && active.value in Refs(form.slots.value)
    case SubmitsSlice(_, active) => active.Some? ==> form.slots.Some? && active.value in Refs(form.slots.value)
    case SubmitsProgress(_) => form.slots.Some?
    case ClearsForm => true
    case Happens(e) => !e.ChangeLanguage? && !e.SubmitWrites? && !e.Clear?
  }

  function SliceKey(form: Form, active: Option<string>): DraftKey {
    match active
    case None => form.base
    case Some(ref) => PartyKey(form.base, ref)
  }

  /** The keys the handlers compute. */
  function Concrete(form: Form, fe: FormEvent): Event {
    match fe
    case ChangesLanguage(active) => ChangeLanguage(SliceKey(form, active))
    case SubmitsSlice(i, active) => SubmitWrites(i, SliceKey(form, active))
    case SubmitsProgress(i) => SubmitWrites(i, ProgressKey(form.base, form.scope))
    case ClearsForm => Clear(set k | k in form.list)
    case Happens(e) => e
  }

  /** A multi-party form's handlers write the active party's answers to that party's key, a
      single-party form's to the form's own. */
  lemma HandlersWriteTheActiveSlice(form: Form, active: Option<string>, index: nat)
    requires active != Some("")
    ensures var e, f := Concrete(form, ChangesLanguage(active)), Concrete(form, SubmitsSlice(index, active));
            && e.ChangeLanguage? && f.SubmitWrites? && f.index == index && e.key == f.key
            && e.key.formUrl == form.base.formUrl && e.key.formVersion == form.base.formVersion
            && e.key.subjectRef == form.base.subjectRef
            && e.key.partyRef == (if active.Some? then active else form.base.partyRef)
  {
    if active.Some? {
      PartyKeysDiffer(form.base, active.value, active.value);
    }
  }

  function ConcreteAll(form: Form, events: seq<FormEvent>): (r: seq<Event>)
    ensures |r| == |events| && forall i :: 0 <= i < |r| ==> r[i] == Concrete(form, events[i])
  {
    if events == [] then [] else [Concrete(form, events[0])] + ConcreteAll(form, events[1..])
  }

  function KeySet(form: Form): set<DraftKey> {
    set k | k in FormKeys(form.base, form.slots, form.scope)
  }

  lemma HandlersWriteFormKeys(form: Form, events: seq<FormEvent>)
    requires forall fe :: fe in events ==> OnForm(form, fe)
    ensures forall e :: e in ConcreteAll(form, events) ==> Writes(e, KeySet(form))
  {
    forall i | 0 <= i < |events|
      ensures Writes(Concrete(form, events[i]), KeySet(form))
    {
      assert events[i] in events && OnForm(form, events[i]);
      HandlerWritesFormKeys(form, events[i]);
    }
  }

  lemma BothWriteFormKeys(form: Form, before: seq<FormEvent>, after: seq<FormEvent>)
    requires forall fe :: fe in before + after ==> OnForm(form, fe)
    ensures forall e :: e in ConcreteAll(form, before) ==> Writes(e, KeySet(form))
    ensures forall e :: e in ConcreteAll(form, after) ==> Writes(e, KeySet(form))
  {
    assert forall fe :: fe in before ==> fe in before + after;
    assert forall fe :: fe in after ==> fe in before + after;
    HandlersWriteFormKeys(form, before);
    HandlersWriteFormKeys(form, after);
  }

  lemma HandlerWritesFormKeys(form: Form, fe: FormEvent)
    requires OnForm(form, fe)
    ensures Writes(Concrete(form, fe), KeySet(form))
  {
    match fe
    case ChangesLanguage(active) => SliceIsAFormKey(form, active);
    case SubmitsSlice(_, active) => SliceIsAFormKey(form, active);
    case SubmitsProgress(_) =>
      assert FormKeys(form.base, form.slots, form.scope)[1] == ProgressKey(form.base, form.scope);
    case _ =>
  }

  lemma SliceIsAFormKey(form: Form, active: Option<string>)
    requires active.Some? ==> form.slots.Some? && active.value in Refs(form.slots.value)
    ensures SliceKey(form, active) in KeySet(form)
  {
    match active
    case None => assert FormKeys(form.base, form.slots, form.scope)[0] == form.base;
    case Some(ref) => EveryWriteIsAFormKey(form.base, form.slots.value, form.scope, ref);
  }

  lemma ListHoldsTheForm(form: Form)
    requires FormFits(form)
    ensures (set k | k in form.list) == KeySet(form)
  {
    forall k | k in KeySet(form)
      ensures k in form.list
    {
      EveryFormKeyIsCleared(form.base, form.slots, form.scope, form.list, k);
    }
  }

  lemma CleanClearEmpties(s: State, keys: set<DraftKey>, after: seq<Event>)
    requires Inv(s, keys) && Accepts(s, Clear(keys)) && s.running == [] && forall e :: e in after ==> Writes(e, keys)
    requires Stands(Step(s, Clear(keys)), after)
    requires var t := Run(Step(s, Clear(keys)), after);
             t.phase.Finishing? || t.phase.Ended?
    ensures var t := Run(Step(s, Clear(keys)), after);
            t.written !! t.stored && keys !! t.stored
  {
    StepKeeps(s, Clear(keys), keys);
    StandingRun(Step(s, Clear(keys)), after, keys);
  }

  function Before(form: Form, stored: set<DraftKey>, before: seq<FormEvent>): State {
    Run(Initial(stored), ConcreteAll(form, before))
  }

  /** The state after `before`, a Clear of the form, and `after`. */
  function Cleared(form: Form, stored: set<DraftKey>, before: seq<FormEvent>, after: seq<FormEvent>): State {
    Run(Step(Before(form, stored, before), Concrete(form, ClearsForm)), ConcreteAll(form, after))
  }

  /** When a Clear, accepted without a running submit, has deleted the list computed for its
      form, no key of the form and nothing its handlers ever wrote is left in the store. */
  lemma ClearLeavesNothingWritten(form: Form, stored: set<DraftKey>, before: seq<FormEvent>, after: seq<FormEvent>)
    requires FormFits(form) && forall fe :: fe in before + after ==> OnForm(form, fe)
    requires Accepts(Before(form, stored, before), Concrete(form, ClearsForm))
    requires Before(form, stored, before).running == []
    requires Stands(Step(Before(form, stored, before), Concrete(form, ClearsForm)), ConcreteAll(form, after))
    requires Cleared(form, stored, before, after).phase.Finishing? || Cleared(form, stored, before, after).phase.Ended?
    ensures var t := Cleared(form, stored, before, after);
            t.written !! t.stored && KeySet(form) !! t.stored
  {
    BothWriteFormKeys(form, before, after);
    ListHoldsTheForm(form);
    RunKeeps(stored, ConcreteAll(form, before), KeySet(form));
    CleanClearEmpties(Before(form, stored, before), KeySet(form), ConcreteAll(form, after));
  }

  /** So does every accepted Clear, as long as nothing reset the status during a submit. */
  lemma UndisturbedClearLeavesNothing(form: Form, stored: set<DraftKey>, before: seq<FormEvent>, after: seq<FormEvent>)
    requires FormFits(form) && forall fe :: fe in before + after ==> OnForm(form, fe)
    requires Undisturbed(stored, ConcreteAll(form, before))
    requires Accepts(Before(form, stored, before), Concrete(form, ClearsForm))
    requires Stands(Step(Before(form, stored, before), Concrete(form, ClearsForm)), ConcreteAll(form, after))
    requires Cleared(form, stored, before, after).phase.Finishing? || Cleared(form, stored, before, after).phase.Ended?
    ensures var t := Cleared(form, stored, before, after);
            t.written !! t.stored && KeySet(form) !! t.stored
  {
    UndisturbedIsOneAtATime(stored, ConcreteAll(form, before));
    ClearLeavesNothingWritten(form, stored, before, after);
  }

  // ---------------------------------------------------------------- The handlers in place

  /** The controller's refs, its submit status and its handlers, a method to each stretch between
      awaits. `world` carries the submits, the store and history; `log` is what has happened. */
  class DraftWriter {
    var saves: seq<DraftKey>
    var status: Status
    var inProgress: bool
    var requested: bool
    ghost var world: State
    ghost const stored: set<DraftKey>
    ghost var log: seq<Event>

    ghost function View(): State
      reads this
    {
      world.(saves := saves, status := status, inProgress := inProgress, requested := requested)
    }

    ghost predicate Valid()
      reads this
    {
      View() == Run(Initial(stored), log)
    }

    constructor (ghost stored: set<DraftKey>)
      ensures Valid() && log == [] && this.stored == stored
    {
      saves, status, inProgress, requested := [], Idle, false, false;
      this.stored := stored;
      world, log := Initial(stored), [];
    }

    ghost method Record(e: Event, before: State)
      requires before == Run(Initial(stored), log) && View() == Step(before, e)
      modifies this`log
      ensures Valid() && log == old(log) + [e]
    {
      log := log + [e];
      assert log[..|log| - 1] == old(log);
    }

    /** `handleLocaleChange`: chain a save unless a submit or an ending holds the draft. */
    method HandleLocaleChange(key: DraftKey)
      requires Valid()
      modifies this
      ensures Valid() && log == old(log) + [ChangeLanguage(key)]
    {
      ghost var before := View();
      if !inProgress && !Locks(status) && !requested {
        saves := saves + [key];
      }
      Record(ChangeLanguage(key), before);
    }

    /** The head of the save chain finishes; a failed save is reported, not retried. */
    method FinishSave(ok: bool)
      requires Valid() && saves != []
      modifies this
      ensures Valid() && log == old(log) + [SaveFinishes(ok)]
    {
      ghost var before := View();
      EndSave(ok);
      Record(SaveFinishes(ok), before);
    }

    method EndSave(ok: bool)
      requires saves != []
      modifies this`saves, this`world
      ensures View() == Step(old(View()), SaveFinishes(ok))
    {
      world := world.(running := Waited(world.running));
      if ok {
        world := Write(world, saves[0]);
      }
      saves := saves[1..];
    }

    /** `handleSubmit` up to its first await: it asks the status, not the ref. */
    method HandleSubmit() returns (started: bool)
      requires Valid()
      modifies this
      ensures Valid() && log == old(log) + [StartSubmit] && started == old(!requested && !Refuses(status))
    {
      ghost var before := View();
      started := !requested && !Refuses(status);
      if started {
        inProgress := true;
        status := Submitting;
        world := world.(running := world.running + [|saves|]);
      }
      Record(StartSubmit, before);
    }

    /** A running submit begins to authorize the payment. */
    method ReportAuthorizing(ghost index: nat)
      requires Valid() && AtWork(View(), index)
      modifies this
      ensures Valid() && log == old(log) + [SubmitAuthorizes(index)]
    {
      ghost var before := View();
      status := Authorizing;
      Record(SubmitAuthorizes(index), before);
    }

    /** A running submit saves a draft. */
    ghost method SaveDraft(index: nat, key: DraftKey)
      requires Valid() && AtWork(View(), index)
      modifies this
      ensures Valid() && log == old(log) + [SubmitWrites(index, key)]
    {
      var before := View();
      world := Write(world, key);
      Record(SubmitWrites(index, key), before);
    }

    /** A submit ends: its last status, then the `finally` that clears the ref, whoever set it. */
    method FinishSubmit(ghost index: nat, outcome: Status)
      requires Valid() && AtWork(View(), index) && !outcome.Idle? && !outcome.Submitting? && !outcome.Authorizing?
      modifies this
      ensures Valid() && log == old(log) + [EndSubmit(index, outcome)]
    {
      ghost var before := View();
      status := outcome;
      inProgress := false;
      world := world.(running := world.running[..index] + world.running[index + 1..]);
      Record(EndSubmit(index, outcome), before);
    }

    /** The replay of a queued submission reports. */
    method FinishReplay(sent: bool)
      requires Valid() && status.Queued?
      modifies this
      ensures Valid() && log == old(log) + [ReplayEnds(sent)]
    {
      ghost var before := View();
      status := if sent then Confirmed else Errored;
      Record(ReplayEnds(sent), before);
    }

    /** `handleStartCurrent` up to the await on the save chain, where its button is shown. */
    method HandleStartCurrent(key: DraftKey, recovering: bool) returns (started: bool)
      requires Valid() && (recovering || !Locks(status))
      modifies this
      ensures Valid() && log == old(log) + [StartCurrent(key, recovering)] && started == old(!requested && !inProgress)
    {
      ghost var before := View();
      started := !requested && !inProgress;
      if started {
        BeginRequest(false, {key});
      }
      Record(StartCurrent(key, recovering), before);
    }

    /** `handleClearTerminal` up to the await on the save chain, on the confirmation panel. */
    method HandleClearTerminal(target: set<DraftKey>) returns (started: bool)
      requires Valid() && status == Confirmed
      modifies this
      ensures Valid() && log == old(log) + [Clear(target)] && started == old(!requested)
    {
      ghost var before := View();
      started := !requested;
      if started {
        BeginRequest(true, target);
      }
      Record(Clear(target), before);
    }

    method BeginRequest(clearing: bool, target: set<DraftKey>)
      modifies this`requested, this`world
      ensures View() == Request(old(View()), clearing, target)
    {
      requested := true;
      world := world.(clearing := clearing, phase := Draining(target), goal := target, deleted := {},
                      clean := world.running == []);
    }

    /** The await on the save chain ends: the deletes begin. */
    ghost method BeginDeletes()
      requires Valid() && View().phase.Draining? && saves == []
      modifies this
      ensures Valid() && log == old(log) + [QueueDrained]
    {
      var before := View();
      world := world.(phase := After(world.phase.target, world.clearing));
      Record(QueueDrained, before);
    }

    ghost method FinishDelete(key: DraftKey)
      requires Valid() && View().phase.Deleting? && key in View().phase.todo
      modifies this
      ensures Valid() && log == old(log) + [DeleteFinishes(key, true)]
    {
      var before := View();
      world := world.(stored := world.stored - {key}, deleted := world.deleted + {key},
                      phase := After(world.phase.todo - {key}, world.clearing));
      Record(DeleteFinishes(key, true), before);
    }

    /** The catch block after a failed delete: the refusal of writes is lifted again. */
    method FailDelete(key: DraftKey)
      requires Valid() && View().phase.Deleting? && key in View().phase.todo
      modifies this
      ensures Valid() && log == old(log) + [DeleteFinishes(key, false)] && !requested
    {
      ghost var before := View();
      requested := false;
      world := Lift(world, world.phase.todo - {key});
      Record(DeleteFinishes(key, false), before);
    }

    /** Clear ends: the list and the revocation succeeded, and the status is reset. */
    method FinishClear()
      requires Valid() && View().phase.Finishing?
      modifies this
      ensures Valid() && log == old(log) + [FinishEnd(true)] && requested == old(requested)
    {
      ghost var before := View();
      status := Idle;
      world := world.(phase := Ended);
      Record(FinishEnd(true), before);
    }

    /** The catch block after a failed list or revoke. */
    method FailFinish()
      requires Valid() && View().phase.Finishing?
      modifies this
      ensures Valid() && log == old(log) + [FinishEnd(false)] && !requested
    {
      ghost var before := View();
      requested := false;
      world := Lift(world, {});
      Record(FinishEnd(false), before);
    }

    /** A delete of a request that no longer stands comes back. */
    ghost method FinishStray(key: DraftKey, ok: bool)
      requires Valid() && key in View().strays
      modifies this
      ensures Valid() && log == old(log) + [StrayFinishes(key, ok)]
    {
      var before := View();
      EndStray(key, ok);
      Record(StrayFinishes(key, ok), before);
    }

    ghost method EndStray(key: DraftKey, ok: bool)
      requires key in View().strays
      modifies this`world
      ensures View() == Step(old(View()), StrayFinishes(key, ok))
    {
      world := world.(strays := world.strays - multiset{key},
                      stored := if ok then world.stored - {key} else world.stored);
    }

    /** A handler ends whose refusal a boot had lifted: failing, it lifts whichever stands now. */
    method FinishOrphan(cleared: bool, ok: bool)
      requires Valid() && cleared in View().orphans
      modifies this
      ensures Valid() && log == old(log) + [OrphanEnds(cleared, ok)]
    {
      ghost var before := View();
      EndOrphan(cleared, ok);
      Record(OrphanEnds(cleared, ok), before);
    }

    method EndOrphan(cleared: bool, ok: bool)
      requires cleared in View().orphans
      modifies this`requested, this`status, this`world
      ensures View() == OrphanStep(old(View()), cleared, ok)
    {
      world := world.(orphans := world.orphans - multiset{cleared});
      if !ok {
        LiftRefusal();
      } else if cleared {
        status := Idle;
      }
    }

    /** `terminalClearRequestedRef.current = false`, whoever is at work. */
    method LiftRefusal()
      modifies this`requested, this`world
      ensures View() == LiftAny(old(View()))
    {
      requested := false;
      world := LiftAny(world);
    }

    /** `applyReadyState` resets the status, a submit running or not. */
    method Reloaded()
      requires Valid()
      modifies this
      ensures Valid() && log == old(log) + [Reload]
    {
      ghost var before := View();
      status := Idle;
      Record(Reload, before);
    }

    /** A new effect instance lifts the refusal, whoever set it, and resets the status. */
    method Booted()
      requires Valid()
      modifies this
      ensures Valid() && log == old(log) + [Boot] && !requested
    {
      ghost var before := View();
      Restart();
      Record(Boot, before);
    }

    method Restart()
      modifies this`requested, this`status, this`world
      ensures View() == LiftAny(old(View())).(status := Idle) && !requested
    {
      LiftRefusal();
      status := Idle;
    }
  }
}
