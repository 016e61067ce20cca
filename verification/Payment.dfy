/** The authorize, submit, capture-or-void payment saga and the environment it runs against.

    The environment is the contract of the payment rail and the submit transport: each call is
    idempotent on its key, refuses what the contract refuses, and may fail before or after
    its effect. Runs of the saga may be interleaved call by call and repeated with any key. */
module Payment {
  import opened Common

  type Key = string
  type AuthId = nat

  datatype Suffix = ForAuthorize | ForCapture | ForVoid

  /** The keys of the rail calls: derived from the submission key, without collisions, or
      supplied by the caller. */
  datatype RailKey = Derived(base: Key, suffix: Suffix) | Given(text: string)

  datatype Money = Money(minorUnits: nat, currency: string)

  datatype Authorization = Authorization(id: AuthId, amount: Money)
  datatype Receipt = Receipt(authorization: AuthId, amount: Money)
  type Confirmation = nat

  datatype Status = Held | Captured | Voided

  /** A hold the rail minted; its number is its index in the rail's book. */
  datatype Hold = Hold(key: RailKey, amount: Money, status: Status)

  /** The rail's and the transport's books. `charges` and `releases` count money movements. */
  datatype Ledger = Ledger(
    holds: seq<Hold>, authorizations: map<RailKey, AuthId>,
    captures: map<RailKey, Receipt>, voids: set<RailKey>,
    charges: multiset<AuthId>, releases: multiset<AuthId>,
    accepted: map<Key, Confirmation>, nextConfirmation: Confirmation)

  const EMPTY := Ledger([], map[], map[], {}, multiset{}, multiset{}, map[], 0)

  /** Where a call fails: not at all, before its effect, or after it with the reply lost. */
  datatype Fault = NoFault | Before | After

  datatype Reply<+T> = Returned(value: T) | Threw

  function Answer<T>(fault: Fault, value: T): Reply<T> {
    if fault.NoFault? then Returned(value) else Threw
  }

  // ---------------------------------------------------------------- The environment's contract

  predicate Known(l: Ledger, id: AuthId) {
    id < |l.holds|
  }

  function SetStatus(l: Ledger, id: AuthId, status: Status): Ledger
    requires Known(l, id)
  {
    l.(holds := l.holds[id := l.holds[id].(status := status)])
  }

  function Authorize(l: Ledger, amount: Money, key: RailKey, fault: Fault): (Ledger, Reply<Authorization>) {
    if fault.Before? then (l, Threw) else
    if key in l.authorizations && Known(l, l.authorizations[key]) then
      (l, Answer(fault, Authorization(l.authorizations[key], l.holds[l.authorizations[key]].amount)))
    else
      (l.(holds := l.holds + [Hold(key, amount, Held)], authorizations := l.authorizations[key := |l.holds|]),
       Answer(fault, Authorization(|l.holds|, amount)))
  }

  function Submit(l: Ledger, key: Key, fault: Fault): (Ledger, Reply<Confirmation>) {
    if fault.Before? then (l, Threw) else
    if key in l.accepted then (l, Answer(fault, l.accepted[key])) else
    (l.(accepted := l.accepted[key := l.nextConfirmation], nextConfirmation := l.nextConfirmation + 1),
     Answer(fault, l.nextConfirmation))
  }

  function Capture(l: Ledger, a: Authorization, key: RailKey, fault: Fault): (Ledger, Reply<Receipt>) {
    if fault.Before? then (l, Threw) else
    if key in l.captures then (l, Answer(fault, l.captures[key])) else
    if !Known(l, a.id) || l.holds[a.id].status != Held then (l, Threw) else
    var r := Receipt(a.id, a.amount);
    (SetStatus(l, a.id, Captured).(captures := l.captures[key := r], charges := l.charges + multiset{a.id}),
     Answer(fault, r))
  }

  function Void(l: Ledger, a: Authorization, key: RailKey, fault: Fault): (Ledger, Reply<()>) {
    if fault.Before? then (l, Threw) else
    if key in l.voids then (l, Answer(fault, ())) else
    if Known(l, a.id) && l.holds[a.id].status == Captured then (l, Threw) else
    var l1 := if Known(l, a.id) && l.holds[a.id].status == Held
              then SetStatus(l, a.id, Voided).(releases := l.releases + multiset{a.id})
              else l;
    (l1.(voids := l.voids + {key}), Answer(fault, ()))
  }

  // ---------------------------------------------------------------- What the rail and the transport promise

  /** Repeating authorize with the same key returns the same authorization and changes nothing,
      even if the first reply was lost; the amount of the repetition does not matter. */
  lemma AuthorizeIsIdempotent(l: Ledger, amount: Money, again: Money, key: RailKey, fault: Fault)
    requires !fault.Before?
    ensures var l1 := Authorize(l, amount, key, fault).0;
            && Authorize(l1, again, key, NoFault) == (l1, Authorize(l1, amount, key, NoFault).1)
            && Authorize(l1, again, key, NoFault).1.Returned?
            && (fault.NoFault? ==> Authorize(l1, again, key, NoFault).1 == Authorize(l, amount, key, fault).1)
  {
  }

  /** Authorizing under a key that no hold has mints a new hold of the given amount, held. */
  lemma AuthorizeMintsAHold(l: Ledger, amount: Money, key: RailKey)
    requires key !in l.authorizations
    ensures var (l1, reply) := Authorize(l, amount, key, NoFault);
            && reply.Returned? && !Known(l, reply.value.id) && Known(l1, reply.value.id)
            && reply.value.amount == amount && l1.holds[reply.value.id] == Hold(key, amount, Held)
            && (forall id: AuthId :: Known(l, id) ==> Known(l1, id) && l1.holds[id] == l.holds[id])
  {
  }

  /** Two authorizations answered under different keys are different holds. */
  lemma DifferentKeysDifferentHolds(l: Ledger, j: RailKey, k: RailKey, a: Money, b: Money)
    requires HoldsFit(l) && j != k
    ensures var (l1, r1) := Authorize(l, a, j, NoFault);
            var (l2, r2) := Authorize(l1, b, k, NoFault);
            r1.Returned? && r2.Returned? && r1.value.id != r2.value.id
  {
  }

  /** One confirmation to a key: repeating a submission, reply lost or not, returns the first
      one, and different keys have different confirmations. */
  lemma SubmitConfirmsOnce(l: Ledger, j: Key, k: Key, fault: Fault)
    requires ConfirmationsFit(l) && !fault.Before?
    ensures var l1 := Submit(l, j, fault).0;
            && j in l1.accepted && Submit(l1, j, NoFault) == (l1, Returned(l1.accepted[j]))
            && (fault.NoFault? ==> Submit(l, j, fault).1 == Returned(l1.accepted[j]))
            && var (l2, r2) := Submit(l1, k, NoFault);
               r2.Returned? && (r2.value == l1.accepted[j] <==> j == k)
  {
  }

  /** A held authorization is captured once: for its own amount, the same key giving the same
      receipt and no second charge, another key being refused. */
  lemma CaptureChargesOnce(l: Ledger, a: Authorization, j: RailKey, k: RailKey, fault: Fault)
    requires Known(l, a.id) && l.holds[a.id].status == Held && j !in l.captures && k !in l.captures && j != k
    requires !fault.Before?
    ensures var l1 := Capture(l, a, j, fault).0;
            && l1.holds[a.id].status == Captured && l1.charges == l.charges + multiset{a.id}
            && Capture(l1, a, j, NoFault) == (l1, Returned(Receipt(a.id, a.amount)))
            && Capture(l1, a, k, NoFault) == (l1, Threw)
  {
  }

  /** An unknown authorization and one that was released cannot be captured. */
  lemma CaptureRefused(l: Ledger, a: Authorization, key: RailKey, fault: Fault)
    requires key !in l.captures && (Known(l, a.id) ==> l.holds[a.id].status != Held)
    ensures Capture(l, a, key, fault) == (l, Threw)
  {
  }

  /** Releasing a held authorization takes effect once; it can never be captured afterwards. */
  lemma VoidReleasesOnce(l: Ledger, a: Authorization, v: RailKey, key: RailKey, fault: Fault)
    requires Known(l, a.id) && l.holds[a.id].status == Held && v !in l.voids && key !in l.captures && !fault.Before?
    ensures var l1 := Void(l, a, v, fault).0;
            && l1.holds[a.id].status == Voided && l1.releases == l.releases + multiset{a.id}
            && Void(l1, a, v, NoFault) == (l1, Returned(()))
            && Capture(l1, a, key, NoFault) == (l1, Threw)
  {
  }

  /** A captured authorization cannot be released: the release is refused and changes nothing. */
  lemma VoidAfterCaptureRefused(l: Ledger, a: Authorization, c: RailKey, v: RailKey, fault: Fault)
    requires Known(l, a.id) && l.holds[a.id].status == Held && c !in l.captures && v !in l.voids && !fault.Before?
    ensures var l1 := Capture(l, a, c, fault).0;
            Void(l1, a, v, NoFault) == (l1, Threw)
  {
  }

  // ---------------------------------------------------------------- The saga, one call at a time

  datatype Outcome =
    | SubmittedWithPayment(confirmation: Confirmation, receipt: Receipt)
    | AuthorizeFailed
    | SubmitFailedPaymentVoided(authorization: Authorization)
    | VoidFailedAfterSubmitFailure(authorization: Authorization)
    | CaptureFailed(confirmation: Confirmation, authorization: Authorization)

  /** The progress of one run: the calls it has made so far. */
  datatype Progress =
    | Starting
    | Authorized(authorization: Authorization)
    | Accepted(authorization: Authorization, confirmation: Confirmation)
    | Refused(authorization: Authorization)
    | Finished(outcome: Outcome)

  datatype Keys = Keys(authorize: RailKey, capture: RailKey, void: RailKey)

  function DerivedKeys(key: Key): Keys {
    Keys(Derived(key, ForAuthorize), Derived(key, ForCapture), Derived(key, ForVoid))
  }

  function Advance(l: Ledger, key: Key, keys: Keys, amount: Money, p: Progress, fault: Fault): (Ledger, Progress) {
    match p
    case Starting =>
      var (l1, reply) := Authorize(l, amount, keys.authorize, fault);
      (l1, if reply.Threw? then Finished(AuthorizeFailed) else Authorized(reply.value))
    case Authorized(a) =>
      var (l1, reply) := Submit(l, key, fault);
      (l1, if reply.Threw? then Refused(a) else Accepted(a, reply.value))
    case Accepted(a, c) =>
      var (l1, reply) := Capture(l, a, keys.capture, fault);
      (l1, Finished(if reply.Threw? then CaptureFailed(c, a) else SubmittedWithPayment(c, reply.value)))
    case Refused(a) =>
      var (l1, reply) := Void(l, a, keys.void, fault);
      (l1, Finished(if reply.Threw? then VoidFailedAfterSubmitFailure(a) else SubmitFailedPaymentVoided(a)))
    case Finished(_) => (l, p)
  }

  // ---------------------------------------------------------------- Any number of interleaved runs

  /** A run in progress: its submission key, its amount and how far it has come. */
  datatype SagaRun = SagaRun(key: Key, amount: Money, progress: Progress)

  datatype World = World(ledger: Ledger, runs: seq<SagaRun>)

  /** A new run begins, or run `index` makes its next call. */
  datatype Event = Begin(key: Key, amount: Money) | Call(index: nat, fault: Fault)

  function Step(w: World, e: Event): World {
    match e
    case Begin(key, amount) => w.(runs := w.runs + [SagaRun(key, amount, Starting)])
    case Call(i, fault) =>
      if i >= |w.runs| then w else
      var r := w.runs[i];
      var (l, p) := Advance(w.ledger, r.key, DerivedKeys(r.key), r.amount, r.progress, fault);
      World(l, w.runs[i := r.(progress := p)])
  }

  function Run(events: seq<Event>): World {
    if events == [] then World(EMPTY, []) else Step(Run(events[..|events| - 1]), events[|events| - 1])
  }

  // ---------------------------------------------------------------- Invariant

  /** The hold placed for a submission key, if any. */
  function HoldFor(l: Ledger, key: Key): Option<AuthId> {
    if Derived(key, ForAuthorize) in l.authorizations && Known(l, l.authorizations[Derived(key, ForAuthorize)])
    then Some(l.authorizations[Derived(key, ForAuthorize)]) else None
  }

  function StatusFor(l: Ledger, key: Key): Option<Status> {
    match HoldFor(l, key)
    case None => None
    case Some(id) => if Known(l, id) then Some(l.holds[id].status) else None
  }

  ghost predicate HoldsFit(l: Ledger) {
    && (forall k :: k in l.authorizations ==> Known(l, l.authorizations[k]) && l.holds[l.authorizations[k]].key == k)
    && (forall id: AuthId :: Known(l, id) ==>
          var k := l.holds[id].key;
          k in l.authorizations && l.authorizations[k] == id && k.Derived? && k.suffix == ForAuthorize)
  }

  /** One key's books: it is captured exactly when there is a receipt for it, only when its
      submission was accepted; a used void key means the hold is no longer held. */
  ghost predicate KeyFits(l: Ledger, key: Key) {
    && (Derived(key, ForCapture) in l.captures <==> StatusFor(l, key) == Some(Captured))
    && (StatusFor(l, key) == Some(Captured) ==>
          key in l.accepted
          && l.captures[Derived(key, ForCapture)]
             == Receipt(HoldFor(l, key).value, l.holds[HoldFor(l, key).value].amount))
    && (Derived(key, ForVoid) in l.voids ==> StatusFor(l, key).Some? && StatusFor(l, key) != Some(Held))
  }

  ghost predicate KeysFit(l: Ledger) {
    forall key: Key :: KeyFits(l, key)
  }

  /** The logs count one charge for each captured hold and one release for each voided one. */
  ghost predicate LogsFit(l: Ledger) {
    forall id: AuthId ::
      && l.charges[id] == (if Known(l, id) && l.holds[id].status == Captured then 1 else 0)
      && l.releases[id] == (if Known(l, id) && l.holds[id].status == Voided then 1 else 0)
  }

  ghost predicate ConfirmationsFit(l: Ledger) {
    && (forall k :: k in l.accepted ==> l.accepted[k] < l.nextConfirmation)
    && (forall j, k :: j in l.accepted && k in l.accepted && l.accepted[j] == l.accepted[k] ==> j == k)
  }

  ghost predicate Granted(l: Ledger, key: Key, a: Authorization) {
    HoldFor(l, key) == Some(a.id) && l.holds[a.id].amount == a.amount
  }

  ghost predicate RunFits(l: Ledger, r: SagaRun) {
    match r.progress
    case Authorized(a) => Granted(l, r.key, a)
    case Accepted(a, c) => Granted(l, r.key, a) && r.key in l.accepted && l.accepted[r.key] == c
    case Refused(a) => Granted(l, r.key, a)
    case _ => true
  }

  ghost predicate LedgerFits(l: Ledger) {
    HoldsFit(l) && KeysFit(l) && LogsFit(l) && ConfirmationsFit(l)
  }

  ghost predicate Inv(w: World) {
    LedgerFits(w.ledger) && forall i :: 0 <= i < |w.runs| ==> RunFits(w.ledger, w.runs[i])
  }

  /** What a later ledger keeps of an earlier one. */
  ghost predicate Extends(l: Ledger, l': Ledger) {
    && (forall k :: k in l.authorizations ==> k in l'.authorizations && l'.authorizations[k] == l.authorizations[k])
    && (forall id: AuthId :: Known(l, id) ==> Known(l', id) && l'.holds[id].amount == l.holds[id].amount)
    && (forall k :: k in l.accepted ==> k in l'.accepted && l'.accepted[k] == l.accepted[k])
  }

  lemma AuthorizeKeepsKeys(l: Ledger, amount: Money, key: Key, fault: Fault)
    requires HoldsFit(l) && KeysFit(l)
    ensures KeysFit(Authorize(l, amount, Derived(key, ForAuthorize), fault).0)
  {
    var l' := Authorize(l, amount, Derived(key, ForAuthorize), fault).0;
    forall k: Key
      ensures KeyFits(l', k)
    {
      assert KeyFits(l, k);
    }
  }

  lemma AuthorizeKeepsRest(l: Ledger, amount: Money, key: Key, fault: Fault)
    requires LogsFit(l) && ConfirmationsFit(l)
    ensures var (l', _) := Authorize(l, amount, Derived(key, ForAuthorize), fault);
            LogsFit(l') && ConfirmationsFit(l')
  {
  }

  lemma AuthorizeGrants(l: Ledger, amount: Money, key: Key, fault: Fault)
    requires HoldsFit(l)
    ensures var (l', reply) := Authorize(l, amount, Derived(key, ForAuthorize), fault);
            HoldsFit(l') && Extends(l, l') && (reply.Returned? ==> Granted(l', key, reply.value))
  {
  }

  lemma AuthorizeKeeps(l: Ledger, amount: Money, key: Key, fault: Fault)
    requires LedgerFits(l)
    ensures var (l', reply) := Authorize(l, amount, Derived(key, ForAuthorize), fault);
            LedgerFits(l') && Extends(l, l') && (reply.Returned? ==> Granted(l', key, reply.value))
  {
    AuthorizeKeepsKeys(l, amount, key, fault);
    AuthorizeKeepsRest(l, amount, key, fault);
    AuthorizeGrants(l, amount, key, fault);
  }

  lemma SubmitKeepsKeys(l: Ledger, key: Key, fault: Fault)
    requires KeysFit(l)
    ensures KeysFit(Submit(l, key, fault).0)
  {
    var l' := Submit(l, key, fault).0;
    forall k: Key
      ensures KeyFits(l', k)
    {
      assert KeyFits(l, k);
    }
  }

  lemma SubmitKeeps(l: Ledger, key: Key, fault: Fault)
    requires LedgerFits(l)
    ensures var (l', reply) := Submit(l, key, fault);
            LedgerFits(l') && Extends(l, l')
            && (reply.Returned? ==> key in l'.accepted && l'.accepted[key] == reply.value)
  {
    SubmitKeepsKeys(l, key, fault);
  }

  /** A hold's status changes for its own key only. */
  lemma OtherKeysUntouched(l: Ledger, key: Key, other: Key, id: AuthId, status: Status)
    requires HoldsFit(l) && HoldFor(l, key) == Some(id)
    ensures var l' := SetStatus(l, id, status);
            HoldsFit(l') && HoldFor(l', other) == HoldFor(l, other)
            && StatusFor(l', other) == if other == key then Some(status) else StatusFor(l, other)
  {
  }

  lemma CaptureKeepsKey(l: Ledger, key: Key, a: Authorization, fault: Fault, k: Key)
    requires HoldsFit(l) && KeyFits(l, key) && KeyFits(l, k) && Granted(l, key, a) && key in l.accepted
    ensures KeyFits(Capture(l, a, Derived(key, ForCapture), fault).0, k)
  {
    OtherKeysUntouched(l, key, k, a.id, Captured);
  }

  lemma CaptureKeepsKeys(l: Ledger, key: Key, a: Authorization, fault: Fault)
    requires HoldsFit(l) && KeysFit(l) && Granted(l, key, a) && key in l.accepted
    ensures KeysFit(Capture(l, a, Derived(key, ForCapture), fault).0)
  {
    forall k: Key
      ensures KeyFits(Capture(l, a, Derived(key, ForCapture), fault).0, k)
    {
      assert KeyFits(l, key) && KeyFits(l, k);
      CaptureKeepsKey(l, key, a, fault, k);
    }
  }

  lemma CaptureKeepsLogs(l: Ledger, a: Authorization, key: RailKey, fault: Fault)
    requires LogsFit(l)
    ensures LogsFit(Capture(l, a, key, fault).0)
  {
  }

  lemma CaptureKeepsHolds(l: Ledger, key: Key, a: Authorization, fault: Fault)
    requires HoldsFit(l) && Granted(l, key, a)
    ensures HoldsFit(Capture(l, a, Derived(key, ForCapture), fault).0)
  {
    OtherKeysUntouched(l, key, key, a.id, Captured);
  }

  lemma CaptureExtends(l: Ledger, key: Key, a: Authorization, fault: Fault)
    ensures Extends(l, Capture(l, a, Derived(key, ForCapture), fault).0)
  {
  }

  lemma CaptureKeeps(l: Ledger, key: Key, a: Authorization, fault: Fault)
    requires LedgerFits(l) && Granted(l, key, a) && key in l.accepted
    ensures var l' := Capture(l, a, Derived(key, ForCapture), fault).0;
            LedgerFits(l') && Extends(l, l')
  {
    CaptureKeepsHolds(l, key, a, fault);
    CaptureKeepsKeys(l, key, a, fault);
    CaptureKeepsLogs(l, a, Derived(key, ForCapture), fault);
    CaptureExtends(l, key, a, fault);
  }

  lemma VoidKeepsKeys(l: Ledger, key: Key, a: Authorization, fault: Fault)
    requires HoldsFit(l) && KeysFit(l) && Granted(l, key, a)
    ensures KeysFit(Void(l, a, Derived(key, ForVoid), fault).0)
  {
    forall k: Key
      ensures KeyFits(Void(l, a, Derived(key, ForVoid), fault).0, k)
    {
      assert KeyFits(l, k);
      VoidKeepsKey(l, key, a, fault, k);
    }
  }

  lemma VoidKeepsKey(l: Ledger, key: Key, a: Authorization, fault: Fault, k: Key)
    requires HoldsFit(l) && KeyFits(l, k) && Granted(l, key, a)
    ensures KeyFits(Void(l, a, Derived(key, ForVoid), fault).0, k)
  {
    OtherKeysUntouched(l, key, k, a.id, Voided);
  }

  lemma VoidKeepsHolds(l: Ledger, key: Key, a: Authorization, fault: Fault)
    requires HoldsFit(l) && Granted(l, key, a)
    ensures var l' := Void(l, a, Derived(key, ForVoid), fault).0;
            HoldsFit(l')
  {
    OtherKeysUntouched(l, key, key, a.id, Voided);
  }

  lemma VoidExtends(l: Ledger, key: Key, a: Authorization, fault: Fault)
    ensures Extends(l, Void(l, a, Derived(key, ForVoid), fault).0)
  {
  }

  lemma VoidKeepsLogs(l: Ledger, a: Authorization, key: RailKey, fault: Fault)
    requires LogsFit(l)
    ensures LogsFit(Void(l, a, key, fault).0)
  {
  }

  lemma VoidKeeps(l: Ledger, key: Key, a: Authorization, fault: Fault)
    requires LedgerFits(l) && Granted(l, key, a)
    ensures var l' := Void(l, a, Derived(key, ForVoid), fault).0;
            LedgerFits(l') && Extends(l, l')
  {
    VoidKeepsKeys(l, key, a, fault);
    VoidKeepsHolds(l, key, a, fault);
    VoidExtends(l, key, a, fault);
    VoidKeepsLogs(l, a, Derived(key, ForVoid), fault);
  }

  lemma AdvanceKeeps(l: Ledger, r: SagaRun, fault: Fault)
    requires LedgerFits(l) && RunFits(l, r)
    ensures var (l', p) := Advance(l, r.key, DerivedKeys(r.key), r.amount, r.progress, fault);
            LedgerFits(l') && Extends(l, l') && RunFits(l', r.(progress := p))
  {
    match r.progress
    case Starting => AuthorizeKeeps(l, r.amount, r.key, fault);
    case Authorized(a) => SubmitKeeps(l, r.key, fault);
    case Accepted(a, c) => CaptureKeeps(l, r.key, a, fault);
    case Refused(a) => VoidKeeps(l, r.key, a, fault);
    case Finished(_) =>
  }

  lemma LaterLedgerKeepsRun(l: Ledger, l': Ledger, r: SagaRun)
    requires RunFits(l, r) && HoldsFit(l) && Extends(l, l')
    ensures RunFits(l', r)
  {
  }

  lemma StepKeeps(w: World, e: Event)
    requires Inv(w)
    ensures Inv(Step(w, e)) && Extends(w.ledger, Step(w, e).ledger)
  {
    if e.Call? && e.index < |w.runs| {
      var r := w.runs[e.index];
      AdvanceKeeps(w.ledger, r, e.fault);
      var w' := Step(w, e);
      forall i | 0 <= i < |w'.runs|
        ensures RunFits(w'.ledger, w'.runs[i])
      {
        if i != e.index {
          LaterLedgerKeepsRun(w.ledger, w'.ledger, w.runs[i]);
        }
      }
    }
  }

  lemma {:induction false} RunKeeps(events: seq<Event>)
    ensures Inv(Run(events))
    decreases |events|
  {
    if events != [] {
      RunKeeps(events[..|events| - 1]);
      StepKeeps(Run(events[..|events| - 1]), events[|events| - 1]);
    } else {
      assert forall key: Key :: KeyFits(EMPTY, key);
    }
  }

  // ---------------------------------------------------------------- Payment safety

  /** Over any interleaving of runs with repeated or fresh keys and any failures: a captured
      hold belongs to an accepted submission, no hold is charged twice, none is both charged
      and released, and each key has at most one hold. */
  lemma PaymentSafety(events: seq<Event>, key: Key, id: AuthId)
    ensures var l := Run(events).ledger;
            && (StatusFor(l, key) == Some(Captured) ==> key in l.accepted)
            && l.charges[id] + l.releases[id] <= 1
            && (id in l.charges ==> Known(l, id) && l.holds[id].key.Derived? && l.holds[id].key.base in l.accepted)
            && (forall other: AuthId :: Known(l, id) && Known(l, other) && l.holds[id].key == l.holds[other].key ==>
                  id == other)
  {
    RunKeeps(events);
    var l := Run(events).ledger;
    assert KeyFits(l, key);
    if Known(l, id) {
      assert KeyFits(l, l.holds[id].key.base);
    }
  }

  /** No step takes back an acceptance, and an authorization keeps its amount. */
  lemma AcceptancesStand(events: seq<Event>, e: Event)
    ensures Extends(Run(events).ledger, Run(events + [e]).ledger)
  {
    assert (events + [e])[..|events|] == events;
    RunKeeps(events);
    StepKeeps(Run(events), e);
  }

  // ---------------------------------------------------------------- With any rail keys

  /** A run whose rail keys may be the caller's, shared with other runs or not. */
  datatype KeyedRun = KeyedRun(key: Key, keys: Keys, amount: Money, progress: Progress)

  datatype KeyedWorld = KeyedWorld(ledger: Ledger, runs: seq<KeyedRun>)

  datatype KeyedEvent = KeyedBegin(key: Key, keys: Keys, amount: Money) | KeyedCall(index: nat, fault: Fault)

  function KeyedStep(w: KeyedWorld, e: KeyedEvent): KeyedWorld {
    match e
    case KeyedBegin(key, keys, amount) => w.(runs := w.runs + [KeyedRun(key, keys, amount, Starting)])
    case KeyedCall(i, fault) =>
      if i >= |w.runs| then w else
      var r := w.runs[i];
      var (l, p) := Advance(w.ledger, r.key, r.keys, r.amount, r.progress, fault);
      KeyedWorld(l, w.runs[i := r.(progress := p)])
  }

  function KeyedRunOf(events: seq<KeyedEvent>): KeyedWorld {
    if events == [] then KeyedWorld(EMPTY, [])
    else KeyedStep(KeyedRunOf(events[..|events| - 1]), events[|events| - 1])
  }

  /** The run went on to capture this hold after its submission was accepted. */
  predicate PaysFor(l: Ledger, r: KeyedRun, id: AuthId) {
    && r.key in l.accepted && r.progress.Finished?
    && match r.progress.outcome
       case SubmittedWithPayment(_, receipt) => receipt.authorization == id
       case CaptureFailed(_, a) => a.id == id
       case _ => false
  }

  predicate SubmissionStands(l: Ledger, r: KeyedRun) {
    r.progress.Accepted? ==> r.key in l.accepted
  }

  ghost predicate Charged(w: KeyedWorld, id: AuthId) {
    exists i :: 0 <= i < |w.runs| && PaysFor(w.ledger, w.runs[i], id)
  }

  ghost predicate KeyedInv(w: KeyedWorld) {
    && LogsFit(w.ledger)
    && (forall i :: 0 <= i < |w.runs| ==> SubmissionStands(w.ledger, w.runs[i]))
    && forall id: AuthId :: Known(w.ledger, id) && w.ledger.holds[id].status == Captured ==> Charged(w, id)
  }

  lemma AdvanceKeepsLogs(l: Ledger, r: KeyedRun, fault: Fault)
    requires LogsFit(l)
    ensures LogsFit(Advance(l, r.key, r.keys, r.amount, r.progress, fault).0)
  {
    match r.progress
    case Accepted(a, _) => CaptureKeepsLogs(l, a, r.keys.capture, fault);
    case Refused(a) => VoidKeepsLogs(l, a, r.keys.void, fault);
    case _ =>
  }

  /** One call keeps acceptances, and a hold it charges is one its own run now pays for. */
  lemma AdvanceCharges(l: Ledger, r: KeyedRun, fault: Fault)
    requires SubmissionStands(l, r)
    ensures var (l', p) := Advance(l, r.key, r.keys, r.amount, r.progress, fault);
            && (forall k :: k in l.accepted ==> k in l'.accepted)
            && SubmissionStands(l', r.(progress := p)) && (r.progress.Finished? ==> p == r.progress)
            && forall id: AuthId :: Known(l', id) && l'.holds[id].status == Captured ==>
                 (Known(l, id) && l.holds[id].status == Captured) || PaysFor(l', r.(progress := p), id)
  {
  }

  lemma CallKeeps(w: KeyedWorld, index: nat, fault: Fault)
    requires KeyedInv(w) && index < |w.runs|
    ensures KeyedInv(KeyedStep(w, KeyedCall(index, fault)))
  {
    var r, t := w.runs[index], KeyedStep(w, KeyedCall(index, fault));
    AdvanceKeepsLogs(w.ledger, r, fault);
    AdvanceCharges(w.ledger, r, fault);
    forall id: AuthId | Known(t.ledger, id) && t.ledger.holds[id].status == Captured
      ensures Charged(t, id)
    {
      if Known(w.ledger, id) && w.ledger.holds[id].status == Captured {
        var i :| 0 <= i < |w.runs| && PaysFor(w.ledger, w.runs[i], id);
        assert PaysFor(t.ledger, t.runs[i], id);
      } else {
        assert PaysFor(t.ledger, t.runs[index], id);
      }
    }
  }

  lemma KeyedStepKeeps(w: KeyedWorld, e: KeyedEvent)
    requires KeyedInv(w)
    ensures KeyedInv(KeyedStep(w, e))
  {
    match e
    case KeyedCall(i, fault) => if i < |w.runs| { CallKeeps(w, i, fault); }
    case KeyedBegin(_, _, _) =>
      var t := KeyedStep(w, e);
      forall id: AuthId | Known(t.ledger, id) && t.ledger.holds[id].status == Captured
        ensures Charged(t, id)
      {
        var i :| 0 <= i < |w.runs| && PaysFor(w.ledger, w.runs[i], id);
        assert PaysFor(t.ledger, t.runs[i], id);
      }
  }

  lemma {:induction false} KeyedRunKeeps(events: seq<KeyedEvent>)
    ensures KeyedInv(KeyedRunOf(events))
    decreases |events|
  {
    if events != [] {
      KeyedRunKeeps(events[..|events| - 1]);
      KeyedStepKeeps(KeyedRunOf(events[..|events| - 1]), events[|events| - 1]);
    }
  }

  /** Whatever rail keys the runs use: no hold is charged twice, none is both charged and
      released, and a charged hold is one that some run captured after its own submission was
      accepted. */
  lemma AnyKeysSafety(events: seq<KeyedEvent>, id: AuthId)
    ensures var w := KeyedRunOf(events);
            && w.ledger.charges[id] + w.ledger.releases[id] <= 1
            && (id in w.ledger.charges ==>
                  exists i :: 0 <= i < |w.runs| && PaysFor(w.ledger, w.runs[i], id))
  {
    KeyedRunKeeps(events);
    var w := KeyedRunOf(events);
    if id in w.ledger.charges {
      assert Charged(w, id);
    }
  }

  // ---------------------------------------------------------------- One uninterrupted run

  /** `submitWithPayment` after its configuration checks: at most three calls. */
  function Saga(l: Ledger, key: Key, keys: Keys, amount: Money, first: Fault, second: Fault, third: Fault)
      : (Ledger, Outcome)
  {
    var (l1, p1) := Advance(l, key, keys, amount, Starting, first);
    var (l2, p2) := Advance(l1, key, keys, amount, p1, second);
    var (l3, p3) := Advance(l2, key, keys, amount, p2, third);
    (l3, p3.outcome)
  }

  /** An uninterrupted saga is a run of the interleaving model, so its books are safe too. */
  lemma SagaIsARun(events: seq<Event>, key: Key, amount: Money, first: Fault, second: Fault, third: Fault)
    ensures var w := Run(events);
            var n := |w.runs|;
            Run(events + [Begin(key, amount)] + [Call(n, first)] + [Call(n, second)] + [Call(n, third)]).ledger
            == Saga(w.ledger, key, DerivedKeys(key), amount, first, second, third).0
  {
    var n := |Run(events).runs|;
    var e1 := events + [Begin(key, amount)];
    var e2 := e1 + [Call(n, first)];
    var e3 := e2 + [Call(n, second)];
    var e4 := e3 + [Call(n, third)];
    assert e1[..|events|] == events && e2[..|e1|] == e1 && e3[..|e2|] == e2 && e4[..|e3|] == e3;
    assert Run(e1).runs[n] == SagaRun(key, amount, Starting);
    assert Run(e2) == Step(Run(e1), Call(n, first));
    assert Run(e3) == Step(Run(e2), Call(n, second));
    assert Run(e4) == Step(Run(e3), Call(n, third));
  }

  datatype Kind = PaidAndSubmitted | NotStarted | NotSubmittedReleased | NotSubmittedHeld | SubmittedUnpaid

  function KindOf(o: Outcome): Kind {
    match o
    case SubmittedWithPayment(_, _) => PaidAndSubmitted
    case AuthorizeFailed => NotStarted
    case SubmitFailedPaymentVoided(_) => NotSubmittedReleased
    case VoidFailedAfterSubmitFailure(_) => NotSubmittedHeld
    case CaptureFailed(_, _) => SubmittedUnpaid
  }

  /** What the books say about a key; each of the five outcomes announces one of these. */
  function KindInBooks(l: Ledger, key: Key): Option<Kind> {
    match (key in l.accepted, StatusFor(l, key))
    case (true, Some(Captured)) => Some(PaidAndSubmitted)
    case (true, Some(Held)) => Some(SubmittedUnpaid)
    case (false, None) => Some(NotStarted)
    case (false, Some(Voided)) => Some(NotSubmittedReleased)
    case (false, Some(Held)) => Some(NotSubmittedHeld)
    case _ => None
  }

  predicate Fresh(l: Ledger, key: Key) {
    key !in l.accepted && StatusFor(l, key).None?
  }

  /** A call took effect but its reply was lost. */
  predicate ReplyLost(first: Fault, second: Fault, third: Fault) {
    first.After? || (first.NoFault? && (second.After? || third.After?))
  }

  /** For a fresh key the announced outcome is what the books say if and only if no call
      failed after taking effect. */
  lemma OutcomeTruth(events: seq<Event>, key: Key, amount: Money, first: Fault, second: Fault, third: Fault)
    requires Fresh(Run(events).ledger, key)
    ensures var (l', o) := Saga(Run(events).ledger, key, DerivedKeys(key), amount, first, second, third);
            Some(KindOf(o)) == KindInBooks(l', key) <==> !ReplyLost(first, second, third)
  {
    var l := Run(events).ledger;
    RunKeeps(events);
    FirstCall(l, key, amount, first);
    if first.NoFault? {
      var (l1, p1) := Advance(l, key, DerivedKeys(key), amount, Starting, first);
      SecondCall(l1, key, amount, p1, second);
      var (l2, p2) := Advance(l1, key, DerivedKeys(key), amount, p1, second);
      assert KeyFits(l2, key);
      LastCall(l2, key, amount, p2, third);
    }
  }

  lemma FirstCall(l: Ledger, key: Key, amount: Money, fault: Fault)
    requires LedgerFits(l) && Fresh(l, key)
    ensures var (l', p') := Advance(l, key, DerivedKeys(key), amount, Starting, fault);
            && LedgerFits(l') && RunFits(l', SagaRun(key, amount, p')) && key !in l'.accepted
            && StatusFor(l', key) == (if fault.Before? then None else Some(Held))
            && if fault.NoFault? then p'.Authorized? else p' == Finished(AuthorizeFailed)
  {
    AuthorizeKeeps(l, amount, key, fault);
    assert KeyFits(l, key);
  }

  lemma SecondCall(l: Ledger, key: Key, amount: Money, p: Progress, fault: Fault)
    requires LedgerFits(l) && p.Authorized? && RunFits(l, SagaRun(key, amount, p))
    requires key !in l.accepted && StatusFor(l, key) == Some(Held)
    ensures var (l', p') := Advance(l, key, DerivedKeys(key), amount, p, fault);
            && LedgerFits(l') && RunFits(l', SagaRun(key, amount, p'))
            && (key in l'.accepted <==> !fault.Before?) && StatusFor(l', key) == Some(Held)
            && if fault.NoFault? then p'.Accepted? else p'.Refused?
  {
    SubmitKeeps(l, key, fault);
  }

  /** The third call changes its own key's hold, as far as it takes effect. */
  lemma LastCall(l: Ledger, key: Key, amount: Money, p: Progress, fault: Fault)
    requires HoldsFit(l) && KeyFits(l, key) && StatusFor(l, key) == Some(Held) && RunFits(l, SagaRun(key, amount, p))
    requires p.Accepted? || p.Refused?
    ensures var (l', p') := Advance(l, key, DerivedKeys(key), amount, p, fault);
            && p'.Finished? && l'.accepted == l.accepted
            && StatusFor(l', key) == Some(if fault.Before? then Held else if p.Accepted? then Captured else Voided)
            && KindOf(p'.outcome) == (if p.Accepted?
                                      then if fault.NoFault? then PaidAndSubmitted else SubmittedUnpaid
                                      else if fault.NoFault? then NotSubmittedReleased else NotSubmittedHeld)
  {
    if p.Accepted? {
      LastCapture(l, key, p.authorization, fault);
    } else {
      LastVoid(l, key, p.authorization, fault);
    }
  }

  lemma LastCapture(l: Ledger, key: Key, a: Authorization, fault: Fault)
    requires HoldsFit(l) && KeyFits(l, key) && Granted(l, key, a) && StatusFor(l, key) == Some(Held)
    ensures var (l', reply) := Capture(l, a, Derived(key, ForCapture), fault);
            && l'.accepted == l.accepted && (reply.Returned? <==> fault.NoFault?)
            && StatusFor(l', key) == Some(if fault.Before? then Held else Captured)
  {
    OtherKeysUntouched(l, key, key, a.id, Captured);
  }

  lemma LastVoid(l: Ledger, key: Key, a: Authorization, fault: Fault)
    requires HoldsFit(l) && KeyFits(l, key) && Granted(l, key, a) && StatusFor(l, key) == Some(Held)
    ensures var (l', reply) := Void(l, a, Derived(key, ForVoid), fault);
            && l'.accepted == l.accepted && (reply.Returned? <==> fault.NoFault?)
            && StatusFor(l', key) == Some(if fault.Before? then Held else Voided)
  {
    OtherKeysUntouched(l, key, key, a.id, Voided);
  }

  predicate Paid(l: Ledger, key: Key) {
    StatusFor(l, key) == Some(Captured)
  }

  /** From any reachable ledger, what one run leaves: the key is accepted if it was or if this
      run's submission took effect, and paid if it was or if this run's capture took effect. */
  lemma WhatARunLeaves(events: seq<Event>, key: Key, amount: Money, first: Fault, second: Fault, third: Fault)
    ensures var l := Run(events).ledger;
            var (l', _) := Saga(l, key, DerivedKeys(key), amount, first, second, third);
            && (key in l'.accepted <==> key in l.accepted || (first.NoFault? && !second.Before?))
            && (Paid(l', key) <==>
                  || Paid(l, key)
                  || (first.NoFault? && second.NoFault? && !third.Before? && StatusFor(l, key) != Some(Voided)))
  {
    var l := Run(events).ledger;
    assert LedgerFits(l) by { RunKeeps(events); }
    AuthorizeLeaves(l, key, amount, first);
    if first.NoFault? {
      var (l1, p1) := Advance(l, key, DerivedKeys(key), amount, Starting, first);
      SubmitLeaves(l1, key, amount, p1, second);
      var (l2, p2) := Advance(l1, key, DerivedKeys(key), amount, p1, second);
      LastCallLeaves(l2, key, amount, p2, third);
    }
  }

  lemma AuthorizeLeaves(l: Ledger, key: Key, amount: Money, fault: Fault)
    requires LedgerFits(l)
    ensures var (l', p') := Advance(l, key, DerivedKeys(key), amount, Starting, fault);
            && LedgerFits(l') && RunFits(l', SagaRun(key, amount, p'))
            && l'.accepted == l.accepted && (p'.Authorized? <==> fault.NoFault?) && (p'.Finished? <==> !fault.NoFault?)
            && StatusFor(l', key) == if StatusFor(l, key).Some? || fault.Before? then StatusFor(l, key) else Some(Held)
  {
    AuthorizeKeeps(l, amount, key, fault);
  }

  lemma SubmitLeaves(l: Ledger, key: Key, amount: Money, p: Progress, fault: Fault)
    requires LedgerFits(l) && p.Authorized? && RunFits(l, SagaRun(key, amount, p))
    ensures var (l', p') := Advance(l, key, DerivedKeys(key), amount, p, fault);
            && LedgerFits(l') && RunFits(l', SagaRun(key, amount, p'))
            && (key in l'.accepted <==> key in l.accepted || !fault.Before?) && StatusFor(l', key) == StatusFor(l, key)
            && (if fault.NoFault? then p'.Accepted? else p'.Refused?)
  {
    SubmitKeeps(l, key, fault);
  }

  lemma LastCallLeaves(l: Ledger, key: Key, amount: Money, p: Progress, fault: Fault)
    requires LedgerFits(l) && (p.Accepted? || p.Refused?) && RunFits(l, SagaRun(key, amount, p))
    ensures var (l', p') := Advance(l, key, DerivedKeys(key), amount, p, fault);
            && p'.Finished? && l'.accepted == l.accepted
            && (Paid(l', key) <==>
                  Paid(l, key) || (p.Accepted? && !fault.Before? && StatusFor(l, key) == Some(Held)))
  {
    assert KeyFits(l, key);
    if p.Accepted? {
      CaptureLeaves(l, key, p.authorization, fault);
    } else {
      VoidLeaves(l, key, p.authorization, fault);
    }
  }

  lemma CaptureLeaves(l: Ledger, key: Key, a: Authorization, fault: Fault)
    requires HoldsFit(l) && KeyFits(l, key) && Granted(l, key, a)
    ensures var l' := Capture(l, a, Derived(key, ForCapture), fault).0;
            && l'.accepted == l.accepted
            && (Paid(l', key) <==> Paid(l, key) || (!fault.Before? && StatusFor(l, key) == Some(Held)))
  {
    OtherKeysUntouched(l, key, key, a.id, Captured);
  }

  lemma VoidLeaves(l: Ledger, key: Key, a: Authorization, fault: Fault)
    requires HoldsFit(l) && KeyFits(l, key) && Granted(l, key, a)
    ensures var l' := Void(l, a, Derived(key, ForVoid), fault).0;
            l'.accepted == l.accepted && (Paid(l', key) <==> Paid(l, key))
  {
    OtherKeysUntouched(l, key, key, a.id, Voided);
  }

  /** When a fresh key ends as a successful submission without a charge: exactly when the
      submission took effect but its reply was lost, or the capture did not take effect. */
  lemma UnpaidSubmissionIff(events: seq<Event>, key: Key, amount: Money, first: Fault, second: Fault, third: Fault)
    requires Fresh(Run(events).ledger, key)
    ensures var (l', _) := Saga(Run(events).ledger, key, DerivedKeys(key), amount, first, second, third);
            (key in l'.accepted && !Paid(l', key))
            <==> first.NoFault? && (second.After? || (second.NoFault? && third.Before?))
  {
    WhatARunLeaves(events, key, amount, first, second, third);
  }

  /** A run whose submission fails leaves its hold voided; repeated without faults it ends
      accepted, unpaid and announced as `capture-failed`. */
  lemma VoidedThenRepeated(key: Key, amount: Money)
    ensures exists events: seq<Event> ::
              var l := Run(events).ledger;
              && StatusFor(l, key) == Some(Voided) && key !in l.accepted
              && var (l', o) := Saga(l, key, DerivedKeys(key), amount, NoFault, NoFault, NoFault);
                 key in l'.accepted && !Paid(l', key) && o.CaptureFailed?
  {
    assert Run([]).ledger == EMPTY && Fresh(EMPTY, key);
    var events: seq<Event> := [] + [Begin(key, amount)] + [Call(0, NoFault)] + [Call(0, Before)] + [Call(0, NoFault)];
    SagaIsARun([], key, amount, NoFault, Before, NoFault);
    FreshVoid(key, amount);
    Recovery(events, key, amount);
  }

  lemma FreshVoid(key: Key, amount: Money)
    ensures var (l, _) := Saga(EMPTY, key, DerivedKeys(key), amount, NoFault, Before, NoFault);
            StatusFor(l, key) == Some(Voided) && key !in l.accepted
  {
    var keys := DerivedKeys(key);
    var (l1, p1) := Advance(EMPTY, key, keys, amount, Starting, NoFault);
    assert p1.Authorized? && StatusFor(l1, key) == Some(Held);
    var (l2, p2) := Advance(l1, key, keys, amount, p1, Before);
    assert l2 == l1 && p2.Refused?;
    var (l3, p3) := Advance(l2, key, keys, amount, p2, NoFault);
    assert StatusFor(l3, key) == Some(Voided);
  }

  /** Running the same key again without faults, from whatever earlier runs left behind: the
      submission ends accepted with its first confirmation, and paid exactly once, unless the
      hold had been voided; then it ends accepted with `capture-failed` and unpaid. */
  lemma Recovery(events: seq<Event>, key: Key, amount: Money)
    ensures var l := Run(events).ledger;
            var (l', o) := Saga(l, key, DerivedKeys(key), amount, NoFault, NoFault, NoFault);
            && key in l'.accepted && (key in l.accepted ==> l'.accepted[key] == l.accepted[key])
            && HoldFor(l', key).Some? && (HoldFor(l, key).Some? ==> HoldFor(l', key) == HoldFor(l, key))
            && (if StatusFor(l, key) == Some(Voided)
                then StatusFor(l', key) == Some(Voided) && o.CaptureFailed? && o.confirmation == l'.accepted[key]
                else StatusFor(l', key) == Some(Captured) && o.SubmittedWithPayment?
                     && o.confirmation == l'.accepted[key]
                     && o.receipt.authorization == HoldFor(l', key).value
                     && l'.charges[o.receipt.authorization] == 1)
  {
    var l := Run(events).ledger;
    RunKeeps(events);
    assert KeyFits(l, key);
    var keys := DerivedKeys(key);
    var (l1, p1) := Advance(l, key, keys, amount, Starting, NoFault);
    AuthorizeKeeps(l, amount, key, NoFault);
    assert KeyFits(l1, key);
    assert StatusFor(l1, key) == if StatusFor(l, key).Some? then StatusFor(l, key) else Some(Held);
    var (l2, p2) := Advance(l1, key, keys, amount, p1, NoFault);
    SubmitKeeps(l1, key, NoFault);
    assert StatusFor(l2, key) == StatusFor(l1, key);
    CaptureAgain(l2, key, amount, p2);
  }

  lemma CaptureAgain(l: Ledger, key: Key, amount: Money, p: Progress)
    requires LedgerFits(l) && p.Accepted? && RunFits(l, SagaRun(key, amount, p))
    ensures var (l', p') := Advance(l, key, DerivedKeys(key), amount, p, NoFault);
            && p'.Finished? && l'.accepted == l.accepted && HoldFor(l', key) == HoldFor(l, key)
            && (if StatusFor(l, key) == Some(Voided)
                then StatusFor(l', key) == Some(Voided) && p'.outcome == CaptureFailed(p.confirmation, p.authorization)
                else StatusFor(l', key) == Some(Captured)
                     && p'.outcome == SubmittedWithPayment(p.confirmation,
                                        Receipt(HoldFor(l, key).value, p.authorization.amount))
                     && l'.charges[HoldFor(l, key).value] == 1)
  {
    assert KeyFits(l, key);
    CaptureKeeps(l, key, p.authorization, NoFault);
  }

  // ---------------------------------------------------------------- submitWithPayment

  datatype ConfigurationError = PaymentDisabled | AmountMissing | TokenMissing | KeyNotUuid

  datatype Input = Input(
    paymentEnabled: bool, demo: bool, amount: Option<Money>,
    methodToken: Option<string>, formToken: Option<string>,
    key: Key, authorizeKey: Option<string>, captureKey: Option<string>, voidKey: Option<string>)

  const DEMO_METHOD_TOKEN := "demo-method-stub"

  /** The caller's token, else the form's, else the stub in demo mode only. */
  function ReadMethodToken(input: Input): (r: Result<string, ConfigurationError>)
    ensures r.Ok? ==> r.value != ""
    ensures r.Ok? && !input.demo ==> input.methodToken == Some(r.value) || input.formToken == Some(r.value)
    ensures r.Err? <==> !input.demo && input.methodToken in {None, Some("")} && input.formToken in {None, Some("")}
  {
    if input.methodToken.Some? && input.methodToken.value != "" then Ok(input.methodToken.value)
    else if input.formToken.Some? && input.formToken.value != "" then Ok(input.formToken.value)
    else if input.demo then Ok(DEMO_METHOD_TOKEN)
    else Err(TokenMissing)
  }

  function ResolveRailKey(given: Option<string>, base: Key, suffix: Suffix, isUuid: string -> bool)
      : (r: Result<RailKey, ConfigurationError>)
  {
    match given
    case None => Ok(Derived(base, suffix))
    case Some(text) => if isUuid(text) then Ok(Given(text)) else Err(KeyNotUuid)
  }

  /** Everything checked before the first call, in the source's order. */
  function Configure(input: Input, isUuid: string -> bool): Result<(Money, Keys), ConfigurationError> {
    if !input.paymentEnabled then Err(PaymentDisabled) else
    if input.amount.None? then Err(AmountMissing) else
    if ReadMethodToken(input).Err? then Err(TokenMissing) else
    var a := ResolveRailKey(input.authorizeKey, input.key, ForAuthorize, isUuid);
    var c := ResolveRailKey(input.captureKey, input.key, ForCapture, isUuid);
    var v := ResolveRailKey(input.voidKey, input.key, ForVoid, isUuid);
    if a.Err? || c.Err? || v.Err? then Err(KeyNotUuid) else
    Ok((input.amount.value, Keys(a.value, c.value, v.value)))
  }

  /** An override is used when given; the call's own derived key otherwise. */
  function Chosen(given: Option<string>, base: Key, suffix: Suffix): RailKey {
    match given
    case None => Derived(base, suffix)
    case Some(text) => Given(text)
  }

  predicate NoToken(input: Input) {
    !input.demo && input.methodToken in {None, Some("")} && input.formToken in {None, Some("")}
  }

  predicate BadOverride(input: Input, isUuid: string -> bool) {
    exists given :: given in [input.authorizeKey, input.captureKey, input.voidKey]
                    && given.Some? && !isUuid(given.value)
  }

  /** The first thing that is wrong with the input, if anything is. */
  ghost predicate Complaint(input: Input, isUuid: string -> bool, e: ConfigurationError) {
    match e
    case PaymentDisabled => !input.paymentEnabled
    case AmountMissing => input.paymentEnabled && input.amount.None?
    case TokenMissing => input.paymentEnabled && input.amount.Some? && NoToken(input)
    case KeyNotUuid => input.paymentEnabled && input.amount.Some? && !NoToken(input) && BadOverride(input, isUuid)
  }

  ghost predicate InOrder(input: Input, isUuid: string -> bool) {
    input.paymentEnabled && input.amount.Some? && !NoToken(input) && !BadOverride(input, isUuid)
  }

  /** A configuration in order yields the form's own amount and each call its own key. */
  lemma ConfigureSays(input: Input, isUuid: string -> bool)
    ensures Configure(input, isUuid).Ok? <==> InOrder(input, isUuid)
    ensures forall e :: Configure(input, isUuid) == Err(e) <==> Complaint(input, isUuid, e)
    ensures InOrder(input, isUuid) ==>
              Configure(input, isUuid).value
              == (input.amount.value, Keys(Chosen(input.authorizeKey, input.key, ForAuthorize),
                                           Chosen(input.captureKey, input.key, ForCapture),
                                           Chosen(input.voidKey, input.key, ForVoid)))
  {
    var givens := [input.authorizeKey, input.captureKey, input.voidKey];
    assert givens[0] in givens && givens[1] in givens && givens[2] in givens;
  }

  /** On a fresh key with derived rail keys and no faults the submission is accepted and the
      amount captured, in the books and on the receipt alike. */
  lemma FreshPaymentCharges(l: Ledger, key: Key, amount: Money)
    requires LedgerFits(l) && Fresh(l, key)
    ensures var (l', o) := Saga(l, key, DerivedKeys(key), amount, NoFault, NoFault, NoFault);
            && key in l'.accepted && Paid(l', key) && l'.holds[HoldFor(l', key).value].amount == amount
            && o.SubmittedWithPayment? && o.confirmation == l'.accepted[key]
            && o.receipt == Receipt(HoldFor(l', key).value, amount)
            && l'.charges[o.receipt.authorization] == l.charges[o.receipt.authorization] + 1
  {
    var (l1, p1) := Advance(l, key, DerivedKeys(key), amount, Starting, NoFault);
    FreshAuthorize(l, key, amount);
    var (l2, p2) := Advance(l1, key, DerivedKeys(key), amount, p1, NoFault);
    SubmitKeeps(l1, key, NoFault);
    FreshCapture(l2, key, p1.authorization);
  }

  lemma FreshAuthorize(l: Ledger, key: Key, amount: Money)
    requires LedgerFits(l) && Fresh(l, key)
    ensures var (l1, reply) := Authorize(l, amount, Derived(key, ForAuthorize), NoFault);
            && LedgerFits(l1) && reply.Returned? && reply.value.amount == amount && Granted(l1, key, reply.value)
            && StatusFor(l1, key) == Some(Held) && l1.charges == l.charges
  {
    AuthorizeKeeps(l, amount, key, NoFault);
    assert KeyFits(l, key);
  }

  lemma FreshCapture(l: Ledger, key: Key, a: Authorization)
    requires LedgerFits(l) && Granted(l, key, a) && StatusFor(l, key) == Some(Held)
    ensures var (l', reply) := Capture(l, a, Derived(key, ForCapture), NoFault);
            && reply == Returned(Receipt(a.id, a.amount)) && l'.accepted == l.accepted
            && HoldFor(l', key) == Some(a.id) && Paid(l', key) && l'.holds[a.id].amount == a.amount
            && l'.charges[a.id] == l.charges[a.id] + 1
  {
    assert KeyFits(l, key);
    OtherKeysUntouched(l, key, key, a.id, Captured);
  }

  /** Only these keys have been added to the rail's books. */
  predicate UsesOnly(l: Ledger, l': Ledger, keys: Keys) {
    && l'.authorizations.Keys <= l.authorizations.Keys + {keys.authorize}
    && l'.captures.Keys <= l.captures.Keys + {keys.capture} && l'.voids <= l.voids + {keys.void}
  }

  lemma AuthorizeUses(l: Ledger, amount: Money, key: RailKey, fault: Fault)
    ensures var l' := Authorize(l, amount, key, fault).0;
            && (!fault.Before? ==> key in l'.authorizations)
            && l'.authorizations.Keys <= l.authorizations.Keys + {key}
            && l'.captures == l.captures && l'.voids == l.voids
  {
  }

  lemma SubmitUses(l: Ledger, key: Key, fault: Fault)
    ensures var l' := Submit(l, key, fault).0;
            l'.authorizations == l.authorizations && l'.captures == l.captures && l'.voids == l.voids
  {
  }

  lemma CaptureUses(l: Ledger, a: Authorization, key: RailKey, fault: Fault)
    ensures var (l', reply) := Capture(l, a, key, fault);
            && (reply.Returned? ==> key in l'.captures && l'.captures[key] == reply.value)
            && l'.captures.Keys <= l.captures.Keys + {key}
            && l'.authorizations == l.authorizations && l'.voids == l.voids
  {
  }

  lemma VoidUses(l: Ledger, a: Authorization, key: RailKey, fault: Fault)
    ensures var (l', reply) := Void(l, a, key, fault);
            && (reply.Returned? ==> key in l'.voids) && l'.voids <= l.voids + {key}
            && l'.authorizations == l.authorizations && l'.captures == l.captures
  {
  }

  /** Whichever rail call takes effect has used its own key, and no other key is used. */
  lemma SagaUsesItsKeys(l: Ledger, key: Key, keys: Keys, amount: Money, first: Fault, second: Fault, third: Fault)
    ensures var (l', o) := Saga(l, key, keys, amount, first, second, third);
            && UsesOnly(l, l', keys) && (!first.Before? ==> keys.authorize in l'.authorizations)
            && (o.SubmittedWithPayment? ==> keys.capture in l'.captures && l'.captures[keys.capture] == o.receipt)
            && (o.SubmitFailedPaymentVoided? ==> keys.void in l'.voids)
  {
    AuthorizeUses(l, amount, keys.authorize, first);
    var (l1, p1) := Advance(l, key, keys, amount, Starting, first);
    if p1.Authorized? {
      SubmitUses(l1, key, second);
      var (l2, p2) := Advance(l1, key, keys, amount, p1, second);
      LastUses(l2, key, keys, amount, p2, third);
    }
  }

  lemma LastUses(l: Ledger, key: Key, keys: Keys, amount: Money, p: Progress, fault: Fault)
    requires p.Accepted? || p.Refused?
    ensures var (l', p') := Advance(l, key, keys, amount, p, fault);
            && p'.Finished? && l'.authorizations == l.authorizations && UsesOnly(l, l', keys)
            && (p'.outcome.SubmittedWithPayment? ==>
                  keys.capture in l'.captures && l'.captures[keys.capture] == p'.outcome.receipt)
            && (p'.outcome.SubmitFailedPaymentVoided? ==> keys.void in l'.voids)
  {
    match p
    case Accepted(a, _) => CaptureUses(l, a, keys.capture, fault);
    case Refused(a) => VoidUses(l, a, keys.void, fault);
  }

  /** Without overrides two submissions never share a rail call's key. */
  lemma DerivedKeysAreDisjoint(i: Input, j: Input, isUuid: string -> bool)
    requires Configure(i, isUuid).Ok? && Configure(j, isUuid).Ok? && i.key != j.key
    requires i.authorizeKey.None? && i.captureKey.None? && i.voidKey.None?
    requires j.authorizeKey.None? && j.captureKey.None? && j.voidKey.None?
    ensures var a, b := Configure(i, isUuid).value.1, Configure(j, isUuid).value.1;
            {a.authorize, a.capture, a.void} !! {b.authorize, b.capture, b.void}
    ensures Configure(i, isUuid).value.1 == DerivedKeys(i.key)
  {
  }

  /** The rail and the transport, each call failing where `fault` says. */
  class PaymentEnvironment {
    var ledger: Ledger

    constructor ()
      ensures ledger == EMPTY
    {
      ledger := EMPTY;
    }

    method AuthorizeHold(amount: Money, key: RailKey, fault: Fault) returns (reply: Reply<Authorization>)
      modifies this
      ensures (ledger, reply) == Authorize(old(ledger), amount, key, fault)
    {
      if fault.Before? {
        return Threw;
      }
      var authorization: Authorization;
      if key in ledger.authorizations && Known(ledger, ledger.authorizations[key]) {
        var id := ledger.authorizations[key];
        authorization := Authorization(id, ledger.holds[id].amount);
      } else {
        authorization := Authorization(|ledger.holds|, amount);
        ledger := ledger.(holds := ledger.holds + [Hold(key, amount, Held)],
                          authorizations := ledger.authorizations[key := authorization.id]);
      }
      reply := if fault.NoFault? then Returned(authorization) else Threw;
    }

    method SubmitHandoff(key: Key, fault: Fault) returns (reply: Reply<Confirmation>)
      modifies this
      ensures (ledger, reply) == Submit(old(ledger), key, fault)
    {
      if fault.Before? {
        return Threw;
      }
      if key !in ledger.accepted {
        ledger := ledger.(accepted := ledger.accepted[key := ledger.nextConfirmation],
                          nextConfirmation := ledger.nextConfirmation + 1);
      }
      reply := if fault.NoFault? then Returned(ledger.accepted[key]) else Threw;
    }

    method CaptureHold(a: Authorization, key: RailKey, fault: Fault) returns (reply: Reply<Receipt>)
      modifies this
      ensures (ledger, reply) == Capture(old(ledger), a, key, fault)
    {
      if fault.Before? {
        return Threw;
      }
      if key !in ledger.captures {
        if !Known(ledger, a.id) || ledger.holds[a.id].status != Held {
          return Threw;
        }
        ledger := ledger.(holds := ledger.holds[a.id := ledger.holds[a.id].(status := Captured)],
                          captures := ledger.captures[key := Receipt(a.id, a.amount)],
                          charges := ledger.charges + multiset{a.id});
      }
      reply := if fault.NoFault? then Returned(ledger.captures[key]) else Threw;
    }

    method VoidHold(a: Authorization, key: RailKey, fault: Fault) returns (reply: Reply<()>)
      modifies this
      ensures (ledger, reply) == Void(old(ledger), a, key, fault)
    {
      if fault.Before? {
        return Threw;
      }
      if key !in ledger.voids {
        if Known(ledger, a.id) && ledger.holds[a.id].status == Captured {
          return Threw;
        }
        if Known(ledger, a.id) && ledger.holds[a.id].status == Held {
          ledger := ledger.(holds := ledger.holds[a.id := ledger.holds[a.id].(status := Voided)],
                            releases := ledger.releases + multiset{a.id});
        }
        ledger := ledger.(voids := ledger.voids + {key});
      }
      reply := if fault.NoFault? then Returned(()) else Threw;
    }
  }

  /** The ordinary case: a fresh key, no overrides, nothing wrong with the input, no faults. */
  ghost predicate Charges(l: Ledger, input: Input, isUuid: string -> bool, first: Fault, second: Fault, third: Fault) {
    && LedgerFits(l) && Fresh(l, input.key) && InOrder(input, isUuid)
    && input.authorizeKey.None? && input.captureKey.None? && input.voidKey.None?
    && first.NoFault? && second.NoFault? && third.NoFault?
  }

  lemma SubmissionSays(l: Ledger, input: Input, isUuid: string -> bool, first: Fault, second: Fault, third: Fault)
    ensures InOrder(input, isUuid) ==>
              var (amount, keys) := Configure(input, isUuid).value;
              var (l', o) := Saga(l, input.key, keys, amount, first, second, third);
              && (!first.Before? ==> Chosen(input.authorizeKey, input.key, ForAuthorize) in l'.authorizations)
              && (o.SubmittedWithPayment? ==> Chosen(input.captureKey, input.key, ForCapture) in l'.captures)
              && (o.SubmitFailedPaymentVoided? ==> Chosen(input.voidKey, input.key, ForVoid) in l'.voids)
    ensures Charges(l, input, isUuid, first, second, third) ==>
              var (amount, keys) := Configure(input, isUuid).value;
              var (l', o) := Saga(l, input.key, keys, amount, first, second, third);
              && input.key in l'.accepted && Paid(l', input.key)
              && l'.holds[HoldFor(l', input.key).value].amount == input.amount.value
              && o == SubmittedWithPayment(l'.accepted[input.key],
                                           Receipt(HoldFor(l', input.key).value, input.amount.value))
  {
    ConfigureSays(input, isUuid);
    if InOrder(input, isUuid) {
      var (amount, keys) := Configure(input, isUuid).value;
      SagaUsesItsKeys(l, input.key, keys, amount, first, second, third);
      if Charges(l, input, isUuid, first, second, third) {
        FreshPaymentCharges(l, input.key, amount);
      }
    }
  }

  /** The orchestration: a configuration error touches nothing, else the saga is run. */
  method SubmitWithPayment(env: PaymentEnvironment, input: Input, isUuid: string -> bool,
                           first: Fault, second: Fault, third: Fault)
      returns (result: Result<Outcome, ConfigurationError>)
    modifies env
    ensures Configure(input, isUuid).Err? ==> result == Err(Configure(input, isUuid).error)
                                              && env.ledger == old(env.ledger)
    ensures Configure(input, isUuid).Ok? ==>
              var (amount, keys) := Configure(input, isUuid).value;
              result.Ok? && (env.ledger, result.value)
                            == Saga(old(env.ledger), input.key, keys, amount, first, second, third)
    ensures forall e :: result == Err(e) <==> Complaint(input, isUuid, e)
    ensures result.Err? ==> env.ledger == old(env.ledger)
    ensures result.Ok? ==>
              && (!first.Before? ==> Chosen(input.authorizeKey, input.key, ForAuthorize) in env.ledger.authorizations)
              && (result.value.SubmittedWithPayment? ==>
                    Chosen(input.captureKey, input.key, ForCapture) in env.ledger.captures)
              && (result.value.SubmitFailedPaymentVoided? ==>
                    Chosen(input.voidKey, input.key, ForVoid) in env.ledger.voids)
    ensures Charges(old(env.ledger), input, isUuid, first, second, third) ==>
              && input.key in env.ledger.accepted && Paid(env.ledger, input.key)
              && env.ledger.holds[HoldFor(env.ledger, input.key).value].amount == input.amount.value
              && result == Ok(SubmittedWithPayment(env.ledger.accepted[input.key],
                                                   Receipt(HoldFor(env.ledger, input.key).value, input.amount.value)))
  {
    ConfigureSays(input, isUuid);
    SubmissionSays(env.ledger, input, isUuid, first, second, third);
    var configured := Configure(input, isUuid);
    if configured.Err? {
      return Err(configured.error);
    }
    var (amount, keys) := configured.value;
    var authorization := env.AuthorizeHold(amount, keys.authorize, first);
    if authorization.Threw? {
      return Ok(AuthorizeFailed);
    }
    var confirmation := env.SubmitHandoff(input.key, second);
    if confirmation.Threw? {
      var released := env.VoidHold(authorization.value, keys.void, third);
      if released.Threw? {
        return Ok(VoidFailedAfterSubmitFailure(authorization.value));
      }
      return Ok(SubmitFailedPaymentVoided(authorization.value));
    }
    var receipt := env.CaptureHold(authorization.value, keys.capture, third);
    if receipt.Threw? {
      return Ok(CaptureFailed(confirmation.value, authorization.value));
    }
    return Ok(SubmittedWithPayment(confirmation.value, receipt.value));
  }
}
