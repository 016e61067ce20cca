/** The multi-party signing state machine, its saved draft and the aggregate response.

    `hash` is the response hash of the secure digest service: none when it is unavailable. */
module MultiPartySigning {
  import opened Common
  import opened Text
  import opened Json
  import opened MultiParty

  predicate IsFormResponse(j: Json) {
    && StringMember(j, "$formspecResponse") == Some("1.0")
    && Member(j, "data").Some? && Member(j, "data").value.Obj?
  }

  type FormResponse = j: Json | IsFormResponse(j)
    witness Obj(map["$formspecResponse" := Str("1.0"), "data" := Obj(map[])])

  function Data(r: FormResponse): map<string, Json> {
    Member(r, "data").value.fields
  }

  datatype Signature = Signature(
    partyRef: string, roleId: string, subjectRef: string, responseRef: string, responseHash: string, signedAt: string)

  datatype Progress = Progress(activePartyRef: string, signatures: seq<Signature>)

  datatype Stored = Stored(partyRef: string, response: FormResponse)

  datatype State = State(progress: Progress, responses: seq<Stored>)

  datatype SignError =
    | NoRequiredSlot | NotAuthenticated | AlreadySigned | SameIdentity | UnknownParty | HashUnavailable | MissingSlice

  type Hash = FormResponse -> Option<string>

  // ---------------------------------------------------------------- The operations

  /** `createMultiPartyPersistedState`. */
  function Start(slots: seq<Slot>): Result<State, SignError> {
    if slots == [] then Err(NoRequiredSlot) else Ok(State(Progress(slots[0].partyRef, []), []))
  }

  predicate Signed(signatures: seq<Signature>, partyRef: string) {
    exists i :: 0 <= i < |signatures| && signatures[i].partyRef == partyRef
  }

  function FindRef(slots: seq<Slot>, partyRef: string): Option<Slot> {
    Find(slots, (s: Slot) => s.partyRef == partyRef)
  }

  function FindUnsigned(slots: seq<Slot>, signatures: seq<Signature>): Option<Slot> {
    Find(slots, (s: Slot) => !Signed(signatures, s.partyRef))
  }

  /** `assertMultiPartySignerCanSubmit`, with its checks in order. */
  function CanSubmit(slots: seq<Slot>, progress: Progress, claim: Option<string>): Result<Slot, SignError> {
    if claim.None? then Err(NotAuthenticated)
    else if Signed(progress.signatures, progress.activePartyRef) then Err(AlreadySigned)
    else if exists i :: 0 <= i < |progress.signatures|
              && progress.signatures[i].subjectRef == claim.value
              && progress.signatures[i].partyRef != progress.activePartyRef then Err(SameIdentity)
    else match FindRef(slots, progress.activePartyRef)
      case None => Err(UnknownParty)
      case Some(slot) => Ok(slot)
  }

  function ResponseRef(response: FormResponse, key: string): string {
    "response:" + (if StringMember(response, "id").Some? then StringMember(response, "id").value else key)
  }

  /** `recordMultiPartySignerState`. */
  function RecordSigner(hash: Hash, slots: seq<Slot>, st: State, claim: Option<string>, key: string,
                        response: FormResponse, now: string): Result<State, SignError> {
    match CanSubmit(slots, st.progress, claim)
    case Err(e) => Err(e)
    case Ok(slot) =>
      match hash(response)
      case None => Err(HashUnavailable)
      case Some(h) =>
        var signatures := st.progress.signatures
          + [Signature(slot.partyRef, slot.roleId, claim.value, ResponseRef(response, key), h, now)];
        var next := FindUnsigned(slots, signatures);
        Ok(State(Progress(if next.Some? then next.value.partyRef else slot.partyRef, signatures),
                 Filter(st.responses, (s: Stored) => s.partyRef != st.progress.activePartyRef)
                 + [Stored(st.progress.activePartyRef, response)]))
  }

  /** `multiPartyComplete`. */
  predicate Complete(slots: seq<Slot>, progress: Progress) {
    forall i :: 0 <= i < |slots| ==> Signed(progress.signatures, slots[i].partyRef)
  }

  // ---------------------------------------------------------------- Safety of every reachable state

  /** The state after `|signatures|` signings: a prefix of the slots has signed, each with its
      own identity, and each signature has its response, in the same order. */
  ghost predicate Inv(hash: Hash, slots: seq<Slot>, st: State) {
    SignedInto(hash, Order(slots), st)
  }

  ghost predicate SignedInto(hash: Hash, order: seq<Slot>, st: State) {
    var sigs := st.progress.signatures;
    && |sigs| <= |order| && order != []
    && (forall i :: 0 <= i < |sigs| ==> sigs[i].partyRef == order[i].partyRef && sigs[i].roleId == order[i].roleId)
    && (forall i, j :: 0 <= i < j < |sigs| ==> sigs[i].subjectRef != sigs[j].subjectRef)
    && st.progress.activePartyRef == order[if |sigs| < |order| then |sigs| else |sigs| - 1].partyRef
    && |st.responses| == |sigs|
    && (forall i :: 0 <= i < |sigs| ==>
          st.responses[i].partyRef == sigs[i].partyRef && hash(st.responses[i].response) == Some(sigs[i].responseHash))
  }

  lemma OrderDistinct(slots: seq<Slot>, i: nat, j: nat)
    requires i < j < |Order(slots)|
    ensures Order(slots)[i].partyRef != Order(slots)[j].partyRef
  {
    assert Refs(Order(slots))[i] != Refs(Order(slots))[j];
  }

  lemma StartIsSafe(hash: Hash, slots: seq<Slot>)
    requires slots != []
    ensures Start(slots).Ok? && Inv(hash, slots, Start(slots).value)
  {
  }

  /** Which slots of the order a safe state has signed. */
  lemma SignedInOrder(hash: Hash, slots: seq<Slot>, st: State, i: nat)
    requires Inv(hash, slots, st) && i < |Order(slots)|
    ensures Signed(st.progress.signatures, Order(slots)[i].partyRef) <==> i < |st.progress.signatures|
  {
    var order, sigs := Order(slots), st.progress.signatures;
    if i < |sigs| {
      assert sigs[i].partyRef == order[i].partyRef;
    } else {
      forall j | 0 <= j < |sigs|
        ensures sigs[j].partyRef != order[i].partyRef
      {
        OrderDistinct(slots, j, i);
      }
    }
  }

  lemma FindRefInOrder(slots: seq<Slot>, i: nat)
    requires i < |Order(slots)|
    ensures FindRef(slots, Order(slots)[i].partyRef) == Some(Order(slots)[i])
  {
    var order := Order(slots);
    var p := (s: Slot) => s.partyRef == order[i].partyRef;
    FindInOrder(slots, p);
    forall j | 0 <= j < i
      ensures !p(order[j])
    {
      OrderDistinct(slots, j, i);
    }
    FindAt(order, p, i);
  }

  lemma FindUnsignedInOrder(slots: seq<Slot>, sigs: seq<Signature>)
    requires |sigs| <= |Order(slots)|
    requires forall i :: 0 <= i < |sigs| ==> sigs[i].partyRef == Order(slots)[i].partyRef
    ensures FindUnsigned(slots, sigs) == if |sigs| < |Order(slots)| then Some(Order(slots)[|sigs|]) else None
  {
    var order := Order(slots);
    var p := (s: Slot) => !Signed(sigs, s.partyRef);
    FindInOrder(slots, p);
    forall i | 0 <= i < |sigs|
      ensures !p(order[i])
    {
      assert sigs[i].partyRef == order[i].partyRef;
    }
    if |sigs| < |order| {
      if Signed(sigs, order[|sigs|].partyRef) {
        var j :| 0 <= j < |sigs| && sigs[j].partyRef == order[|sigs|].partyRef;
        OrderDistinct(slots, j, |sigs|);
        assert false;
      }
      FindAt(order, p, |sigs|);
    }
  }

  /** In a safe, incomplete state the active party may sign exactly with an identity that has
      not signed yet. */
  lemma WhoMaySign(hash: Hash, slots: seq<Slot>, st: State, claim: Option<string>)
    requires Inv(hash, slots, st) && |st.progress.signatures| < |Order(slots)|
    ensures var r := CanSubmit(slots, st.progress, claim);
            && (r.Ok? <==> claim.Some? && forall i :: 0 <= i < |st.progress.signatures| ==>
                             st.progress.signatures[i].subjectRef != claim.value)
            && (r.Ok? ==> r.value == Order(slots)[|st.progress.signatures|])
  {
    var order, sigs := Order(slots), st.progress.signatures;
    var n := |sigs|;
    SignedInOrder(hash, slots, st, n);
    FindRefInOrder(slots, n);
    forall i | 0 <= i < n
      ensures sigs[i].partyRef != order[n].partyRef
    {
      OrderDistinct(slots, i, n);
    }
  }

  /** The state an accepted signing leads to. */
  function SignedBy(order: seq<Slot>, st: State, subject: string, h: string, key: string, response: FormResponse,
                    now: string): State
    requires |st.progress.signatures| < |order|
  {
    var n := |st.progress.signatures|;
    State(Progress(order[if n + 1 < |order| then n + 1 else n].partyRef,
                   st.progress.signatures
                   + [Signature(order[n].partyRef, order[n].roleId, subject, ResponseRef(response, key), h, now)]),
          st.responses + [Stored(order[n].partyRef, response)])
  }

  /** The active party has no stored response yet, so nothing is replaced. */
  lemma NothingReplaced(hash: Hash, slots: seq<Slot>, st: State)
    requires Inv(hash, slots, st) && |st.progress.signatures| < |Order(slots)|
    ensures Filter(st.responses, (s: Stored) => s.partyRef != st.progress.activePartyRef) == st.responses
  {
    var n := |st.progress.signatures|;
    forall s | s in st.responses
      ensures s.partyRef != st.progress.activePartyRef
    {
      var i :| 0 <= i < n && st.responses[i] == s;
      OrderDistinct(slots, i, n);
    }
    FilterAll(st.responses, (s: Stored) => s.partyRef != st.progress.activePartyRef);
  }

  lemma NextUnsigned(hash: Hash, slots: seq<Slot>, st: State, signature: Signature)
    requires Inv(hash, slots, st) && |st.progress.signatures| < |Order(slots)|
    requires signature.partyRef == Order(slots)[|st.progress.signatures|].partyRef
    ensures var n := |st.progress.signatures| + 1;
            FindUnsigned(slots, st.progress.signatures + [signature])
            == if n < |Order(slots)| then Some(Order(slots)[n]) else None
  {
    SignedPrefix(Order(slots), st.progress.signatures, signature);
    FindUnsignedInOrder(slots, st.progress.signatures + [signature]);
  }

  lemma SignedPrefix(order: seq<Slot>, sigs: seq<Signature>, signature: Signature)
    requires |sigs| < |order| && signature.partyRef == order[|sigs|].partyRef
    requires forall i :: 0 <= i < |sigs| ==> sigs[i].partyRef == order[i].partyRef
    ensures forall i :: 0 <= i < |sigs + [signature]| ==> (sigs + [signature])[i].partyRef == order[i].partyRef
  {
    forall i | 0 <= i < |sigs + [signature]|
      ensures (sigs + [signature])[i].partyRef == order[i].partyRef
    {
      if i < |sigs| {
        assert (sigs + [signature])[i] == sigs[i];
      }
    }
  }

  lemma SigningYields(hash: Hash, slots: seq<Slot>, st: State, claim: Option<string>, key: string,
                      response: FormResponse, now: string)
    requires Inv(hash, slots, st) && |st.progress.signatures| < |Order(slots)|
    requires CanSubmit(slots, st.progress, claim) == Ok(Order(slots)[|st.progress.signatures|])
    requires claim.Some? && hash(response).Some?
    ensures RecordSigner(hash, slots, st, claim, key, response, now)
            == Ok(SignedBy(Order(slots), st, claim.value, hash(response).value, key, response, now))
  {
    var slot := Order(slots)[|st.progress.signatures|];
    NextUnsigned(hash, slots, st, Signature(slot.partyRef, slot.roleId, claim.value, ResponseRef(response, key),
                                            hash(response).value, now));
    NothingReplaced(hash, slots, st);
  }

  lemma SigningKeepsSafety(hash: Hash, order: seq<Slot>, st: State, subject: string, h: string, key: string,
                           response: FormResponse, now: string)
    requires SignedInto(hash, order, st) && |st.progress.signatures| < |order| && hash(response) == Some(h)
    requires forall i :: 0 <= i < |st.progress.signatures| ==> st.progress.signatures[i].subjectRef != subject
    ensures SignedInto(hash, order, SignedBy(order, st, subject, h, key, response, now))
  {
  }

  /** What a safe, incomplete state answers to a signing: accepted exactly for an authenticated
      identity that has not signed yet, and then one more slot of the order has signed. */
  lemma SigningAnIncompleteState(hash: Hash, slots: seq<Slot>, st: State, claim: Option<string>, key: string,
                                 response: FormResponse, now: string)
    requires Inv(hash, slots, st) && |st.progress.signatures| < |Order(slots)|
    ensures var r := RecordSigner(hash, slots, st, claim, key, response, now);
            && (r.Ok? <==> claim.Some? && hash(response).Some?
                           && forall i :: 0 <= i < |st.progress.signatures| ==>
                                st.progress.signatures[i].subjectRef != claim.value)
            && (r.Ok? ==> Inv(hash, slots, r.value)
                          && |r.value.progress.signatures| == |st.progress.signatures| + 1
                          && r.value.progress.signatures[..|st.progress.signatures|] == st.progress.signatures
                          && r.value.progress.signatures[|st.progress.signatures|].subjectRef == claim.value)
  {
    WhoMaySign(hash, slots, st, claim);
    if CanSubmit(slots, st.progress, claim).Ok? && hash(response).Some? {
      SigningYields(hash, slots, st, claim, key, response, now);
      SigningKeepsSafety(hash, Order(slots), st, claim.value, hash(response).value, key, response, now);
    }
  }

  /** What an accepted signing writes: the next slot of the order, under the signer's identity,
      with the hash of the response and the response's own id when it has one; and the response
      itself, behind the others. */
  lemma WhatIsSigned(hash: Hash, slots: seq<Slot>, st: State, claim: Option<string>, key: string,
                     response: FormResponse, now: string)
    requires Inv(hash, slots, st) && |st.progress.signatures| < |Order(slots)|
    requires RecordSigner(hash, slots, st, claim, key, response, now).Ok?
    ensures var n := |st.progress.signatures|;
            var after := RecordSigner(hash, slots, st, claim, key, response, now).value;
            && |after.progress.signatures| == |after.responses| == n + 1
            && after.responses == st.responses + [Stored(Order(slots)[n].partyRef, response)]
            && var s := after.progress.signatures[n];
               && s.partyRef == st.progress.activePartyRef == Order(slots)[n].partyRef
               && s.roleId == Order(slots)[n].roleId && claim == Some(s.subjectRef)
               && hash(response) == Some(s.responseHash) && s.signedAt == now
               && (forall id :: StringMember(response, "id") == Some(id) ==> s.responseRef == "response:" + id)
               && (StringMember(response, "id").None? ==> s.responseRef == "response:" + key)
  {
    WhoMaySign(hash, slots, st, claim);
    SigningYields(hash, slots, st, claim, key, response, now);
  }

  /** Why a safe, incomplete state refuses: nobody is signed in, the identity has signed before,
      or the response cannot be hashed, in this order. */
  lemma WhyRefused(hash: Hash, slots: seq<Slot>, st: State, claim: Option<string>, key: string,
                   response: FormResponse, now: string)
    requires Inv(hash, slots, st) && |st.progress.signatures| < |Order(slots)|
    ensures var r := RecordSigner(hash, slots, st, claim, key, response, now);
            var again := claim.Some? && (exists i :: 0 <= i < |st.progress.signatures|
                                           && st.progress.signatures[i].subjectRef == claim.value);
            && (r == Err(NotAuthenticated) <==> claim.None?)
            && (r == Err(SameIdentity) <==> again)
            && (r == Err(HashUnavailable) <==> claim.Some? && !again && hash(response).None?)
  {
    var order, sigs := Order(slots), st.progress.signatures;
    WhoMaySign(hash, slots, st, claim);
    SignedInOrder(hash, slots, st, |sigs|);
    forall i | 0 <= i < |sigs|
      ensures sigs[i].partyRef != order[|sigs|].partyRef
    {
      OrderDistinct(slots, i, |sigs|);
    }
  }

  /** Once every slot has signed, every further signing is refused. */
  lemma SigningACompleteState(hash: Hash, slots: seq<Slot>, st: State, claim: Option<string>, key: string,
                              response: FormResponse, now: string)
    requires Inv(hash, slots, st) && |st.progress.signatures| == |Order(slots)|
    ensures RecordSigner(hash, slots, st, claim, key, response, now).Err?
  {
    SignedInOrder(hash, slots, st, |st.progress.signatures| - 1);
  }

  lemma CompleteIff(hash: Hash, slots: seq<Slot>, st: State)
    requires Inv(hash, slots, st)
    ensures Complete(slots, st.progress) <==> |st.progress.signatures| == |Order(slots)|
  {
    var order, sigs := Order(slots), st.progress.signatures;
    if |sigs| < |order| {
      SignedInOrder(hash, slots, st, |sigs|);
      assert order[|sigs|] in slots;
    } else {
      forall i | 0 <= i < |slots|
        ensures Signed(sigs, slots[i].partyRef)
      {
        assert slots[i] in slots;
        var j :| 0 <= j < |order| && Refs(order)[j] == slots[i].partyRef;
        SignedInOrder(hash, slots, st, j);
      }
    }
  }

  // ---------------------------------------------------------------- The saved draft

  const PROGRESS_KEY := "x-formspec-multi-party"

  function EncodeSignature(s: Signature): Json {
    Obj(map["partyRef" := Str(s.partyRef), "roleId" := Str(s.roleId), "subjectRef" := Str(s.subjectRef),
            "responseRef" := Str(s.responseRef), "responseHash" := Str(s.responseHash), "signedAt" := Str(s.signedAt)])
  }

  function DecodeSignature(j: Json): Option<Signature> {
    match (StringMember(j, "partyRef"), StringMember(j, "roleId"), StringMember(j, "subjectRef"),
           StringMember(j, "responseRef"), StringMember(j, "responseHash"), StringMember(j, "signedAt"))
    case (Some(a), Some(b), Some(c), Some(d), Some(e), Some(f)) => Some(Signature(a, b, c, d, e, f))
    case _ => None
  }

  function EncodeStored(s: Stored): Json {
    Obj(map["partyRef" := Str(s.partyRef), "response" := s.response])
  }

  /** `isMultiPartyStoredResponse`, on responses that carry a data object. */
  function DecodeStored(j: Json): Option<Stored> {
    match (StringMember(j, "partyRef"), Member(j, "response"))
    case (Some(ref), Some(response)) => if IsFormResponse(response) then Some(Stored(ref, response)) else None
    case _ => None
  }

  function EncodeAll<T>(xs: seq<T>, encode: T -> Json): seq<Json> {
    if xs == [] then [] else [encode(xs[0])] + EncodeAll(xs[1..], encode)
  }

  function DecodeAll<T>(js: seq<Json>, decode: Json -> Option<T>): seq<T> {
    if js == [] then [] else
    (match decode(js[0]) case None => [] case Some(x) => [x]) + DecodeAll(js[1..], decode)
  }

  lemma {:induction false} DecodeEncodeAll<T>(xs: seq<T>, encode: T -> Json, decode: Json -> Option<T>)
    requires forall i :: 0 <= i < |xs| ==> decode(encode(xs[i])) == Some(xs[i])
    ensures DecodeAll(EncodeAll(xs, encode), decode) == xs
  {
    if xs != [] {
      assert decode(encode(xs[0])) == Some(xs[0]);
      DecodeEncodeAll(xs[1..], encode, decode);
    }
  }

  function EncodeProgress(st: State): Json {
    Obj(map["activePartyRef" := Str(st.progress.activePartyRef),
            "signatures" := Arr(EncodeAll(st.progress.signatures, EncodeSignature)),
            "responses" := Arr(EncodeAll(st.responses, EncodeStored))])
  }

  /** `multiPartyStateDraftResponse`. */
  function ToDraft(url: string, version: string, authored: string, st: State): FormResponse {
    Obj(map["$formspecResponse" := Str("1.0"), "definitionUrl" := Str(url), "definitionVersion" := Str(version),
            "status" := Str("in-progress"), "data" := Obj(map[PROGRESS_KEY := EncodeProgress(st)]),
            "authored" := Str(authored)])
  }

  /** `multiPartyStateFromDraft`. */
  function FromDraft(draft: Option<FormResponse>, slots: seq<Slot>): Result<State, SignError> {
    if draft.None? || PROGRESS_KEY !in Data(draft.value) || !Data(draft.value)[PROGRESS_KEY].Obj? then Start(slots)
    else if slots == [] then Start(slots)
    else
      var raw := Data(draft.value)[PROGRESS_KEY];
      var refs := Refs(slots);
      var saved := StringMember(raw, "activePartyRef");
      Ok(State(
        Progress(if saved.Some? && saved.value in refs then saved.value else slots[0].partyRef,
                 Filter(DecodeAll(ArrayMember(raw, "signatures"), DecodeSignature),
                        (s: Signature) => s.partyRef in refs)),
        Filter(DecodeAll(ArrayMember(raw, "responses"), DecodeStored), (s: Stored) => s.partyRef in refs)))
  }

  lemma SignaturesRoundTrip(sigs: seq<Signature>)
    ensures DecodeAll(EncodeAll(sigs, EncodeSignature), DecodeSignature) == sigs
  {
    DecodeEncodeAll(sigs, EncodeSignature, DecodeSignature);
  }

  lemma ResponsesRoundTrip(responses: seq<Stored>)
    ensures DecodeAll(EncodeAll(responses, EncodeStored), DecodeStored) == responses
  {
    forall i | 0 <= i < |responses|
      ensures DecodeStored(EncodeStored(responses[i])) == Some(responses[i])
    {
      var fields := map["partyRef" := Str(responses[i].partyRef), "response" := responses[i].response];
      assert "partyRef" in fields && "response" in fields;
    }
    DecodeEncodeAll(responses, EncodeStored, DecodeStored);
  }

  lemma SavedProgress(url: string, version: string, authored: string, st: State)
    ensures var data := Data(ToDraft(url, version, authored, st));
            PROGRESS_KEY in data && data[PROGRESS_KEY] == EncodeProgress(st)
    ensures StringMember(EncodeProgress(st), "activePartyRef") == Some(st.progress.activePartyRef)
    ensures ArrayMember(EncodeProgress(st), "signatures") == EncodeAll(st.progress.signatures, EncodeSignature)
    ensures ArrayMember(EncodeProgress(st), "responses") == EncodeAll(st.responses, EncodeStored)
  {
  }

  lemma SafeRefsAreSlots(hash: Hash, slots: seq<Slot>, st: State)
    requires Inv(hash, slots, st)
    ensures slots != [] && st.progress.activePartyRef in Refs(slots)
    ensures forall s :: s in st.progress.signatures ==> s.partyRef in Refs(slots)
    ensures forall s :: s in st.responses ==> s.partyRef in Refs(slots)
  {
    var refs, order := Refs(slots), Order(slots);
    forall i | 0 <= i < |order|
      ensures order[i].partyRef in refs
    {
      assert order[i] in slots;
      var j :| 0 <= j < |slots| && slots[j] == order[i];
      assert refs[j] == order[i].partyRef;
    }
  }

  /** Restoring what was saved gives back exactly the saved state. */
  lemma PersistenceRoundTrip(hash: Hash, slots: seq<Slot>, st: State, url: string, version: string, authored: string)
    requires Inv(hash, slots, st)
    ensures FromDraft(Some(ToDraft(url, version, authored, st)), slots) == Ok(st)
  {
    SafeRefsAreSlots(hash, slots, st);
    SavedProgress(url, version, authored, st);
    SignaturesRoundTrip(st.progress.signatures);
    ResponsesRoundTrip(st.responses);
    var refs := Refs(slots);
    FilterAll(st.progress.signatures, (s: Signature) => s.partyRef in refs);
    FilterAll(st.responses, (s: Stored) => s.partyRef in refs);
  }

  /** Whatever the store returns, restoring yields only refs that are slots of the policy; it
      fails only for a policy without slots. */
  lemma RestoreYieldsSlotsOnly(draft: Option<FormResponse>, slots: seq<Slot>)
    ensures FromDraft(draft, slots).Ok? <==> slots != []
    ensures slots != [] ==>
              var st := FromDraft(draft, slots).value;
              && st.progress.activePartyRef in Refs(slots)
              && (forall s :: s in st.progress.signatures ==> s.partyRef in Refs(slots))
              && (forall s :: s in st.responses ==> s.partyRef in Refs(slots))
  {
    if slots != [] {
      assert Refs(slots)[0] == slots[0].partyRef;
    }
  }

  /** The saved progress: what the draft's data holds under the reserved key, if an object. */
  function SavedUnder(draft: Option<FormResponse>): Option<Json> {
    if draft.Some? && PROGRESS_KEY in Data(draft.value) && Data(draft.value)[PROGRESS_KEY].Obj?
    then Some(Data(draft.value)[PROGRESS_KEY]) else None
  }

  /** Without saved progress a form starts afresh, with its first slot active. */
  lemma NoProgressStartsAfresh(draft: Option<FormResponse>, slots: seq<Slot>)
    requires SavedUnder(draft).None?
    ensures FromDraft(draft, slots) == Start(slots)
    ensures slots != [] ==>
              FromDraft(draft, slots) == Ok(State(Progress(slots[0].partyRef, []), []))
  {
  }

  /** A record is a readable signature exactly when its six members are strings. */
  lemma ReadableSignatureIff(j: Json)
    ensures DecodeSignature(j).Some? <==>
              && StringMember(j, "partyRef").Some? && StringMember(j, "roleId").Some?
              && StringMember(j, "subjectRef").Some? && StringMember(j, "responseRef").Some?
              && StringMember(j, "responseHash").Some? && StringMember(j, "signedAt").Some?
    ensures DecodeSignature(j).Some? ==>
              var s := DecodeSignature(j).value;
              && StringMember(j, "partyRef") == Some(s.partyRef) && StringMember(j, "roleId") == Some(s.roleId)
              && StringMember(j, "subjectRef") == Some(s.subjectRef)
              && StringMember(j, "responseRef") == Some(s.responseRef)
              && StringMember(j, "responseHash") == Some(s.responseHash)
              && StringMember(j, "signedAt") == Some(s.signedAt)
  {
  }

  /** Among saved records, in their order, those that can be read and speak of a slot. */
  ghost predicate KeptFrom<T(!new)>(saved: seq<Json>, kept: seq<T>, read: Json -> Option<T>, ours: T -> bool) {
    if saved == [] then kept == []
    else
      var first := read(saved[0]);
      if first.Some? && ours(first.value)
      then kept != [] && kept[0] == first.value && KeptFrom(saved[1..], kept[1..], read, ours)
      else KeptFrom(saved[1..], kept, read, ours)
  }

  lemma {:induction false} ReadAndFilter<T(!new)>(saved: seq<Json>, read: Json -> Option<T>, ours: T -> bool)
    ensures KeptFrom(saved, Filter(DecodeAll(saved, read), ours), read, ours)
  {
    if saved != [] {
      var head := match read(saved[0]) case None => [] case Some(x) => [x];
      var rest := DecodeAll(saved[1..], read);
      FilterConcat(head, rest, ours);
      ReadAndFilter(saved[1..], read, ours);
      if head != [] && ours(head[0]) {
        assert Filter(head, ours) == [head[0]];
        assert ([head[0]] + Filter(rest, ours))[1..] == Filter(rest, ours);
      } else {
        assert Filter(head, ours) == [];
        assert [] + Filter(rest, ours) == Filter(rest, ours);
      }
    }
  }

  /** With saved progress the active party is the saved one if it is a slot, the first slot
      otherwise; signatures and responses are the readable saved ones whose ref is a slot, in
      saved order. */
  lemma RestoreReadsTheDraft(draft: Option<FormResponse>, slots: seq<Slot>)
    requires SavedUnder(draft).Some? && slots != []
    ensures FromDraft(draft, slots).Ok?
    ensures var saved, st := SavedUnder(draft).value, FromDraft(draft, slots).value;
            var ref := StringMember(saved, "activePartyRef");
            && st.progress.activePartyRef
               == (if ref.Some? && ref.value in Refs(slots) then ref.value else slots[0].partyRef)
            && KeptFrom(ArrayMember(saved, "signatures"), st.progress.signatures, DecodeSignature,
                        (s: Signature) => s.partyRef in Refs(slots))
            && KeptFrom(ArrayMember(saved, "responses"), st.responses, DecodeStored,
                        (s: Stored) => s.partyRef in Refs(slots))
  {
    var saved, refs := SavedUnder(draft).value, Refs(slots);
    ReadAndFilter(ArrayMember(saved, "signatures"), DecodeSignature, (s: Signature) => s.partyRef in refs);
    ReadAndFilter(ArrayMember(saved, "responses"), DecodeStored, (s: Stored) => s.partyRef in refs);
  }

  // ---------------------------------------------------------------- Runs

  datatype Attempt =
    | Sign(claim: Option<string>, key: string, response: FormResponse, now: string)
    | SaveAndRestore(url: string, version: string, authored: string)

  /** A refused signing leaves the state as it was. */
  function After(hash: Hash, slots: seq<Slot>, st: State, a: Attempt): State {
    match a
    case Sign(claim, key, response, now) =>
      var r := RecordSigner(hash, slots, st, claim, key, response, now);
      if r.Ok? then r.value else st
    case SaveAndRestore(url, version, authored) =>
      var r := FromDraft(Some(ToDraft(url, version, authored, st)), slots);
      if r.Ok? then r.value else st
  }

  /** A run begins as a first visit does: by restoring from a store without a draft. */
  function Run(hash: Hash, slots: seq<Slot>, attempts: seq<Attempt>): State
    requires slots != []
  {
    if attempts == [] then FromDraft(None, slots).value
    else After(hash, slots, Run(hash, slots, attempts[..|attempts| - 1]), attempts[|attempts| - 1])
  }

  lemma {:induction false} RunIsSafe(hash: Hash, slots: seq<Slot>, attempts: seq<Attempt>)
    requires slots != []
    ensures Inv(hash, slots, Run(hash, slots, attempts))
    decreases |attempts|
  {
    if attempts == [] {
      NoProgressStartsAfresh(None, slots);
      StartIsSafe(hash, slots);
    } else {
      var st := Run(hash, slots, attempts[..|attempts| - 1]);
      RunIsSafe(hash, slots, attempts[..|attempts| - 1]);
      match attempts[|attempts| - 1]
      case Sign(claim, key, response, now) =>
        if |st.progress.signatures| < |Order(slots)| {
          SigningAnIncompleteState(hash, slots, st, claim, key, response, now);
        } else {
          SigningACompleteState(hash, slots, st, claim, key, response, now);
        }
      case SaveAndRestore(url, version, authored) =>
        PersistenceRoundTrip(hash, slots, st, url, version, authored);
    }
  }

  /** Signed refs are distinct, subjects are distinct, the signed parties are exactly a prefix
      of the slot order, and the active party is the first unsigned slot, or the last signed. */
  lemma MultiPartySafety(hash: Hash, slots: seq<Slot>, attempts: seq<Attempt>)
    requires slots != []
    ensures var p := Run(hash, slots, attempts).progress;
            var n := |p.signatures|;
            && n <= |Order(slots)|
            && (forall i :: 0 <= i < n ==> p.signatures[i].partyRef == Order(slots)[i].partyRef)
            && (forall i, j :: 0 <= i < j < n ==>
                  p.signatures[i].partyRef != p.signatures[j].partyRef
                  && p.signatures[i].subjectRef != p.signatures[j].subjectRef)
            && (if Complete(slots, p) then n > 0 && p.activePartyRef == p.signatures[n - 1].partyRef
                else FindUnsigned(slots, p.signatures).Some?
                     && p.activePartyRef == FindUnsigned(slots, p.signatures).value.partyRef)
  {
    var st := Run(hash, slots, attempts);
    RunIsSafe(hash, slots, attempts);
    CompleteIff(hash, slots, st);
    FindUnsignedInOrder(slots, st.progress.signatures);
    forall i, j | 0 <= i < j < |st.progress.signatures|
      ensures st.progress.signatures[i].partyRef != st.progress.signatures[j].partyRef
    {
      OrderDistinct(slots, i, j);
    }
  }

  /** Runs with save and restore points reach the same states as runs without them. */
  lemma {:induction false} RestorePointsChangeNothing(hash: Hash, slots: seq<Slot>, attempts: seq<Attempt>)
    requires slots != []
    ensures Run(hash, slots, attempts) == Run(hash, slots, Filter(attempts, (a: Attempt) => a.Sign?))
    decreases |attempts|
  {
    if attempts != [] {
      var most, last := attempts[..|attempts| - 1], attempts[|attempts| - 1];
      assert attempts == most + [last];
      RestorePointsChangeNothing(hash, slots, most);
      FilterConcat(most, [last], (a: Attempt) => a.Sign?);
      var kept := Filter(most, (a: Attempt) => a.Sign?);
      if last.Sign? {
        assert Filter([last], (a: Attempt) => a.Sign?) == [last];
        assert (kept + [last])[..|kept|] == kept;
      } else {
        assert Filter([last], (a: Attempt) => a.Sign?) == [];
        assert kept + [] == kept;
        RunIsSafe(hash, slots, most);
        PersistenceRoundTrip(hash, slots, Run(hash, slots, most), last.url, last.version, last.authored);
      }
    }
  }

  /** For a policy the resolver accepts whose slots do not collide: starting succeeds, there are
      as many slots as the minimum cardinalities say, each accepted signing lowers the number
      of unsigned slots by one, the form is complete exactly after that many signings, and a
      further one is refused. */
  lemma MultiPartyProgress(policy: Policy, hash: Hash, attempts: seq<Attempt>, a: Attempt)
    requires Resolvable(policy) && NoShadow(policy.parties) && a.Sign?
    ensures var slots := Slots(policy.parties);
            slots != [] && Start(slots).Ok? && |slots| == Minimum(policy.parties) >= 2
    ensures var slots := Slots(policy.parties);
            var st := Run(hash, slots, attempts);
            var r := RecordSigner(hash, slots, st, a.claim, a.key, a.response, a.now);
            && |st.progress.signatures| <= |slots|
            && (Complete(slots, st.progress) <==> |st.progress.signatures| == |slots|)
            && (r.Ok? ==> |r.value.progress.signatures| == |st.progress.signatures| + 1)
            && (Complete(slots, st.progress) ==> r.Err?)
  {
    AtLeastTwoSlots(policy);
    SlotsDistinctIff(policy);
    var slots := Slots(policy.parties);
    OrderOfDistinct(slots);
    var st := Run(hash, slots, attempts);
    RunIsSafe(hash, slots, attempts);
    CompleteIff(hash, slots, st);
    if |st.progress.signatures| < |slots| {
      SigningAnIncompleteState(hash, slots, st, a.claim, a.key, a.response, a.now);
    } else {
      SigningACompleteState(hash, slots, st, a.claim, a.key, a.response, a.now);
    }
  }

  /** The count of signings that completes the form is the sum of the minimum cardinalities if
      and only if the slots do not collide. */
  lemma CompletesAfterMinimumIff(policy: Policy, hash: Hash, attempts: seq<Attempt>)
    requires Resolvable(policy) && Slots(policy.parties) != []
    ensures var slots := Slots(policy.parties);
            var p := Run(hash, slots, attempts).progress;
            Complete(slots, p) <==> |p.signatures| == |Order(slots)|
    ensures |Order(Slots(policy.parties))| == Minimum(policy.parties) <==> NoShadow(policy.parties)
  {
    var slots := Slots(policy.parties);
    RunIsSafe(hash, slots, attempts);
    CompleteIff(hash, slots, Run(hash, slots, attempts));
    AtLeastTwoSlots(policy);
    SlotsDistinctIff(policy);
    OrderShorterIff(slots);
  }

  // ---------------------------------------------------------------- The aggregate response

  function FindStored(responses: seq<Stored>, partyRef: string): Option<Stored> {
    Find(responses, (s: Stored) => s.partyRef == partyRef)
  }

  /** The signed responses in signature order; an error when one is missing. */
  function Slices(signatures: seq<Signature>, responses: seq<Stored>): Result<seq<FormResponse>, SignError> {
    if signatures == [] then Ok([]) else
    match FindStored(responses, signatures[0].partyRef)
    case None => Err(MissingSlice)
    case Some(stored) =>
      match Slices(signatures[1..], responses)
      case Err(e) => Err(e)
      case Ok(rest) => Ok([stored.response] + rest)
  }

  /** `Object.assign({}, ...)`. */
  function Merge(slices: seq<FormResponse>): map<string, Json> {
    if slices == [] then map[] else Merge(slices[..|slices| - 1]) + Data(slices[|slices| - 1])
  }

  function Signer(signature: Signature): map<string, Json> {
    map["partyRef" := Str(signature.partyRef), "roleId" := Str(signature.roleId),
        "subjectRef" := Str(signature.subjectRef)]
  }

  /** What the aggregate's data says of one signer; an absent response id stays absent. */
  function DataEntry(signature: Signature, slice: FormResponse): Json {
    var id := Member(slice, "id");
    Obj(Signer(signature) + (if id.Some? then map["responseId" := id.value] else map[])
        + map["responseData" := Obj(Data(slice))])
  }

  /** What its extensions say of one signer. */
  function ExtensionEntry(signature: Signature, slice: FormResponse): Json {
    Obj(Signer(signature) + map["response" := slice])
  }

  function Entries(signatures: seq<Signature>, slices: seq<FormResponse>, entry: (Signature, FormResponse) -> Json)
      : (r: seq<Json>)
    requires |signatures| == |slices|
    ensures |r| == |signatures| && forall i :: 0 <= i < |r| ==> r[i] == entry(signatures[i], slices[i])
  {
    if signatures == [] then [] else
    [entry(signatures[0], slices[0])] + Entries(signatures[1..], slices[1..], entry)
  }

  function Record(signatures: seq<Signature>, entries: seq<Json>): Json {
    Obj(map["partySignatures" := Arr(EncodeAll(signatures, EncodeSignature)), "partyResponses" := Arr(entries)])
  }

  /** `data` and `extensions[PROGRESS_KEY]` of the aggregate response. */
  datatype Aggregated = Aggregated(data: map<string, Json>, extension: Json)

  /** `buildMultiPartyAggregateResponse`. */
  function Aggregate(st: State): Result<Aggregated, SignError> {
    var signatures := st.progress.signatures;
    match Slices(signatures, st.responses)
    case Err(e) => Err(e)
    case Ok(slices) =>
      if |slices| != |signatures| then Err(MissingSlice) else
      Ok(Aggregated(Merge(slices)[PROGRESS_KEY := Record(signatures, Entries(signatures, slices, DataEntry))],
                    Record(signatures, Entries(signatures, slices, ExtensionEntry))))
  }

  lemma FoundAt(responses: seq<Stored>, signatures: seq<Signature>, i: nat)
    requires i < |signatures| == |responses|
    requires forall j :: 0 <= j < |signatures| ==> responses[j].partyRef == signatures[j].partyRef
    requires forall j, k :: 0 <= j < k < |signatures| ==> signatures[j].partyRef != signatures[k].partyRef
    ensures FindStored(responses, signatures[i].partyRef) == Some(responses[i])
  {
    FindAt(responses, (s: Stored) => s.partyRef == signatures[i].partyRef, i);
  }

  lemma {:induction false} SlicesFound(signatures: seq<Signature>, responses: seq<Stored>, found: seq<Stored>)
    requires |signatures| == |found|
    requires forall i :: 0 <= i < |found| ==> FindStored(responses, signatures[i].partyRef) == Some(found[i])
    ensures Slices(signatures, responses).Ok?
    ensures var slices := Slices(signatures, responses).value;
            |slices| == |found| && forall i :: 0 <= i < |slices| ==> slices[i] == found[i].response
  {
    if found != [] {
      SlicesFound(signatures[1..], responses, found[1..]);
    }
  }

  ghost predicate LastSupplier(slices: seq<FormResponse>, k: string, i: int) {
    0 <= i < |slices| && k in Data(slices[i]) && forall j :: i < j < |slices| ==> k !in Data(slices[j])
  }

  lemma {:induction false} LastSupplierWins(slices: seq<FormResponse>, k: string, i: nat)
    requires LastSupplier(slices, k, i)
    ensures k in Merge(slices) && Merge(slices)[k] == Data(slices[i])[k]
    decreases |slices|
  {
    var n := |slices| - 1;
    if i < n {
      assert slices[..n][i] == slices[i];
      assert LastSupplier(slices[..n], k, i);
      LastSupplierWins(slices[..n], k, i);
    }
  }

  lemma {:induction false} SupplierOf(slices: seq<FormResponse>, k: string) returns (i: nat)
    requires k in Merge(slices)
    ensures LastSupplier(slices, k, i)
    decreases |slices|
  {
    var n := |slices| - 1;
    if k in Data(slices[n]) {
      i := n;
    } else {
      i := SupplierOf(slices[..n], k);
      forall j | i < j < |slices|
        ensures k !in Data(slices[j])
      {
        if j < n {
          assert slices[..n][j] == slices[j];
        }
      }
    }
  }

  function ResponsesOf(responses: seq<Stored>): (r: seq<FormResponse>)
    ensures |r| == |responses| && forall i :: 0 <= i < |r| ==> r[i] == responses[i].response
  {
    if responses == [] then [] else [responses[0].response] + ResponsesOf(responses[1..])
  }

  /** A key is there exactly when a response supplied it, with the value of the last one. */
  ghost predicate LastWins(data: map<string, Json>, responses: seq<FormResponse>, k: string) {
    && (k in data <==> exists i :: LastSupplier(responses, k, i))
    && forall i :: LastSupplier(responses, k, i) ==> k in data && data[k] == Data(responses[i])[k]
  }

  lemma SafeSlices(hash: Hash, slots: seq<Slot>, attempts: seq<Attempt>)
    requires slots != []
    ensures var st := Run(hash, slots, attempts);
            && Slices(st.progress.signatures, st.responses).Ok?
            && |st.responses| == |st.progress.signatures|
            && var slices := Slices(st.progress.signatures, st.responses).value;
            |slices| == |st.responses| && forall i :: 0 <= i < |slices| ==> slices[i] == st.responses[i].response
  {
    var st := Run(hash, slots, attempts);
    RunIsSafe(hash, slots, attempts);
    MultiPartySafety(hash, slots, attempts);
    forall i | 0 <= i < |st.responses|
      ensures FindStored(st.responses, st.progress.signatures[i].partyRef) == Some(st.responses[i])
    {
      FoundAt(st.responses, st.progress.signatures, i);
    }
    SlicesFound(st.progress.signatures, st.responses, st.responses);
  }

  /** In every reachable state there is one stored response per signature, in the same order
      and with the signed hash. */
  lemma SignaturesMatchResponses(hash: Hash, slots: seq<Slot>, attempts: seq<Attempt>, i: nat)
    requires slots != []
    ensures var st := Run(hash, slots, attempts);
            && |st.responses| == |st.progress.signatures|
            && (i < |st.responses| ==>
                  st.responses[i].partyRef == st.progress.signatures[i].partyRef
                  && hash(st.responses[i].response) == Some(st.progress.signatures[i].responseHash))
  {
    RunIsSafe(hash, slots, attempts);
  }

  /** Aggregating a reachable state never fails; a key other than the reserved one is present
      exactly when a signer supplied it, with the value of the last one who did. */
  lemma AggregateCorrect(hash: Hash, slots: seq<Slot>, attempts: seq<Attempt>, k: string)
    requires slots != [] && k != PROGRESS_KEY
    ensures var st := Run(hash, slots, attempts);
            Aggregate(st).Ok? && LastWins(Aggregate(st).value.data, ResponsesOf(st.responses), k)
  {
    SafeSlices(hash, slots, attempts);
    var st := Run(hash, slots, attempts);
    assert Slices(st.progress.signatures, st.responses).value == ResponsesOf(st.responses);
    AggregatedData(st, k);
    MergeIff(ResponsesOf(st.responses), k);
    SameAtKey(Merge(ResponsesOf(st.responses)), Aggregate(st).value.data, ResponsesOf(st.responses), k);
  }

  lemma SameAtKey(a: map<string, Json>, b: map<string, Json>, responses: seq<FormResponse>, k: string)
    requires LastWins(a, responses, k) && (k in a <==> k in b) && (k in a ==> a[k] == b[k])
    ensures LastWins(b, responses, k)
  {
  }

  lemma AggregatedData(st: State, k: string)
    requires Slices(st.progress.signatures, st.responses).Ok? && k != PROGRESS_KEY
    requires |Slices(st.progress.signatures, st.responses).value| == |st.progress.signatures|
    ensures var merged := Merge(Slices(st.progress.signatures, st.responses).value);
            && Aggregate(st).Ok? && (k in Aggregate(st).value.data <==> k in merged)
            && (k in merged ==> Aggregate(st).value.data[k] == merged[k])
  {
  }

  lemma MergeIff(slices: seq<FormResponse>, k: string)
    ensures LastWins(Merge(slices), slices, k)
  {
    forall i | LastSupplier(slices, k, i)
      ensures k in Merge(slices) && Merge(slices)[k] == Data(slices[i])[k]
    {
      LastSupplierWins(slices, k, i);
    }
    if k in Merge(slices) {
      var i := SupplierOf(slices, k);
    }
  }

  /** The list of signatures in a record reads back as the signatures. */
  lemma RecordListsSignatures(signatures: seq<Signature>, entries: seq<Json>)
    ensures DecodeAll(ArrayMember(Record(signatures, entries), "partySignatures"), DecodeSignature) == signatures
    ensures ArrayMember(Record(signatures, entries), "partyResponses") == entries
  {
    SignaturesRoundTrip(signatures);
  }

  lemma DataEntrySays(signature: Signature, slice: FormResponse)
    ensures var e := DataEntry(signature, slice);
            && StringMember(e, "partyRef") == Some(signature.partyRef)
            && StringMember(e, "roleId") == Some(signature.roleId)
            && StringMember(e, "subjectRef") == Some(signature.subjectRef)
            && Member(e, "responseData") == Some(Obj(Data(slice))) && Member(e, "responseId") == Member(slice, "id")
  {
  }

  lemma ExtensionEntrySays(signature: Signature, slice: FormResponse)
    ensures var e := ExtensionEntry(signature, slice);
            && StringMember(e, "partyRef") == Some(signature.partyRef)
            && StringMember(e, "roleId") == Some(signature.roleId)
            && StringMember(e, "subjectRef") == Some(signature.subjectRef) && Member(e, "response") == Some(slice)
  {
  }

  /** The reserved entry of the aggregate of a reachable state lists the signatures, and every
      signer, in signing order, with its own data; the extensions list each full response. */
  lemma AggregateListsSigners(hash: Hash, slots: seq<Slot>, attempts: seq<Attempt>, i: nat)
    requires slots != []
    ensures var st := Run(hash, slots, attempts);
            && Aggregate(st).Ok? && PROGRESS_KEY in Aggregate(st).value.data
            && var inData, inExtension := Aggregate(st).value.data[PROGRESS_KEY], Aggregate(st).value.extension;
               && DecodeAll(ArrayMember(inData, "partySignatures"), DecodeSignature) == st.progress.signatures
               && DecodeAll(ArrayMember(inExtension, "partySignatures"), DecodeSignature) == st.progress.signatures
               && |ArrayMember(inData, "partyResponses")| == |st.responses|
               && |ArrayMember(inExtension, "partyResponses")| == |st.responses|
               && (i < |st.responses| ==>
                     SaysOf(ArrayMember(inData, "partyResponses")[i], ArrayMember(inExtension, "partyResponses")[i],
                            st.progress.signatures, st.responses, i))
  {
    var st := Run(hash, slots, attempts);
    SafeSlices(hash, slots, attempts);
    var signatures, slices := st.progress.signatures, Slices(st.progress.signatures, st.responses).value;
    RecordListsSignatures(signatures, Entries(signatures, slices, DataEntry));
    RecordListsSignatures(signatures, Entries(signatures, slices, ExtensionEntry));
    if i < |st.responses| {
      DataEntrySays(signatures[i], slices[i]);
      ExtensionEntrySays(signatures[i], slices[i]);
    }
  }

  /** Entry `i` in the data and in the extensions is about signer `i` and its own response. */
  ghost predicate SaysOf(inData: Json, inExtension: Json, signatures: seq<Signature>, responses: seq<Stored>, i: nat) {
    && i < |signatures| && i < |responses|
    && StringMember(inData, "partyRef") == StringMember(inExtension, "partyRef") == Some(signatures[i].partyRef)
    && StringMember(inData, "roleId") == StringMember(inExtension, "roleId") == Some(signatures[i].roleId)
    && StringMember(inData, "subjectRef") == StringMember(inExtension, "subjectRef") == Some(signatures[i].subjectRef)
    && Member(inData, "responseData") == Some(Obj(Data(responses[i].response)))
    && Member(inData, "responseId") == Member(responses[i].response, "id")
    && Member(inExtension, "response") == Some(responses[i].response)
  }
}
