/** Multi-party signing: the required slots of a policy, the signing state machine, its saved
    draft and the aggregate response built when everybody has signed. */
module MultiParty {
  import opened Common
  import opened Text

  // ---------------------------------------------------------------- Policy and slots

  datatype Maximum = Unbounded | AtMost(max: int)

  /** One role of `limits.multiParty.parties`. */
  datatype Party = Party(
    roleId: string, role: string, visibilityScope: string, min: int, max: Maximum,
    visibleTo: Option<seq<string>>, editableBy: Option<seq<string>>, signedBy: Option<seq<string>>,
    safeAddressAudience: Option<seq<string>>)

  datatype Deadline = Deadline(expirationAction: string, perPartyDeadline: Option<string>)

  datatype Policy = Policy(
    tier: string, parties: seq<Party>, invitationChannel: Option<string>, deadline: Option<Deadline>)

  datatype Slot = Slot(partyRef: string, roleId: string)

  const ROLES := {"coEqual", "asymmetricPrimary", "asymmetricSecondary", "guardianFor"}

  predicate NonEmptyStrings(o: Option<seq<string>>) {
    o.Some? ==> forall s :: s in o.value ==> s != ""
  }

  predicate CardinalityFits(p: Party) {
    p.min >= 1 && (p.max.AtMost? ==> p.max.max >= p.min)
  }

  predicate AudiencesMeet(p: Party) {
    p.safeAddressAudience.Some? && p.visibleTo.Some? ==>
      exists s :: s in p.safeAddressAudience.value && s in p.visibleTo.value
  }

  predicate PartyFits(p: Party) {
    && p.roleId != "" && p.role in ROLES && p.visibilityScope in {"shared", "scoped"}
    && CardinalityFits(p)
    && NonEmptyStrings(p.visibleTo) && NonEmptyStrings(p.editableBy) && NonEmptyStrings(p.signedBy)
    && NonEmptyStrings(p.safeAddressAudience) && AudiencesMeet(p)
  }

  predicate ChannelFits(channel: Option<string>) {
    channel.Some? ==> channel.value in {"magic-link", "wos-task", "out-of-band"}
  }

  predicate DeadlineFits(deadline: Option<Deadline>) {
    deadline.Some? ==>
      && deadline.value.expirationAction in {"void-submission", "convert-to-partial"}
      && deadline.value.perPartyDeadline != Some("")
  }

  /** What the resolver accepts as `limits.multiParty`. */
  ghost predicate Resolvable(policy: Policy) {
    && policy.tier in {"coEqual", "asymmetric"}
    && |policy.parties| >= 2
    && (forall i :: 0 <= i < |policy.parties| ==> PartyFits(policy.parties[i]))
    && (forall i, j :: 0 <= i < j < |policy.parties| ==> policy.parties[i].roleId != policy.parties[j].roleId)
    && ChannelFits(policy.invitationChannel) && DeadlineFits(policy.deadline)
  }

  datatype PolicyError =
    | BadTier | TooFewParties | BadParty(roleId: string) | DuplicateRole(roleId: string) | BadChannel | BadDeadline

  /** `validateOptionalStringArray`. */
  method ValidateStrings(list: Option<seq<string>>) returns (ok: bool)
    ensures ok <==> NonEmptyStrings(list)
  {
    if list.Some? {
      for i := 0 to |list.value|
        invariant forall s :: s in list.value[..i] ==> s != ""
      {
        if list.value[i] == "" {
          assert list.value[i] in list.value;
          return false;
        }
        assert list.value[..i + 1] == list.value[..i] + [list.value[i]];
      }
      assert list.value[..|list.value|] == list.value;
    }
    return true;
  }

  /** The checks of one role after its id, in the source's order. */
  method ValidateParty(party: Party) returns (ok: bool)
    requires party.roleId != ""
    ensures ok <==> PartyFits(party)
  {
    if party.role != "coEqual" && party.role != "asymmetricPrimary" && party.role != "asymmetricSecondary"
       && party.role != "guardianFor" {
      return false;
    }
    if party.visibilityScope != "shared" && party.visibilityScope != "scoped" {
      return false;
    }
    if party.min < 1 || (party.max.AtMost? && party.max.max < party.min) {
      return false;
    }
    var visibleOk := ValidateStrings(party.visibleTo);
    var editableOk := ValidateStrings(party.editableBy);
    var signedOk := ValidateStrings(party.signedBy);
    var audienceOk := ValidateStrings(party.safeAddressAudience);
    if !visibleOk || !editableOk || !signedOk || !audienceOk {
      return false;
    }
    if party.safeAddressAudience.Some? && party.visibleTo.Some? {
      var visible := party.visibleTo.value;
      var intersection := Filter(party.safeAddressAudience.value, (entry: string) => entry in visible);
      if intersection == [] {
        return false;
      }
      assert intersection[0] in intersection;
    }
    return true;
  }

  /** `validateMultiPartyLimits`: one pass over the roles with a set of the ids seen so far. */
  method ValidateMultiPartyLimits(policy: Policy) returns (r: Result<(), PolicyError>)
    ensures r.Ok? <==> Resolvable(policy)
    ensures r.Err? && r.error.DuplicateRole? ==>
              exists i, j :: 0 <= i < j < |policy.parties|
                && policy.parties[i].roleId == policy.parties[j].roleId == r.error.roleId
  {
    if policy.tier !in {"coEqual", "asymmetric"} {
      return Err(BadTier);
    }
    if |policy.parties| < 2 {
      return Err(TooFewParties);
    }
    var roleIds: set<string> := {};
    for n := 0 to |policy.parties|
      invariant roleIds == set i | 0 <= i < n :: policy.parties[i].roleId
      invariant forall i :: 0 <= i < n ==> PartyFits(policy.parties[i])
      invariant forall i, j :: 0 <= i < j < n ==> policy.parties[i].roleId != policy.parties[j].roleId
    {
      var party := policy.parties[n];
      if party.roleId == "" {
        return Err(BadParty(party.roleId));
      }
      if party.roleId in roleIds {
        var i :| 0 <= i < n && policy.parties[i].roleId == party.roleId;
        assert policy.parties[i].roleId == policy.parties[n].roleId;
        return Err(DuplicateRole(party.roleId));
      }
      roleIds := roleIds + {party.roleId};
      var fits := ValidateParty(party);
      if !fits {
        return Err(BadParty(party.roleId));
      }
    }
    if !ChannelFits(policy.invitationChannel) {
      return Err(BadChannel);
    }
    if !DeadlineFits(policy.deadline) {
      return Err(BadDeadline);
    }
    return Ok(());
  }

  function PartyRef(p: Party, index: nat): string {
    if p.min == 1 then p.roleId else p.roleId + ":" + Dec(index + 1)
  }

  function PartySlots(p: Party): (s: seq<Slot>)
    ensures |s| == if p.min >= 0 then p.min else 0
    ensures forall k :: 0 <= k < |s| ==> s[k] == Slot(PartyRef(p, k), p.roleId)
  {
    seq(if p.min >= 0 then p.min else 0, index requires index >= 0 => Slot(PartyRef(p, index), p.roleId))
  }

  /** `requiredMultiPartySlots`: each role contributes its minimum number of slots, in order. */
  function Slots(parties: seq<Party>): seq<Slot> {
    if parties == [] then [] else PartySlots(parties[0]) + Slots(parties[1..])
  }

  /** How many slots the roles require: the sum of the minimum cardinalities. */
  function Minimum(parties: seq<Party>): nat {
    if parties == [] then 0 else (if parties[0].min > 0 then parties[0].min else 0) + Minimum(parties[1..])
  }

  function Refs(slots: seq<Slot>): (r: seq<string>)
    ensures |r| == |slots|
    ensures forall i :: 0 <= i < |r| ==> r[i] == slots[i].partyRef
  {
    seq(|slots|, i requires 0 <= i < |slots| => slots[i].partyRef)
  }

  // ---------------------------------------------------------------- When slots are distinct

  /** A single-slot role whose id spells a numbered slot of another role. */
  ghost predicate Shadows(single: Party, many: Party) {
    single.min == 1 && many.min > 1
    && exists k: nat :: k < many.min && single.roleId == PartyRef(many, k)
  }

  ghost predicate NoShadow(parties: seq<Party>) {
    forall i, j :: 0 <= i < |parties| && 0 <= j < |parties| ==> !Shadows(parties[i], parties[j])
  }

  predicate ColonFree(s: string) {
    ':' !in s
  }

  lemma {:induction false} SlotOf(parties: seq<Party>, n: nat) returns (i: nat, k: nat)
    requires n < |Slots(parties)|
    ensures i < |parties| && k < parties[i].min
    ensures Slots(parties)[n] == Slot(PartyRef(parties[i], k), parties[i].roleId)
    ensures n == Minimum(parties[..i]) + k
  {
    var head := PartySlots(parties[0]);
    if n < |head| {
      i, k := 0, n;
    } else {
      i, k := SlotOf(parties[1..], n - |head|);
      i := i + 1;
      assert parties[..i] == [parties[0]] + parties[1..][..i - 1];
    }
  }

  lemma {:induction false} SlotAt(parties: seq<Party>, i: nat, k: nat) returns (n: nat)
    requires i < |parties| && k < parties[i].min
    ensures n < |Slots(parties)| && Slots(parties)[n] == Slot(PartyRef(parties[i], k), parties[i].roleId)
    ensures n == Minimum(parties[..i]) + k
  {
    var head := PartySlots(parties[0]);
    if i == 0 {
      n := k;
    } else {
      n := SlotAt(parties[1..], i - 1, k);
      n := n + |head|;
      assert parties[..i] == [parties[0]] + parties[1..][..i - 1];
    }
  }

  lemma {:induction false} SlotCount(parties: seq<Party>)
    ensures |Slots(parties)| == Minimum(parties)
  {
    if parties != [] {
      SlotCount(parties[1..]);
    }
  }

  lemma LastColon(a: string, b: string, x: string, y: string)
    requires a + ":" + x == b + ":" + y && ':' !in x && ':' !in y
    ensures a == b && x == y
  {
    var s, t := a + ":" + x, b + ":" + y;
    assert s[|a|] == ':' && t[|b|] == ':';
    assert forall i :: |a| < i < |s| ==> s[i] == x[i - |a| - 1] && s[i] in x;
    assert forall i :: |b| < i < |t| ==> t[i] == y[i - |b| - 1] && t[i] in y;
    assert |a| == |b|;
    assert a == s[..|a|] && b == t[..|b|];
    assert x == s[|a| + 1..] && y == t[|b| + 1..];
  }

  lemma DifferentNumbers(p: Party, q: Party, k: nat, l: nat)
    requires p.min > 1 && q.min > 1 && (p.roleId != q.roleId || k != l)
    ensures PartyRef(p, k) != PartyRef(q, l)
  {
    if PartyRef(p, k) == PartyRef(q, l) {
      LastColon(p.roleId, q.roleId, Dec(k + 1), Dec(l + 1));
      DecInjective(k + 1, l + 1);
    }
  }

  lemma DifferentSlots(p: Party, q: Party, k: nat, l: nat)
    requires k < p.min && l < q.min && (p.roleId != q.roleId || (p == q && k != l))
    requires !Shadows(p, q) && !Shadows(q, p)
    ensures PartyRef(p, k) != PartyRef(q, l)
  {
    if p.min > 1 && q.min > 1 {
      DifferentNumbers(p, q, k, l);
    } else if p.min == 1 && q.min > 1 {
      assert p.roleId == PartyRef(p, k);
    } else if p.min > 1 {
      assert q.roleId == PartyRef(q, l);
    }
  }

  /** For every policy the resolver accepts, the slots are pairwise distinct if and only if no
      single-slot role id spells a numbered slot of another role. */
  lemma SlotsDistinctIff(policy: Policy)
    requires Resolvable(policy)
    ensures Distinct(Refs(Slots(policy.parties))) <==> NoShadow(policy.parties)
  {
    var ps := policy.parties;
    var slots := Slots(ps);
    if NoShadow(ps) {
      forall n, m | 0 <= n < m < |slots|
        ensures slots[n].partyRef != slots[m].partyRef
      {
        var i, k := SlotOf(ps, n);
        var j, l := SlotOf(ps, m);
        assert !Shadows(ps[i], ps[j]) && !Shadows(ps[j], ps[i]);
        DifferentSlots(ps[i], ps[j], k, l);
      }
    } else {
      var i, j :| 0 <= i < |ps| && 0 <= j < |ps| && Shadows(ps[i], ps[j]);
      var k: nat :| k < ps[j].min && ps[i].roleId == PartyRef(ps[j], k);
      var n := SlotAt(ps, i, 0);
      var m := SlotAt(ps, j, k);
      assert Refs(slots)[n] == Refs(slots)[m];
      assert n != m;
      assert !Distinct(Refs(slots)) by {
        if n < m {
          assert Refs(slots)[n] == Refs(slots)[m];
        } else {
          assert Refs(slots)[m] == Refs(slots)[n];
        }
      }
    }
  }

  /** Role ids without a colon are enough. */
  lemma ColonFreeRolesAreDistinct(policy: Policy)
    requires Resolvable(policy) && forall p :: p in policy.parties ==> ColonFree(p.roleId)
    ensures Distinct(Refs(Slots(policy.parties))) && |Slots(policy.parties)| == Minimum(policy.parties) >= 2
  {
    var ps := policy.parties;
    forall i, j | 0 <= i < |ps| && 0 <= j < |ps|
      ensures !Shadows(ps[i], ps[j])
    {
      assert ps[i] in ps;
      forall k: nat | k < ps[j].min && ps[j].min > 1
        ensures ':' in PartyRef(ps[j], k)
      {
        assert PartyRef(ps[j], k)[|ps[j].roleId|] == ':';
      }
    }
    SlotsDistinctIff(policy);
    AtLeastTwoSlots(policy);
  }

  lemma AtLeastTwoSlots(policy: Policy)
    requires Resolvable(policy)
    ensures |Slots(policy.parties)| == Minimum(policy.parties) >= 2
  {
    var ps := policy.parties;
    SlotCount(ps);
    assert ps[1..][0] == ps[1] && PartyFits(ps[0]) && PartyFits(ps[1]);
  }

  const TWO := Party("a", "coEqual", "shared", 2, Unbounded, None, None, None, None)
  const ONE := Party("a:1", "coEqual", "shared", 1, Unbounded, None, None, None, None)

  lemma OneShadowsTwo()
    ensures Shadows(ONE, TWO)
  {
    assert Dec(1) == "1";
    assert PartyRef(TWO, 0) == "a:1";
  }

  /** A policy the resolver accepts whose slots collide. */
  lemma CollidingPolicy()
    ensures exists policy :: Resolvable(policy) && !Distinct(Refs(Slots(policy.parties)))
  {
    var policy := Policy("coEqual", [TWO, ONE], None, None);
    OneShadowsTwo();
    assert policy.parties[1] == ONE && policy.parties[0] == TWO;
    assert Resolvable(policy);
    SlotsDistinctIff(policy);
  }

  // ---------------------------------------------------------------- Order of first occurrence

  /** Array.prototype.find. */
  function Find<T(!new)>(s: seq<T>, p: T -> bool): (r: Option<T>)
    ensures r.None? <==> forall x :: x in s ==> !p(x)
    ensures r.Some? ==> r.value in s && p(r.value)
  {
    if s == [] then None else if p(s[0]) then Some(s[0]) else Find(s[1..], p)
  }

  /** The slots without those whose party ref came earlier. */
  function Order(slots: seq<Slot>): (r: seq<Slot>)
    ensures |r| <= |slots| && (slots != [] ==> r != [] && r[0] == slots[0])
    ensures Distinct(Refs(r))
    ensures forall s :: s in r ==> s in slots
    ensures forall s :: s in slots ==> s.partyRef in Refs(r)
  {
    if slots == [] then [] else
    var most, last := Order(slots[..|slots| - 1]), slots[|slots| - 1];
    assert slots == slots[..|slots| - 1] + [last];
    if last.partyRef in Refs(most) then most else
    assert Refs(most + [last]) == Refs(most) + [last.partyRef];
    most + [last]
  }

  lemma OrderSnoc(most: seq<Slot>, last: Slot)
    ensures Order(most + [last]) == if last.partyRef in Refs(Order(most)) then Order(most) else Order(most) + [last]
  {
    assert (most + [last])[..|most|] == most;
  }

  lemma DistinctSnoc(most: seq<Slot>, last: Slot)
    requires Distinct(Refs(most + [last]))
    ensures Distinct(Refs(most)) && last.partyRef !in Refs(most)
  {
    var refs, all := Refs(most), Refs(most + [last]);
    assert forall i :: 0 <= i < |refs| ==> all[i] == refs[i];
    assert all[|most|] == last.partyRef;
  }

  lemma {:induction false} OrderOfDistinct(slots: seq<Slot>)
    requires Distinct(Refs(slots))
    ensures Order(slots) == slots
  {
    if slots != [] {
      var most, last := slots[..|slots| - 1], slots[|slots| - 1];
      assert slots == most + [last];
      DistinctSnoc(most, last);
      OrderOfDistinct(most);
      OrderSnoc(most, last);
    }
  }

  lemma {:induction false} NothingDropped(slots: seq<Slot>)
    requires |Order(slots)| == |slots|
    ensures Order(slots) == slots
  {
    if slots != [] {
      var most, last := slots[..|slots| - 1], slots[|slots| - 1];
      assert slots == most + [last];
      OrderSnoc(most, last);
      NothingDropped(most);
    }
  }

  lemma OrderShorterIff(slots: seq<Slot>)
    ensures |Order(slots)| == |slots| <==> Distinct(Refs(slots))
  {
    if Distinct(Refs(slots)) {
      OrderOfDistinct(slots);
    }
    if |Order(slots)| == |slots| {
      NothingDropped(slots);
    }
  }

  lemma {:induction false} FindSnoc<T(!new)>(s: seq<T>, x: T, p: T -> bool)
    ensures Find(s + [x], p) == if Find(s, p).Some? then Find(s, p) else if p(x) then Some(x) else None
  {
    if s == [] {
      assert s + [x] == [x];
    } else {
      assert (s + [x])[1..] == s[1..] + [x];
      FindSnoc(s[1..], x, p);
    }
  }

  ghost predicate ByRef(p: Slot -> bool) {
    forall s: Slot, t: Slot :: s.partyRef == t.partyRef ==> p(s) == p(t)
  }

  /** A search that looks at party refs only meets the first occurrences. */
  lemma {:induction false} FindInOrder(slots: seq<Slot>, p: Slot -> bool)
    requires ByRef(p)
    ensures Find(slots, p) == Find(Order(slots), p)
  {
    if slots != [] {
      var most, last := slots[..|slots| - 1], slots[|slots| - 1];
      assert slots == most + [last];
      FindInOrder(most, p);
      FindSnoc(most, last, p);
      FindSnoc(Order(most), last, p);
      if last.partyRef in Refs(Order(most)) {
        var i :| 0 <= i < |Order(most)| && Refs(Order(most))[i] == last.partyRef;
        assert p(Order(most)[i]) == p(last);
      }
    }
  }

  lemma {:induction false} FindAt<T(!new)>(s: seq<T>, p: T -> bool, k: nat)
    requires k < |s| && p(s[k]) && forall i :: 0 <= i < k ==> !p(s[i])
    ensures Find(s, p) == Some(s[k])
  {
    if k > 0 {
      FindAt(s[1..], p, k - 1);
    }
  }
}
