/** Safe-address policy from the form's item tree to the resolved audiences: extraction,
    the organisation's and the form's limits, and the intersection of audience lists. */
module SafeAddress {
  import opened Common
  import opened Text
  import opened FeaturePolicy

  datatype AccessClass = SafeAddressClass | SafeContact | SafeEmployer
  datatype Tier = Phase1Fallback | VerifierGrade

  type Audience = string

  datatype Field = Field(
    path: string, caption: Option<string>, accessClass: AccessClass, visibleTo: Option<seq<Audience>>,
    plaintextAudiences: Option<seq<Audience>>, effectiveAudiences: Option<seq<Audience>>)

  /** A form item; `accessClass` is none when its access-control class is not a safe one. A
      repeatable group has an array of instances as its value; extraction does not look. */
  datatype Item = Item(
    key: string, caption: string, isGroup: bool, repeatable: bool, accessClass: Option<AccessClass>,
    visibleTo: Option<seq<Audience>>, plaintextAudiences: Option<seq<Audience>>,
    effectiveAudiences: Option<seq<Audience>>, children: seq<Item>)

  // ---------------------------------------------------------------- Extraction

  function NonEmpty(s: seq<string>): seq<string> {
    Filter(s, (x: string) => x != "")
  }

  /** `stringArray`: only non-empty strings, and only when there is a list. */
  function StringArray(o: Option<seq<string>>): Option<seq<string>> {
    match o
    case None => None
    case Some(s) => Some(NonEmpty(s))
  }

  function PathOf(keys: seq<string>): string {
    "/" + Join(keys, '/')
  }

  function OwnField(item: Item, ancestors: seq<string>): seq<Field> {
    match item.accessClass
    case None => []
    case Some(cls) =>
      [Field(PathOf(ancestors + [item.key]), Some(item.caption), cls, StringArray(item.visibleTo),
             StringArray(item.plaintextAudiences), StringArray(item.effectiveAudiences))]
  }

  /** What the walker pushes for one item: its own field, then its descendants'. */
  function ItemFields(item: Item, ancestors: seq<string>): seq<Field>
    decreases item
  {
    if item.isGroup then OwnField(item, ancestors) + FieldsFromItems(item.children, ancestors + [item.key])
    else OwnField(item, ancestors)
  }

  /** `safeAddressFieldsFromItems`. */
  function FieldsFromItems(items: seq<Item>, ancestors: seq<string>): seq<Field>
    decreases items
  {
    if items == [] then [] else ItemFields(items[0], ancestors) + FieldsFromItems(items[1..], ancestors)
  }

  lemma {:induction false} FieldsSnoc(items: seq<Item>, item: Item, ancestors: seq<string>)
    ensures FieldsFromItems(items + [item], ancestors)
            == FieldsFromItems(items, ancestors) + ItemFields(item, ancestors)
  {
    if items != [] {
      assert (items + [item])[1..] == items[1..] + [item];
      FieldsSnoc(items[1..], item, ancestors);
    }
  }

  /** The walker as written: a local list pushed to in a loop, recursing into groups. */
  method ExtractFields(items: seq<Item>, ancestors: seq<string>) returns (fields: seq<Field>)
    ensures fields == FieldsFromItems(items, ancestors)
    decreases items
  {
    fields := [];
    for n := 0 to |items|
      invariant fields == FieldsFromItems(items[..n], ancestors)
    {
      var item := items[n];
      assert items[..n + 1] == items[..n] + [item];
      FieldsSnoc(items[..n], item, ancestors);
      fields := fields + OwnField(item, ancestors);
      if item.isGroup {
        var nested := ExtractFields(item.children, ancestors + [item.key]);
        fields := fields + nested;
      }
    }
    assert items[..|items|] == items;
  }

  /** A position in the tree: an index at each level. Groups have children, and so may fields:
      their dependent questions. */
  predicate Reaches(items: seq<Item>, at: seq<nat>)
    decreases |at|
  {
    at != [] && at[0] < |items| && (|at| > 1 ==> Reaches(items[at[0]].children, at[1..]))
  }

  /** Every item that encloses the position is a group. */
  predicate UnderGroups(items: seq<Item>, at: seq<nat>)
    requires Reaches(items, at)
    decreases |at|
  {
    |at| > 1 ==> items[at[0]].isGroup && UnderGroups(items[at[0]].children, at[1..])
  }

  function ItemAt(items: seq<Item>, at: seq<nat>): Item
    requires Reaches(items, at)
    decreases |at|
  {
    if |at| == 1 then items[at[0]] else ItemAt(items[at[0]].children, at[1..])
  }

  /** The keys from the root to the position. */
  function KeysAt(items: seq<Item>, at: seq<nat>): seq<string>
    requires Reaches(items, at)
    decreases |at|
  {
    if |at| == 1 then [items[at[0]].key] else [items[at[0]].key] + KeysAt(items[at[0]].children, at[1..])
  }

  ghost predicate ComesFrom(f: Field, items: seq<Item>, ancestors: seq<string>, at: seq<nat>)
    requires Reaches(items, at)
  {
    var item := ItemAt(items, at);
    && item.accessClass == Some(f.accessClass)
    && f.path == PathOf(ancestors + KeysAt(items, at))
    && f.caption == Some(item.caption) && f.visibleTo == StringArray(item.visibleTo)
    && f.plaintextAudiences == StringArray(item.plaintextAudiences)
    && f.effectiveAudiences == StringArray(item.effectiveAudiences)
  }

  lemma DeeperPath(item: Item, ancestors: seq<string>, items: seq<Item>, at: seq<nat>)
    requires Reaches(items, at) && |at| > 1 && items[at[0]] == item
    ensures ancestors + [item.key] + KeysAt(item.children, at[1..]) == ancestors + KeysAt(items, at)
  {
  }

  /** Every safe item reachable through groups is extracted, with its path. */
  lemma {:induction false} ExtractionComplete(items: seq<Item>, ancestors: seq<string>, at: seq<nat>) returns (f: Field)
    requires Reaches(items, at) && UnderGroups(items, at) && ItemAt(items, at).accessClass.Some?
    ensures f in FieldsFromItems(items, ancestors) && ComesFrom(f, items, ancestors, at)
    decreases |at|
  {
    var item := items[at[0]];
    ItemsFields(items, at[0], ancestors);
    if |at| == 1 {
      f := OwnField(item, ancestors)[0];
    } else {
      f := ExtractionComplete(item.children, ancestors + [item.key], at[1..]);
      DeeperPath(item, ancestors, items, at);
    }
  }

  lemma {:induction false} ItemsFields(items: seq<Item>, n: nat, ancestors: seq<string>)
    requires n < |items|
    ensures forall f :: f in ItemFields(items[n], ancestors) ==> f in FieldsFromItems(items, ancestors)
  {
    if n > 0 {
      ItemsFields(items[1..], n - 1, ancestors);
    }
  }

  lemma {:induction false} FieldsItem(items: seq<Item>, ancestors: seq<string>, f: Field) returns (n: nat)
    requires f in FieldsFromItems(items, ancestors)
    ensures n < |items| && f in ItemFields(items[n], ancestors)
  {
    if f in ItemFields(items[0], ancestors) {
      n := 0;
    } else {
      n := FieldsItem(items[1..], ancestors, f);
      n := n + 1;
    }
  }

  /** Every extracted field is a safe item reachable through groups. */
  lemma {:induction false} ExtractionSound(items: seq<Item>, ancestors: seq<string>, f: Field) returns (at: seq<nat>)
    requires f in FieldsFromItems(items, ancestors)
    ensures Reaches(items, at) && UnderGroups(items, at) && ComesFrom(f, items, ancestors, at)
    decreases items
  {
    var n := FieldsItem(items, ancestors, f);
    var item := items[n];
    if f in OwnField(item, ancestors) {
      at := [n];
      assert ancestors + KeysAt(items, at) == ancestors + [item.key];
    } else {
      var deeper := ExtractionSound(item.children, ancestors + [item.key], f);
      at := [n] + deeper;
      assert at[1..] == deeper;
      DeeperPath(item, ancestors, items, at);
    }
  }

  // ---------------------------------------------------------------- Which items are extracted

  function Below(n: nat, positions: seq<seq<nat>>): (r: seq<seq<nat>>)
    ensures |r| == |positions| && forall i :: 0 <= i < |r| ==> r[i] == [n] + positions[i]
  {
    if positions == [] then [] else [[n] + positions[0]] + Below(n, positions[1..])
  }

  /** What the walker pushes for the item at index `n`, by position: itself, its descendants. */
  function ItemPositions(item: Item, n: nat): seq<seq<nat>>
    decreases item
  {
    (if item.accessClass.Some? then [[n]] else []) + (if item.isGroup then Below(n, Positions(item.children)) else [])
  }

  /** The positions whose fields the walker pushes, in its order. */
  function Positions(items: seq<Item>): seq<seq<nat>>
    decreases items
  {
    if items == [] then [] else
    var n := |items| - 1;
    Positions(items[..n]) + ItemPositions(items[n], n)
  }

  /** The fields, one by one, come from these positions. */
  ghost predicate Match(items: seq<Item>, ancestors: seq<string>, positions: seq<seq<nat>>, fields: seq<Field>) {
    && |positions| == |fields|
    && forall i :: 0 <= i < |fields| ==>
         Reaches(items, positions[i]) && ComesFrom(fields[i], items, ancestors, positions[i])
  }

  lemma {:induction false} SamePlace(items: seq<Item>, n: nat, at: seq<nat>)
    requires n <= |items| && Reaches(items[..n], at)
    ensures Reaches(items, at) && ItemAt(items, at) == ItemAt(items[..n], at)
    ensures KeysAt(items, at) == KeysAt(items[..n], at) && UnderGroups(items, at) == UnderGroups(items[..n], at)
  {
    assert items[..n][at[0]] == items[at[0]];
  }

  lemma MatchPrefix(items: seq<Item>, n: nat, ancestors: seq<string>, positions: seq<seq<nat>>, fields: seq<Field>)
    requires n <= |items| && Match(items[..n], ancestors, positions, fields)
    ensures Match(items, ancestors, positions, fields)
  {
    forall i | 0 <= i < |fields|
      ensures Reaches(items, positions[i]) && ComesFrom(fields[i], items, ancestors, positions[i])
    {
      SamePlace(items, n, positions[i]);
    }
  }

  lemma MatchBelow(items: seq<Item>, n: nat, ancestors: seq<string>, positions: seq<seq<nat>>, fields: seq<Field>)
    requires n < |items| && Match(items[n].children, ancestors + [items[n].key], positions, fields)
    ensures Match(items, ancestors, Below(n, positions), fields)
  {
    var below := Below(n, positions);
    forall i | 0 <= i < |fields|
      ensures Reaches(items, below[i]) && ComesFrom(fields[i], items, ancestors, below[i])
    {
      assert below[i][1..] == positions[i];
      DeeperPath(items[n], ancestors, items, below[i]);
    }
  }

  lemma MatchConcat(items: seq<Item>, ancestors: seq<string>, a: seq<seq<nat>>, f: seq<Field>, b: seq<seq<nat>>,
                    g: seq<Field>)
    requires Match(items, ancestors, a, f) && Match(items, ancestors, b, g)
    ensures Match(items, ancestors, a + b, f + g)
  {
  }

  lemma OwnMatches(items: seq<Item>, n: nat, ancestors: seq<string>)
    requires n < |items|
    ensures Match(items, ancestors, if items[n].accessClass.Some? then [[n]] else [], OwnField(items[n], ancestors))
  {
    assert Reaches(items, [n]) && ItemAt(items, [n]) == items[n];
    assert ancestors + KeysAt(items, [n]) == ancestors + [items[n].key];
  }

  /** Field by field, extraction follows `Positions`. */
  lemma {:induction false} FieldsFollowPositions(items: seq<Item>, ancestors: seq<string>)
    ensures Match(items, ancestors, Positions(items), FieldsFromItems(items, ancestors))
    decreases items
  {
    if items != [] {
      var n := |items| - 1;
      var item := items[n];
      assert items == items[..n] + [item];
      FieldsSnoc(items[..n], item, ancestors);
      FieldsFollowPositions(items[..n], ancestors);
      MatchPrefix(items, n, ancestors, Positions(items[..n]), FieldsFromItems(items[..n], ancestors));
      ItemFollows(items, n, ancestors);
      MatchConcat(items, ancestors, Positions(items[..n]), FieldsFromItems(items[..n], ancestors),
                  ItemPositions(item, n), ItemFields(item, ancestors));
    }
  }

  lemma {:induction false} ItemFollows(items: seq<Item>, n: nat, ancestors: seq<string>)
    requires n < |items|
    ensures Match(items, ancestors, ItemPositions(items[n], n), ItemFields(items[n], ancestors))
    decreases items, 0
  {
    var item := items[n];
    OwnMatches(items, n, ancestors);
    if item.isGroup {
      FieldsFollowPositions(item.children, ancestors + [item.key]);
      var below, fields := Positions(item.children), FieldsFromItems(item.children, ancestors + [item.key]);
      MatchBelow(items, n, ancestors, below, fields);
      MatchConcat(items, ancestors, if item.accessClass.Some? then [[n]] else [], OwnField(item, ancestors),
                  Below(n, below), fields);
    }
  }

  predicate IsSafe(items: seq<Item>, at: seq<nat>) {
    Reaches(items, at) && ItemAt(items, at).accessClass.Some?
  }

  lemma BelowIff(n: nat, positions: seq<seq<nat>>, at: seq<nat>)
    ensures at in Below(n, positions) <==> at != [] && at[0] == n && at[1..] in positions
  {
    if at != [] && at[0] == n && at[1..] in positions {
      var i :| 0 <= i < |positions| && positions[i] == at[1..];
      assert Below(n, positions)[i] == at;
    }
    if at in Below(n, positions) {
      var i :| 0 <= i < |positions| && at == [n] + positions[i];
      assert at[1..] == positions[i];
    }
  }

  lemma {:induction false} ItemPositionsIff(items: seq<Item>, n: nat, at: seq<nat>)
    requires n < |items|
    ensures at in ItemPositions(items[n], n) <==> at != [] && at[0] == n && IsSafe(items, at) && UnderGroups(items, at)
    decreases items, 0
  {
    var item := items[n];
    BelowIff(n, Positions(item.children), at);
    if at != [] && at[0] == n {
      PositionsIff(item.children, at[1..]);
      if |at| == 1 {
        assert at == [n] && at[1..] == [];
      }
    }
  }

  /** The walker pushes a field for exactly those safe items whose enclosing items are all
      groups; it never enters a field's dependent questions. */
  lemma {:induction false} PositionsIff(items: seq<Item>, at: seq<nat>)
    ensures at in Positions(items) <==> IsSafe(items, at) && UnderGroups(items, at)
    decreases items
  {
    if items != [] {
      var n := |items| - 1;
      PositionsIff(items[..n], at);
      ItemPositionsIff(items, n, at);
      if at != [] && at[0] < n {
        assert items[..n][at[0]] == items[at[0]];
      }
    }
  }

  /** The walker pushes the item's own field. */
  ghost predicate OwnFieldExtracted(items: seq<Item>, at: seq<nat>)
    requires Reaches(items, at)
  {
    exists i :: 0 <= i < |Positions(items)| && Positions(items)[i] == at
                && i < |FieldsFromItems(items, [])| && ComesFrom(FieldsFromItems(items, [])[i], items, [], at)
  }

  /** A safe item's own field is extracted if and only if every enclosing item is a group. */
  lemma OwnFieldExtractedIff(items: seq<Item>, at: seq<nat>)
    requires IsSafe(items, at)
    ensures OwnFieldExtracted(items, at) <==> UnderGroups(items, at)
  {
    PositionsIff(items, at);
    FieldsFollowPositions(items, []);
    if at in Positions(items) {
      var i :| 0 <= i < |Positions(items)| && Positions(items)[i] == at;
      assert ComesFrom(FieldsFromItems(items, [])[i], items, [], at);
    }
  }

  /** Without an extension block the feature is declared if and only if some safe item has
      nothing but groups around it. */
  lemma DeclaredIff(items: seq<Item>)
    ensures Extract(items, NoBlock).Declared? <==> exists at :: IsSafe(items, at) && UnderGroups(items, at)
  {
    FieldsFollowPositions(items, []);
    if Positions(items) != [] {
      PositionsIff(items, Positions(items)[0]);
    }
    if at :| IsSafe(items, at) && UnderGroups(items, at) {
      PositionsIff(items, at);
    }
  }

  /** The parsed `x-formspec-safe-address` extension. */
  datatype Block =
    | NoBlock
    | BlockFalse
    | Block(enabled: bool, mode: Option<FormMode>, tier: Option<Tier>, enabledClasses: Option<seq<AccessClass>>,
            jurisdictions: Option<seq<string>>, audiences: Option<seq<Audience>>, directory: Option<string>,
            fields: seq<Field>)

  /** `limits.safeAddress` of the organisation or the form. */
  datatype Limits = Limits(
    enabledClasses: Option<seq<AccessClass>>, tier: Option<Tier>, directory: Option<string>,
    jurisdictions: Option<seq<string>>, audiences: Option<seq<Audience>>, fields: seq<Field>)

  const NO_LIMITS := Limits(None, None, None, None, None, [])

  datatype Extracted = NotDeclared | Forbidden | Declared(mode: FormMode, limits: Limits)

  function Or<T>(o: Option<T>, other: T): T {
    match o
    case None => other
    case Some(x) => x
  }

  const DEFAULT_DIRECTORY := "composition:safeAddressDirectory"

  function Classes(fields: seq<Field>): seq<AccessClass> {
    seq(|fields|, i requires 0 <= i < |fields| => fields[i].accessClass)
  }

  /** `[...new Set(values)]`. */
  function Unique<T(==,!new)>(s: seq<T>): (r: seq<T>)
    ensures s != [] ==> r != []
    ensures forall x :: x in r <==> x in s
    ensures forall i, j :: 0 <= i < j < |r| ==> r[i] != r[j]
  {
    if s == [] then [] else
    assert s == s[..|s| - 1] + [s[|s| - 1]];
    var most := Unique(s[..|s| - 1]);
    if s[|s| - 1] in most then most else most + [s[|s| - 1]]
  }

  /** `extractSafeAddressPolicy`. */
  function Extract(items: seq<Item>, block: Block): Extracted {
    var fields := FieldsFromItems(items, []) + (if block.Block? then block.fields else []);
    if block.BlockFalse? && fields == [] then Forbidden
    else if !(block.Block? && block.enabled) && fields == [] then NotDeclared
    else
      var b := if block.Block? then block else Block(false, None, None, None, None, None, None, []);
      Declared(if fields != [] then FormRequired else Or(b.mode, FormRequired),
               Limits(Some(Or(b.enabledClasses, Unique(Classes(fields)))), Some(Or(b.tier, Phase1Fallback)),
                      Some(Or(b.directory, DEFAULT_DIRECTORY)), Some(Or(b.jurisdictions, [])),
                      Some(Or(b.audiences, [])), fields))
  }

  // ---------------------------------------------------------------- Resolution

  datatype SafeError =
    | MalformedLimits | NoField | NoClass | NoJurisdiction | NoAudience | TierExceeded
    | FieldHasNoAudience(path: string) | FieldAudienceUnauthorized(path: string) | FieldAudienceNotVisible(path: string)

  datatype Config = Config(
    enabledClasses: seq<AccessClass>, tier: Tier, directory: string, jurisdictions: seq<string>,
    audiences: seq<Audience>, fields: seq<Field>)

  predicate AllNonEmpty(o: Option<seq<string>>) {
    o.Some? ==> forall s :: s in o.value ==> s != ""
  }

  /** `validateSafeAddressLimits`. */
  predicate WellFormed(l: Limits) {
    && AllNonEmpty(l.jurisdictions) && AllNonEmpty(l.audiences) && l.directory != Some("")
    && forall f :: f in l.fields ==>
         && "/" <= f.path && AllNonEmpty(f.visibleTo) && AllNonEmpty(f.plaintextAudiences)
         && AllNonEmpty(f.effectiveAudiences)
  }

  /** `nonEmptyStringArrayFrom`: no list when nothing is left of it. */
  function NonEmptyArray(o: Option<seq<string>>): Option<seq<string>> {
    if o.Some? && NonEmpty(o.value) != [] then Some(NonEmpty(o.value)) else None
  }

  /** The organisation's audiences, narrowed by the form's when it names any. */
  function Authorized(org: Option<seq<Audience>>, form: Option<seq<Audience>>): seq<Audience> {
    var ours := Or(StringArray(org), ["issuer_verification"]);
    match NonEmptyArray(form)
    case None => ours
    case Some(theirs) => Filter(theirs, (a: Audience) => a in ours)
  }

  /** Which jurisdictions are accepted: the form's when it names any, the organisation's
      otherwise. */
  function Accepted(org: Limits, form: Limits): seq<string> {
    Or(NonEmptyArray(form.jurisdictions), Or(StringArray(org.jurisdictions), []))
  }

  function Rank(t: Tier): nat {
    if t == VerifierGrade then 2 else 1
  }

  /** `resolveSafeAddressFieldAudience`. */
  function ResolveField(f: Field, allowed: seq<Audience>): Result<Field, SafeError> {
    if f.effectiveAudiences.Some? then
      var effective := f.effectiveAudiences.value;
      if effective == [] then Err(FieldHasNoAudience(f.path))
      else if exists a :: a in effective && a !in allowed then Err(FieldAudienceUnauthorized(f.path))
      else if f.visibleTo.Some? && exists a :: a in effective && a !in f.visibleTo.value then
        Err(FieldAudienceNotVisible(f.path))
      else Ok(f.(plaintextAudiences := Some(effective)))
    else
      var plaintext := Filter(Or(f.plaintextAudiences, allowed), (a: Audience) => a in allowed);
      if plaintext == [] then Err(FieldHasNoAudience(f.path))
      else if f.visibleTo.None? then Ok(f.(plaintextAudiences := Some(plaintext)))
      else
        var both := Filter(f.visibleTo.value, (a: Audience) => a in plaintext);
        if both == [] then Err(FieldHasNoAudience(f.path)) else Ok(f.(plaintextAudiences := Some(both)))
  }

  function ResolveFields(fields: seq<Field>, allowed: seq<Audience>): (r: Result<seq<Field>, SafeError>)
    ensures r.Ok? ==> |r.value| == |fields|
                      && forall i :: 0 <= i < |fields| ==> ResolveField(fields[i], allowed) == Ok(r.value[i])
    ensures r.Ok? <==> forall i :: 0 <= i < |fields| ==> ResolveField(fields[i], allowed).Ok?
  {
    if fields == [] then Ok([]) else
    var first, rest := ResolveField(fields[0], allowed), ResolveFields(fields[1..], allowed);
    if first.Err? then Err(first.error)
    else if rest.Err? then
      Err(rest.error)
    else
      Ok([first.value] + rest.value)
  }

  /** `resolveSafeAddressPolicy`. */
  function Resolve(org: Limits, form: Limits): Result<Config, SafeError> {
    var enabledClasses :=
      if form.enabledClasses.Some? && form.enabledClasses.value != [] then form.enabledClasses.value
      else if org.enabledClasses.Some? && org.enabledClasses.value != [] then org.enabledClasses.value
      else Unique(Classes(form.fields));
    var audiences := Authorized(org.audiences, form.audiences);
    var jurisdictions := Accepted(org, form);
    var deployed := Or(org.tier, Phase1Fallback);
    var tier := Or(form.tier, deployed);
    if form.fields == [] then Err(NoField)
    else if enabledClasses == [] then Err(NoClass)
    else if jurisdictions == [] then Err(NoJurisdiction)
    else if audiences == [] then Err(NoAudience)
    else if Rank(tier) > Rank(deployed) then Err(TierExceeded)
    else
      var fields := ResolveFields(form.fields, audiences);
      if fields.Err? then Err(fields.error) else
      Ok(Config(enabledClasses, tier, Or(form.directory, Or(org.directory, DEFAULT_DIRECTORY)), jurisdictions,
                audiences, fields.value))
  }

  // ---------------------------------------------------------------- End to end

  const SAFE_ADDRESS: Key := "safeAddress"

  datatype Profile = Profile(features: Features, safeAddress: Option<Config>)

  /** What resolution of a whole profile amounts to, as far as safe addresses go: the limits
      are well formed, the features resolve, and an enabled safe-address policy resolves. */
  ghost predicate ProfileResolves(t: Taxonomy, c: Composition, ps: Policies, org: Limits, form: Limits, p: Profile)
    requires Covers(t, c)
  {
    && WellFormed(org) && WellFormed(form)
    && Resolves(t, c, ps, p.features)
    && (if SAFE_ADDRESS in p.features.enabled
        then Resolve(org, form).Ok? && p.safeAddress == Some(Resolve(org, form).value)
        else p.safeAddress.None?)
  }

  ghost predicate Within(inner: seq<Audience>, outer: seq<Audience>) {
    forall a :: a in inner ==> a in outer
  }

  /** A resolved field keeps its path and class; its plaintext audiences are not empty and lie
      within the allowed ones and within its own visible-to list. */
  lemma ResolvedFieldAudience(f: Field, allowed: seq<Audience>)
    requires ResolveField(f, allowed).Ok?
    ensures var r := ResolveField(f, allowed).value;
            && r.path == f.path && r.accessClass == f.accessClass && r.visibleTo == f.visibleTo
            && r.plaintextAudiences.Some? && r.plaintextAudiences.value != []
            && Within(r.plaintextAudiences.value, allowed)
            && (f.visibleTo.Some? ==> Within(r.plaintextAudiences.value, f.visibleTo.value))
  {
  }

  /** Whom a field without an effective list may be shown to: allowed, and named by its plaintext
      list and by its visible-to list when it has one. */
  predicate MayRead(a: Audience, allowed: seq<Audience>, plaintext: Option<seq<Audience>>,
                    visibleTo: Option<seq<Audience>>) {
    a in allowed && (plaintext.Some? ==> a in plaintext.value) && (visibleTo.Some? ==> a in visibleTo.value)
  }

  /** Exactly who may read a resolved field: an effective list is taken as it is; without one,
      exactly the audiences that pass all three lists. */
  lemma FieldAudienceIff(f: Field, allowed: seq<Audience>, a: Audience)
    requires ResolveField(f, allowed).Ok?
    ensures var r := ResolveField(f, allowed).value;
            && (f.effectiveAudiences.Some? ==> r.plaintextAudiences == f.effectiveAudiences)
            && (f.effectiveAudiences.None? ==>
                  r.plaintextAudiences.Some?
                  && (a in r.plaintextAudiences.value <==> MayRead(a, allowed, f.plaintextAudiences, f.visibleTo)))
  {
  }

  /** A field resolves exactly when somebody may read it and an effective list names nobody who
      is not allowed or not in the visible-to list; the error says which. */
  lemma FieldResolvesIff(f: Field, allowed: seq<Audience>)
    ensures var r := ResolveField(f, allowed);
            match f.effectiveAudiences
            case None =>
              && (r.Ok? <==> exists a :: a in allowed && MayRead(a, allowed, f.plaintextAudiences, f.visibleTo))
              && (r.Err? ==> r.error == FieldHasNoAudience(f.path))
            case Some(effective) =>
              var outside := exists a :: a in effective && a !in allowed;
              var hidden := exists a :: a in effective && f.visibleTo.Some? && a !in f.visibleTo.value;
              && (r == Err(FieldHasNoAudience(f.path)) <==> effective == [])
              && (r == Err(FieldAudienceUnauthorized(f.path)) <==> outside)
              && (r == Err(FieldAudienceNotVisible(f.path)) <==> !outside && hidden)
              && (r.Ok? <==> effective != [] && !outside && !hidden)
  {
    if f.effectiveAudiences.None? && ResolveField(f, allowed).Ok? {
      var list := ResolveField(f, allowed).value.plaintextAudiences.value;
      assert list[0] in list;
    }
  }

  /** Who is authorized at all: a named audience of the organisation, or issuer verification when
      it has no list, and of the form when it names any. */
  lemma AuthorizedIff(org: Option<seq<Audience>>, form: Option<seq<Audience>>, a: Audience)
    ensures a in Authorized(org, form) <==>
              && a != ""
              && (if org.Some? then a in org.value else a == "issuer_verification")
              && (form.Some? && (exists b :: b in form.value && b != "") ==> a in form.value)
  {
    if form.Some? && NonEmpty(form.value) != [] {
      assert NonEmpty(form.value)[0] in NonEmpty(form.value);
    }
  }

  /** Exactly which ones these are. */
  lemma AcceptedIff(org: Limits, form: Limits, j: string)
    ensures j in Accepted(org, form) <==>
              j != ""
              && (if form.jurisdictions.Some? && (exists k :: k in form.jurisdictions.value && k != "")
                  then j in form.jurisdictions.value
                  else org.jurisdictions.Some? && j in org.jurisdictions.value)
  {
    if NonEmptyArray(form.jurisdictions).Some? {
      assert NonEmpty(form.jurisdictions.value)[0] in NonEmpty(form.jurisdictions.value);
    }
  }

  /** The form asks for a tier that the deployment does not offer. */
  predicate TierTooHigh(org: Limits, form: Limits) {
    form.tier == Some(VerifierGrade) && org.tier != Some(VerifierGrade)
  }

  /** A policy resolves exactly when it has a field, a jurisdiction and an audience, the
      deployment offers the tier and every field resolves; the first of these that fails is the
      error. */
  lemma ResolvesIff(org: Limits, form: Limits)
    ensures var r := Resolve(org, form);
            var jurisdictions, audiences := Accepted(org, form), Authorized(org.audiences, form.audiences);
            && (r == Err(NoField) <==> form.fields == [])
            && r != Err(NoClass)
            && (r == Err(NoJurisdiction) <==> form.fields != [] && jurisdictions == [])
            && (r == Err(NoAudience) <==> form.fields != [] && jurisdictions != [] && audiences == [])
            && (r == Err(TierExceeded) <==>
                form.fields != [] && jurisdictions != [] && audiences != [] && TierTooHigh(org, form))
            && (r.Ok? <==> form.fields != [] && jurisdictions != [] && audiences != [] && !TierTooHigh(org, form)
                           && forall i :: 0 <= i < |form.fields| ==> ResolveField(form.fields[i], audiences).Ok?)
  {
    FieldErrorKinds(form.fields, Authorized(org.audiences, form.audiences));
  }

  lemma {:induction false} FieldErrorKinds(fields: seq<Field>, allowed: seq<Audience>)
    ensures var r := ResolveFields(fields, allowed);
            r.Err? ==> r.error.FieldHasNoAudience? || r.error.FieldAudienceUnauthorized?
                       || r.error.FieldAudienceNotVisible?
  {
    if fields != [] {
      FieldErrorKinds(fields[1..], allowed);
    }
  }

  /** What a resolved policy says beyond its fields: the form's word where it has one, else the
      organisation's, else the default. */
  lemma ResolvedSays(org: Limits, form: Limits)
    requires Resolve(org, form).Ok?
    ensures var cfg := Resolve(org, form).value;
            && cfg.audiences == Authorized(org.audiences, form.audiences) && cfg.jurisdictions == Accepted(org, form)
            && (cfg.tier == VerifierGrade <==>
                org.tier == Some(VerifierGrade) && form.tier != Some(Phase1Fallback))
            && (form.directory.Some? ==> form.directory == Some(cfg.directory))
            && (form.directory.None? && org.directory.Some? ==> org.directory == Some(cfg.directory))
            && (form.directory.None? && org.directory.None? ==> cfg.directory == DEFAULT_DIRECTORY)
            && |cfg.fields| == |form.fields|
            && (forall i :: 0 <= i < |form.fields| ==> ResolveField(form.fields[i], cfg.audiences) == Ok(cfg.fields[i]))
  {
  }

  /** Without a list of classes on either side exactly the classes of the fields are enabled;
      a list that names any replaces them, the form's before the organisation's. */
  lemma EnabledClassesIff(org: Limits, form: Limits, cls: AccessClass)
    requires Resolve(org, form).Ok?
    ensures cls in Resolve(org, form).value.enabledClasses <==>
              if form.enabledClasses.Some? && form.enabledClasses.value != [] then cls in form.enabledClasses.value
              else if org.enabledClasses.Some? && org.enabledClasses.value != [] then cls in org.enabledClasses.value
              else exists f :: f in form.fields && f.accessClass == cls
  {
    var classes := Classes(form.fields);
    if cls in classes {
      var i :| 0 <= i < |classes| && classes[i] == cls;
      assert form.fields[i] in form.fields;
    }
    if f :| f in form.fields && f.accessClass == cls {
      var i :| 0 <= i < |form.fields| && form.fields[i] == f;
      assert classes[i] == cls;
    }
  }

  /** When a form declares the feature, and with which fields: those of its items first, then
      those of its extension block. Any field makes the feature required. */
  lemma ExtractsIff(items: seq<Item>, block: Block)
    ensures var fields := FieldsFromItems(items, []) + (if block.Block? then block.fields else []);
            && (Extract(items, block) == Forbidden <==> block.BlockFalse? && fields == [])
            && (Extract(items, block).Declared? <==> fields != [] || (block.Block? && block.enabled))
            && (Extract(items, block).Declared? ==>
                  var d := Extract(items, block);
                  && d.limits.fields == fields
                  && (d.mode == FormRequired <==> fields != [] || block.mode in {None, Some(FormRequired)})
                  && d.limits.audiences.Some? && d.limits.jurisdictions.Some?
                  && (block.Block? && block.audiences.Some? ==> d.limits.audiences == block.audiences)
                  && (block.Block? && block.jurisdictions.Some? ==> d.limits.jurisdictions == block.jurisdictions)
                  && (block.Block? && block.tier.Some? ==> d.limits.tier == block.tier)
                  && (!block.Block? ==> d.limits.tier == Some(Phase1Fallback)
                                        && d.limits.audiences == d.limits.jurisdictions == Some([])))
  {
  }

  lemma AuthorizedWithinOrg(org: Option<seq<Audience>>, form: Option<seq<Audience>>)
    ensures Within(Authorized(org, form), Or(org, ["issuer_verification"]))
  {
  }

  /** The readers of an item's address: its effective list, or those who pass its other lists. */
  ghost predicate ReadExactlyBy(readers: seq<Audience>, item: Item, allowed: seq<Audience>) {
    forall a :: a in readers <==>
      if item.effectiveAudiences.Some? then a in item.effectiveAudiences.value && a != ""
      else MayRead(a, allowed, item.plaintextAudiences, item.visibleTo)
  }

  lemma ItemAudience(item: Item, f: Field, org: Option<seq<Audience>>, form: Option<seq<Audience>>)
    requires f.visibleTo == StringArray(item.visibleTo) && f.plaintextAudiences == StringArray(item.plaintextAudiences)
    requires f.effectiveAudiences == StringArray(item.effectiveAudiences)
    requires ResolveField(f, Authorized(org, form)).Ok?
    ensures var allowed := Authorized(org, form);
            ReadExactlyBy(Or(ResolveField(f, allowed).value.plaintextAudiences, []), item, allowed)
  {
    var allowed := Authorized(org, form);
    forall a: Audience
      ensures a in allowed ==> a != ""
      ensures f.effectiveAudiences.None? ==>
                (a in Or(ResolveField(f, allowed).value.plaintextAudiences, []) <==>
                 MayRead(a, allowed, item.plaintextAudiences, item.visibleTo))
    {
      AuthorizedIff(org, form, a);
      FieldAudienceIff(f, allowed, a);
    }
  }

  lemma RequiredPolicyResolves(t: Taxonomy, c: Composition, ps: Policies, org: Limits, form: Limits, p: Profile)
    requires Covers(t, c) && SAFE_ADDRESS in t.keys && Get(ps.form, SAFE_ADDRESS) == Some(FormRequired)
    requires ProfileResolves(t, c, ps, org, form, p)
    ensures Resolve(org, form).Ok? && p.safeAddress == Some(Resolve(org, form).value)
  {
    assert DecideKey(c, ps, SAFE_ADDRESS) == Ok(Enabled);
  }

  lemma ResolvedItem(item: Item, org: Limits, form: Limits, i: nat)
    requires Resolve(org, form).Ok? && i < |form.fields|
    requires form.fields[i].visibleTo == StringArray(item.visibleTo)
    requires form.fields[i].plaintextAudiences == StringArray(item.plaintextAudiences)
    requires form.fields[i].effectiveAudiences == StringArray(item.effectiveAudiences)
    ensures var cfg := Resolve(org, form).value;
            && i < |cfg.fields| && cfg.audiences == Authorized(org.audiences, form.audiences)
            && var f := cfg.fields[i];
               && f.path == form.fields[i].path && f.accessClass == form.fields[i].accessClass
               && f.plaintextAudiences.Some? && f.plaintextAudiences.value != []
               && Within(f.plaintextAudiences.value, cfg.audiences)
               && (item.visibleTo.Some? ==> Within(f.plaintextAudiences.value, item.visibleTo.value))
               && ReadExactlyBy(f.plaintextAudiences.value, item, cfg.audiences)
  {
    ResolvedSays(org, form);
    ResolvedFieldAudience(form.fields[i], Resolve(org, form).value.audiences);
    ItemAudience(item, form.fields[i], org.audiences, form.audiences);
  }

  /** If extraction followed by resolution succeeds, every safe item reachable through groups
      appears in the profile under its own path, with a non-empty plaintext audience list
      within the authorized audiences (themselves within the organisation's) and within the
      item's own visible-to list when it has one. An effective list is that list; without one
      the list holds exactly the authorized audiences that the item's own lists name. */
  lemma SafeAddressEndToEnd(t: Taxonomy, c: Composition, ps: Policies, org: Limits, items: seq<Item>, block: Block,
                            p: Profile, at: seq<nat>)
      returns (i: nat)
    requires Covers(t, c) && SAFE_ADDRESS in t.keys
    requires Extract(items, block).Declared? && SAFE_ADDRESS in ps.form
    requires ps.form[SAFE_ADDRESS] == Extract(items, block).mode
    requires ProfileResolves(t, c, ps, org, Extract(items, block).limits, p)
    requires Reaches(items, at) && UnderGroups(items, at) && ItemAt(items, at).accessClass.Some?
    ensures p.safeAddress.Some? && i < |p.safeAddress.value.fields|
    ensures var cfg, item := p.safeAddress.value, ItemAt(items, at);
            var f := cfg.fields[i];
            && f.path == PathOf(KeysAt(items, at)) && Some(f.accessClass) == item.accessClass
            && f.plaintextAudiences.Some? && f.plaintextAudiences.value != []
            && Within(f.plaintextAudiences.value, cfg.audiences)
            && Within(cfg.audiences, Or(org.audiences, ["issuer_verification"]))
            && (item.visibleTo.Some? ==> Within(f.plaintextAudiences.value, item.visibleTo.value))
            && ReadExactlyBy(f.plaintextAudiences.value, item, cfg.audiences)
  {
    var limits := Extract(items, block).limits;
    var field := ExtractionComplete(items, [], at);
    ExtractsIff(items, block);
    assert field in limits.fields;
    RequiredPolicyResolves(t, c, ps, org, limits, p);
    i :| 0 <= i < |limits.fields| && limits.fields[i] == field;
    ResolvedItem(ItemAt(items, at), org, limits, i);
    AuthorizedWithinOrg(org.audiences, limits.audiences);
    assert [] + KeysAt(items, at) == KeysAt(items, at);
  }

  // ---------------------------------------------------------------- Monotonicity and idempotence

  /** Fewer allowed audiences never make a failing field resolve and never add an audience. */
  lemma FieldMonotone(f: Field, fewer: seq<Audience>, more: seq<Audience>)
    requires Within(fewer, more) && ResolveField(f, fewer).Ok?
    ensures ResolveField(f, more).Ok?
    ensures Within(Or(ResolveField(f, fewer).value.plaintextAudiences, []),
                   Or(ResolveField(f, more).value.plaintextAudiences, []))
  {
    if f.effectiveAudiences.None? {
      var base1, base2 := Or(f.plaintextAudiences, fewer), Or(f.plaintextAudiences, more);
      var small := Filter(base1, (a: Audience) => a in fewer);
      var large := Filter(base2, (a: Audience) => a in more);
      assert small[0] in small;
      assert Within(small, large);
      if f.visibleTo.Some? {
        var both := Filter(f.visibleTo.value, (a: Audience) => a in small);
        assert both[0] in both;
        assert both[0] in Filter(f.visibleTo.value, (a: Audience) => a in large);
      }
    }
  }

  lemma AuthorizedMonotone(fewer: seq<Audience>, more: seq<Audience>, form: Option<seq<Audience>>)
    requires Within(fewer, more)
    ensures Within(Authorized(Some(fewer), form), Authorized(Some(more), form))
  {
  }

  /** Field by field, no plaintext audience of `small` is missing from `large`. */
  ghost predicate NoWider(small: seq<Field>, large: seq<Field>) {
    && |small| == |large|
    && forall i :: 0 <= i < |small| ==>
         Within(Or(small[i].plaintextAudiences, []), Or(large[i].plaintextAudiences, []))
  }

  lemma FieldsMonotone(fields: seq<Field>, fewer: seq<Audience>, more: seq<Audience>)
    requires Within(fewer, more) && ResolveFields(fields, fewer).Ok?
    ensures ResolveFields(fields, more).Ok?
    ensures NoWider(ResolveFields(fields, fewer).value, ResolveFields(fields, more).value)
  {
    forall k | 0 <= k < |fields|
      ensures ResolveField(fields[k], more).Ok?
      ensures Within(Or(ResolveField(fields[k], fewer).value.plaintextAudiences, []),
                     Or(ResolveField(fields[k], more).value.plaintextAudiences, []))
    {
      FieldMonotone(fields[k], fewer, more);
    }
  }

  /** With the form fixed, shrinking the organisation's explicit audience list never turns
      failure into success and never adds an audience to any field. */
  lemma AudienceMonotone(org: Limits, form: Limits, fewer: seq<Audience>, more: seq<Audience>)
    requires Within(fewer, more) && Resolve(org.(audiences := Some(fewer)), form).Ok?
    ensures Resolve(org.(audiences := Some(more)), form).Ok?
    ensures NoWider(Resolve(org.(audiences := Some(fewer)), form).value.fields,
                    Resolve(org.(audiences := Some(more)), form).value.fields)
  {
    var a1, a2 := Authorized(Some(fewer), form.audiences), Authorized(Some(more), form.audiences);
    AuthorizedMonotone(fewer, more, form.audiences);
    assert a1[0] in a1;
    FieldsMonotone(form.fields, a1, a2);
  }

  /** A resolved configuration, read again as limits. */
  function AsLimits(cfg: Config): Limits {
    Limits(Some(cfg.enabledClasses), Some(cfg.tier), Some(cfg.directory), Some(cfg.jurisdictions), Some(cfg.audiences),
           cfg.fields)
  }

  lemma FieldIdempotent(f: Field, allowed: seq<Audience>)
    requires ResolveField(f, allowed).Ok?
    ensures ResolveField(ResolveField(f, allowed).value, allowed) == ResolveField(f, allowed)
  {
    var r := ResolveField(f, allowed).value;
    if f.effectiveAudiences.None? {
      var plaintext := r.plaintextAudiences.value;
      FilterAll(plaintext, (a: Audience) => a in allowed);
      if f.visibleTo.Some? {
        var first := Filter(Or(f.plaintextAudiences, allowed), (a: Audience) => a in allowed);
        FilterSame(f.visibleTo.value, (a: Audience) => a in plaintext, (a: Audience) => a in first);
      }
    }
  }

  /** Resolving a resolved configuration against the same organisation changes nothing. */
  lemma ResolutionIdempotent(org: Limits, form: Limits)
    requires Resolve(org, form).Ok?
    ensures Resolve(org, AsLimits(Resolve(org, form).value)) == Resolve(org, form)
  {
    var cfg := Resolve(org, form).value;
    AudiencesIdempotent(org.audiences, form.audiences);
    JurisdictionsIdempotent(org, form);
    forall i | 0 <= i < |cfg.fields|
      ensures ResolveField(cfg.fields[i], cfg.audiences) == Ok(cfg.fields[i])
    {
      FieldIdempotent(form.fields[i], cfg.audiences);
    }
    var again := ResolveFields(cfg.fields, cfg.audiences);
    assert again.value == cfg.fields;
  }

  lemma AudiencesIdempotent(org: Option<seq<Audience>>, form: Option<seq<Audience>>)
    requires Authorized(org, form) != []
    ensures Authorized(org, Some(Authorized(org, form))) == Authorized(org, form)
  {
    var ours, result := Or(StringArray(org), ["issuer_verification"]), Authorized(org, form);
    FilterAll(result, (x: string) => x != "");
    FilterAll(result, (a: Audience) => a in ours);
  }

  lemma JurisdictionsIdempotent(org: Limits, form: Limits)
    ensures var j := Accepted(org, form);
            j != [] ==> NonEmptyArray(Some(j)) == Some(j)
  {
    var j := Accepted(org, form);
    FilterAll(j, (x: string) => x != "");
  }
}
