/** Validation of a response against a resolved safe-address configuration: which value each
    field's path finds, and whether every safe item's value is really looked at. */
module SafeAddressResponse {
  import opened Common
  import opened Text
  import opened Json
  import opened JsonPointer
  import opened FeaturePolicy
  import opened SafeAddress

  /** The directory's answer for a jurisdiction, a candidate and a class: none when valid,
      otherwise its message. */
  type Directory = (string, string, AccessClass) -> Option<string>

  const UNRECOGNISED := "This substitute address is not recognized by an accepted protection program."
  const NOT_A_STRING := "must be a substitute address string."

  datatype Refusal = Refusal(caption: string, message: string)

  predicate Recognised(directory: Directory, jurisdictions: seq<string>, candidate: string, cls: AccessClass) {
    exists j :: j in jurisdictions && directory(j, candidate, cls).None?
  }

  /** `validateAgainstAcceptedJurisdictions`: the first that recognises the candidate settles it. */
  method ValidateAgainstJurisdictions(directory: Directory, jurisdictions: seq<string>, candidate: string,
                                      cls: AccessClass)
      returns (r: Result<(), string>)
    ensures r.Ok? <==> Recognised(directory, jurisdictions, candidate, cls)
    ensures r.Err? ==> Some(r.error) == if jurisdictions == [] then Some(UNRECOGNISED)
                                        else directory(jurisdictions[|jurisdictions| - 1], candidate, cls)
  {
    var lastMessage := UNRECOGNISED;
    for i := 0 to |jurisdictions|
      invariant forall k :: 0 <= k < i ==> directory(jurisdictions[k], candidate, cls).Some?
      invariant Some(lastMessage)
                == if i == 0 then Some(UNRECOGNISED) else directory(jurisdictions[i - 1], candidate, cls)
    {
      match directory(jurisdictions[i], candidate, cls)
      case None =>
        return Ok(());
      case Some(message) =>
        lastMessage := message;
    }
    r := Err(lastMessage);
  }

  /** No value, null and the empty string pass; anything else must be a recognised string. */
  predicate Acceptable(value: Option<Json>, directory: Directory, jurisdictions: seq<string>, cls: AccessClass) {
    match value
    case None => true
    case Some(Null) => true
    case Some(Str(s)) => s == "" || Recognised(directory, jurisdictions, s, cls)
    case _ => false
  }

  predicate FieldAccepted(cfg: Config, f: Field, data: Json, directory: Directory, numeral: Numeral) {
    Acceptable(Walk(Some(data), Decode(f.path), numeral), directory, cfg.jurisdictions, f.accessClass)
  }

  /** One turn of the loop: the field's value is looked up and judged. */
  method ValidateField(cfg: Config, f: Field, data: Json, directory: Directory, numeral: Numeral)
      returns (r: Result<(), Refusal>)
    requires data.Obj?
    ensures r.Ok? <==> FieldAccepted(cfg, f, data, directory, numeral)
    ensures r.Err? ==> r.error.caption == Or(f.caption, f.path)
  {
    var candidate := ValueAtJsonPointer(data, f.path, numeral);
    if candidate.None? || candidate.value == Null || candidate.value == Str("") {
      return Ok(());
    }
    if !candidate.value.Str? {
      return Err(Refusal(Or(f.caption, f.path), NOT_A_STRING));
    }
    var validation := ValidateAgainstJurisdictions(directory, cfg.jurisdictions, candidate.value.s, f.accessClass);
    r := if validation.Ok? then Ok(()) else Err(Refusal(Or(f.caption, f.path), validation.error));
  }

  /** `validateSafeAddressResponseData`: passes exactly when every field is accepted, and else
      complains of the first that is not. */
  method ValidateResponseData(cfg: Config, data: Json, directory: Directory, numeral: Numeral)
      returns (r: Result<(), Refusal>)
    requires data.Obj?
    ensures r.Ok? <==> forall f :: f in cfg.fields ==> FieldAccepted(cfg, f, data, directory, numeral)
    ensures r.Err? ==> exists i :: 0 <= i < |cfg.fields| && !FieldAccepted(cfg, cfg.fields[i], data, directory, numeral)
                         && r.error.caption == Or(cfg.fields[i].caption, cfg.fields[i].path)
                         && forall k :: 0 <= k < i ==> FieldAccepted(cfg, cfg.fields[k], data, directory, numeral)
  {
    for i := 0 to |cfg.fields|
      invariant forall k :: 0 <= k < i ==> FieldAccepted(cfg, cfg.fields[k], data, directory, numeral)
    {
      assert cfg.fields[i] in cfg.fields;
      r := ValidateField(cfg, cfg.fields[i], data, directory, numeral);
      if r.Err? {
        return;
      }
    }
    r := Ok(());
  }

  // ---------------------------------------------------------------- When an item's path finds its value

  /** A key that an unescaped path spells faithfully. */
  predicate Faithful(key: string) {
    '/' !in key && !Escapes(key)
  }

  predicate Coded(s: string, i: int, code: char) {
    0 <= i < |s| - 1 && s[i] == '~' && s[i + 1] == code
  }

  /** The key contains `~0` or `~1`. */
  predicate Escapes(key: string) {
    exists i :: 0 <= i < |key| && (Coded(key, i, '0') || Coded(key, i, '1'))
  }

  function Total(parts: seq<string>): nat {
    if parts == [] then 0 else |parts[0]| + Total(parts[1..])
  }

  lemma {:induction false} TotalConcat(a: seq<string>, b: seq<string>)
    ensures Total(a + b) == Total(a) + Total(b)
  {
    if a == [] {
      assert a + b == b;
    } else {
      assert (a + b)[1..] == a[1..] + b;
      TotalConcat(a[1..], b);
    }
  }

  /** Splitting loses one character at each separator. */
  lemma {:induction false} TotalSplit(s: string)
    ensures Total(Split(s, '/')) <= |s|
    ensures '/' in s ==> Total(Split(s, '/')) < |s|
  {
    if s != "" {
      TotalSplit(s[1..]);
      var rest := Split(s[1..], '/');
      if s[0] == '/' {
        assert ([""] + rest)[1..] == rest;
      } else {
        assert ([[s[0]] + rest[0]] + rest[1..])[1..] == rest[1..];
        assert '/' in s ==> '/' in s[1..];
      }
    }
  }

  lemma {:induction false} TotalUnescaped(tokens: seq<string>)
    ensures Total(UnescapeAll(tokens)) <= Total(tokens)
  {
    if tokens != [] {
      TotalUnescaped(tokens[1..]);
      assert UnescapeAll(tokens)[1..] == UnescapeAll(tokens[1..]);
      assert |Unescape(tokens[0])| <= |tokens[0]|;
    }
  }

  lemma {:induction false} TotalPresent(parts: seq<string>)
    ensures Total(Filter(parts, Present())) == Total(parts)
  {
    if parts != [] {
      TotalPresent(parts[1..]);
      TotalConcat(if parts[0] != "" then [parts[0]] else [], Filter(parts[1..], Present()));
    }
  }

  lemma {:induction false} ContractShrinks(s: string, code: char, with: char)
    ensures |Contract(s, code, with)| == |s| <==> forall i :: !Coded(s, i, code)
  {
    if |s| > 1 && s[0] == '~' && s[1] == code {
      assert Coded(s, 0, code);
    } else if s != "" {
      var rest := s[1..];
      ContractShrinks(rest, code, with);
      assert forall i :: Coded(rest, i, code) ==> Coded(s, i + 1, code);
      assert forall i :: Coded(s, i, code) ==> Coded(rest, i - 1, code);
    }
  }

  /** Decoding shortens a key exactly when it contains an escape. */
  lemma UnescapeShrinks(key: string)
    ensures |Unescape(key)| == |key| <==> !Escapes(key)
  {
    ContractShrinks(key, '1', '/');
    ContractShrinks(Contract(key, '1', '/'), '0', '~');
    ContractShrinks(key, '0', '~');
  }

  /** What decoding makes of one key of a path. */
  function Pieces(key: string): seq<string> {
    UnescapeAll(Filter(Split(key, '/'), Present()))
  }

  function AllPieces(keys: seq<string>): seq<string> {
    if keys == [] then [] else Pieces(keys[0]) + AllPieces(keys[1..])
  }

  lemma PiecesShrink(key: string)
    ensures Total(Pieces(key)) <= |key|
    ensures Total(Pieces(key)) == |key| ==> Faithful(key)
    ensures Faithful(key) ==> Pieces(key) == (if key == "" then [] else [key])
  {
    TotalSplit(key);
    TotalPresent(Split(key, '/'));
    TotalUnescaped(Filter(Split(key, '/'), Present()));
    if '/' !in key {
      SplitNone(key, '/');
      UnescapeShrinks(key);
      assert Pieces(key) == if key == "" then [] else [Unescape(key)];
    }
  }

  lemma {:induction false} AllPiecesShrink(keys: seq<string>)
    ensures Total(AllPieces(keys)) <= Total(keys)
    ensures Total(AllPieces(keys)) == Total(keys) ==> forall key :: key in keys ==> Faithful(key)
    ensures (forall key :: key in keys ==> Faithful(key)) ==> AllPieces(keys) == Filter(keys, Present())
  {
    if keys != [] {
      assert keys[0] in keys;
      PiecesShrink(keys[0]);
      AllPiecesShrink(keys[1..]);
      TotalConcat(Pieces(keys[0]), AllPieces(keys[1..]));
    }
  }

  lemma {:induction false} UnescapeConcat(a: seq<string>, b: seq<string>)
    ensures UnescapeAll(a + b) == UnescapeAll(a) + UnescapeAll(b)
  {
  }

  lemma {:induction false} SplitPath(keys: seq<string>)
    requires keys != []
    ensures UnescapeAll(Filter(Split(Join(keys, '/'), '/'), Present())) == AllPieces(keys)
  {
    if |keys| > 1 {
      var rest := Join(keys[1..], '/');
      SplitPath(keys[1..]);
      SplitConcat(keys[0], rest, '/');
      FilterConcat(Split(keys[0], '/'), Split(rest, '/'), Present());
      UnescapeConcat(Filter(Split(keys[0], '/'), Present()), Filter(Split(rest, '/'), Present()));
    } else {
      assert AllPieces(keys) == Pieces(keys[0]) + [];
    }
  }

  /** An item's extracted path leads to its own keys if and only if none of them is empty,
      holds a slash, or contains `~0` or `~1`: extraction joins the keys without escaping
      them, and the lookup decodes all the same. */
  lemma PathDecodesIff(keys: seq<string>)
    requires keys != []
    ensures Decode(PathOf(keys)) == keys <==> forall key :: key in keys ==> key != "" && Faithful(key)
  {
    SplitPath(keys);
    assert StripSlash(PathOf(keys)) == Join(keys, '/');
    AllPiecesShrink(keys);
    if forall key :: key in keys ==> key != "" && Faithful(key) {
      FilterAll(keys, Present());
    }
  }

  function KeyPlaces(keys: seq<string>): (r: seq<Place>)
    ensures |r| == |keys| && forall i :: 0 <= i < |r| ==> r[i] == Place.Key(keys[i])
  {
    if keys == [] then [] else [Place.Key(keys[0])] + KeyPlaces(keys[1..])
  }

  lemma {:induction false} KeysFollow(data: Json, keys: seq<string>, numeral: Numeral)
    requires At(data, KeyPlaces(keys)).Some?
    ensures Follows(data, keys, KeyPlaces(keys), numeral)
  {
    if keys != [] {
      assert KeyPlaces(keys)[1..] == KeyPlaces(keys[1..]);
      KeysFollow(data.fields[keys[0]], keys[1..], numeral);
    }
  }

  lemma KeysAtNonEmpty(items: seq<Item>, at: seq<nat>)
    requires Reaches(items, at)
    ensures KeysAt(items, at) != [] && KeysAt(items, at)[0] == items[at[0]].key
  {
  }

  // ---------------------------------------------------------------- Where an item's values are

  /** The value of a repeating group is an array. */
  predicate IsArray(item: Item) {
    item.isGroup && item.repeatable
  }

  /** Some group that encloses the position repeats. */
  predicate Repeats(items: seq<Item>, at: seq<nat>)
    requires Reaches(items, at)
    decreases |at|
  {
    |at| > 1 && (IsArray(items[at[0]]) || Repeats(items[at[0]].children, at[1..]))
  }

  /** A place in a response that holds a value of the item: groups are objects, or arrays of
      objects when they repeat; a field's dependent question is addressed below its key. */
  predicate ValuePlace(items: seq<Item>, at: seq<nat>, places: seq<Place>)
    requires Reaches(items, at)
    decreases |at|
  {
    && places != [] && places[0] == Place.Key(items[at[0]].key)
    && if |at| == 1 then |places| == 1
       else if IsArray(items[at[0]])
       then |places| > 1 && places[1].Index? && ValuePlace(items[at[0]].children, at[1..], places[2..])
       else ValuePlace(items[at[0]].children, at[1..], places[1..])
  }

  /** The item's place in the first instance of every repeating group. */
  function FirstPlace(items: seq<Item>, at: seq<nat>): (r: seq<Place>)
    requires Reaches(items, at)
    ensures ValuePlace(items, at, r)
    decreases |at|
  {
    if |at| == 1 then [Place.Key(items[at[0]].key)] else
    var deeper := FirstPlace(items[at[0]].children, at[1..]);
    if IsArray(items[at[0]]) then [Place.Key(items[at[0]].key), Index(0)] + deeper
    else [Place.Key(items[at[0]].key)] + deeper
  }

  lemma {:induction false} PlacesWithoutRepeats(items: seq<Item>, at: seq<nat>, places: seq<Place>)
    requires Reaches(items, at) && ValuePlace(items, at, places) && !Repeats(items, at)
    ensures places == KeyPlaces(KeysAt(items, at))
    decreases |at|
  {
    if |at| > 1 {
      PlacesWithoutRepeats(items[at[0]].children, at[1..], places[1..]);
    }
  }

  /** A response that holds nothing but a value at the given place. */
  function Nest(places: seq<Place>, leaf: Json): Json {
    if places == [] then leaf else
    match places[0]
    case Key(name) => Obj(map[name := Nest(places[1..], leaf)])
    case Index(_) => Arr([Nest(places[1..], leaf)])
  }

  predicate FirstOnly(places: seq<Place>) {
    forall p :: p in places && p.Index? ==> p.n == 0
  }

  lemma {:induction false} FirstPlaceIsFirst(items: seq<Item>, at: seq<nat>)
    requires Reaches(items, at)
    ensures FirstOnly(FirstPlace(items, at))
    decreases |at|
  {
    if |at| > 1 {
      FirstPlaceIsFirst(items[at[0]].children, at[1..]);
    }
  }

  lemma {:induction false} NestHolds(places: seq<Place>, leaf: Json)
    requires FirstOnly(places)
    ensures At(Nest(places, leaf), places) == Some(leaf)
  {
    if places != [] {
      assert places[0] in places;
      NestHolds(places[1..], leaf);
    }
  }

  // ---------------------------------------------------------------- When every value is found

  function KeyNames(places: seq<Place>): seq<string> {
    if places == [] then [] else (if places[0].Key? then [places[0].name] else []) + KeyNames(places[1..])
  }

  lemma NamesCons(p: Place, rest: seq<Place>)
    ensures KeyNames([p] + rest) == (if p.Key? then [p.name] else []) + KeyNames(rest)
  {
    assert ([p] + rest)[1..] == rest;
  }

  lemma {:induction false} NamesOfPlace(items: seq<Item>, at: seq<nat>)
    requires Reaches(items, at)
    ensures KeyNames(FirstPlace(items, at)) == KeysAt(items, at)
    decreases |at|
  {
    var key := Place.Key(items[at[0]].key);
    if |at| > 1 {
      var deeper := FirstPlace(items[at[0]].children, at[1..]);
      NamesOfPlace(items[at[0]].children, at[1..]);
      if IsArray(items[at[0]]) {
        NamesCons(Index(0), deeper);
        NamesCons(key, [Index(0)] + deeper);
        assert [key] + ([Index(0)] + deeper) == FirstPlace(items, at);
      } else {
        NamesCons(key, deeper);
      }
    } else {
      NamesCons(key, []);
      assert [key] + [] == [key];
    }
  }

  lemma {:induction false} IndexMeansRepeat(items: seq<Item>, at: seq<nat>)
    requires Reaches(items, at)
    ensures Repeats(items, at) <==> exists p :: p in FirstPlace(items, at) && p.Index?
    decreases |at|
  {
    if |at| > 1 {
      IndexMeansRepeat(items[at[0]].children, at[1..]);
      if IsArray(items[at[0]]) {
        assert FirstPlace(items, at)[1] == Index(0);
      } else {
        var deeper := FirstPlace(items[at[0]].children, at[1..]);
        assert forall p :: p in FirstPlace(items, at) && p.Index? <==> p in deeper && p.Index?;
      }
    }
  }

  /** The first segment must open the nest at its first place. */
  lemma OpeningANest(places: seq<Place>, leaf: Json, segments: seq<string>, numeral: Numeral)
    requires places != [] && leaf.Num? && Walk(Some(Nest(places, leaf)), segments, numeral) == Some(leaf)
    ensures segments != [] && (places[0].Key? ==> segments[0] == places[0].name)
    ensures Walk(Some(Nest(places[1..], leaf)), segments[1..], numeral) == Some(leaf)
  {
    if segments != [] {
      WalkNowhere(segments[1..], numeral);
    }
  }

  lemma NoNest(leaf: Json, segments: seq<string>, numeral: Numeral)
    requires leaf.Num? && Walk(Some(leaf), segments, numeral) == Some(leaf)
    ensures segments == []
  {
    if segments != [] {
      WalkNowhere(segments[1..], numeral);
    }
  }

  /** Non-empty segments that find a leaf nested at `places` spell its keys, and something more
      for every index on the way. */
  lemma {:induction false} FindingALeaf(places: seq<Place>, leaf: Json, segments: seq<string>, numeral: Numeral)
    requires leaf.Num? && "" !in segments && Walk(Some(Nest(places, leaf)), segments, numeral) == Some(leaf)
    ensures Total(segments) >= Total(KeyNames(places))
    ensures (exists p :: p in places && p.Index?) ==> Total(segments) > Total(KeyNames(places))
    ensures (forall p :: p in places ==> p.Key?) ==> segments == KeyNames(places)
    decreases |places|
  {
    if places == [] {
      NoNest(leaf, segments, numeral);
    } else {
      OpeningANest(places, leaf, segments, numeral);
      assert segments[0] in segments && places[0] in places;
      FindingALeaf(places[1..], leaf, segments[1..], numeral);
      TotalConcat(if places[0].Key? then [places[0].name] else [], KeyNames(places[1..]));
      assert Total(segments) == |segments[0]| + Total(segments[1..]);
      assert places[0].Key? ==> Total([places[0].name]) == |segments[0]|;
      assert forall p :: p in places ==> p == places[0] || p in places[1..];
    }
  }

  lemma {:induction false} UnescapedIsPresent(token: string)
    requires token != ""
    ensures Unescape(token) != ""
  {
  }

  lemma DecodedArePresent(pointer: string)
    ensures "" !in Decode(pointer)
  {
    var tokens := Filter(Split(StripSlash(pointer), '/'), Present());
    forall i | 0 <= i < |tokens|
      ensures Unescape(tokens[i]) != ""
    {
      assert tokens[i] in tokens;
      UnescapedIsPresent(tokens[i]);
    }
  }

  /** Every value of the item, in any response, is what the lookup of its extracted path finds. */
  ghost predicate AlwaysFound(items: seq<Item>, at: seq<nat>, numeral: Numeral)
    requires Reaches(items, at)
  {
    forall data: Json, places: seq<Place> :: ValuePlace(items, at, places) && At(data, places).Some? ==>
      Walk(Some(data), Decode(PathOf(KeysAt(items, at))), numeral) == At(data, places)
  }

  /** No enclosing group repeats, and no key is empty, holds a slash, or contains `~0` or `~1`. */
  predicate Findable(items: seq<Item>, at: seq<nat>)
    requires Reaches(items, at)
  {
    !Repeats(items, at) && forall key :: key in KeysAt(items, at) ==> key != "" && Faithful(key)
  }

  lemma FindableIsFound(items: seq<Item>, at: seq<nat>, numeral: Numeral, data: Json, places: seq<Place>)
    requires Reaches(items, at) && Findable(items, at) && ValuePlace(items, at, places) && At(data, places).Some?
    ensures Walk(Some(data), Decode(PathOf(KeysAt(items, at))), numeral) == At(data, places)
  {
    var keys := KeysAt(items, at);
    KeysAtNonEmpty(items, at);
    PathDecodesIff(keys);
    PlacesWithoutRepeats(items, at, places);
    KeysFollow(data, keys, numeral);
    WalkReaches(data, keys, places, numeral, At(data, places).value);
  }

  /** The lookup of an item's path finds every value of the item if and only if no enclosing
      group repeats and its keys are spelled faithfully. */
  lemma AlwaysFoundIff(items: seq<Item>, at: seq<nat>, numeral: Numeral)
    requires Reaches(items, at)
    ensures AlwaysFound(items, at, numeral) <==> Findable(items, at)
  {
    if Findable(items, at) {
      forall data: Json, places: seq<Place> | ValuePlace(items, at, places) && At(data, places).Some?
        ensures Walk(Some(data), Decode(PathOf(KeysAt(items, at))), numeral) == At(data, places)
      {
        FindableIsFound(items, at, numeral, data, places);
      }
    }
    if AlwaysFound(items, at, numeral) {
      var places := FirstPlace(items, at);
      FirstPlaceIsFirst(items, at);
      NestHolds(places, Num(0));
      FoundIsFindable(items, at, numeral);
    }
  }

  lemma FoundIsFindable(items: seq<Item>, at: seq<nat>, numeral: Numeral)
    requires Reaches(items, at)
    requires var leaf := Num(0);
             Walk(Some(Nest(FirstPlace(items, at), leaf)), Decode(PathOf(KeysAt(items, at))), numeral) == Some(leaf)
    ensures Findable(items, at)
  {
    var keys, places := KeysAt(items, at), FirstPlace(items, at);
    var segments := Decode(PathOf(keys));
    KeysAtNonEmpty(items, at);
    DecodedArePresent(PathOf(keys));
    NamesOfPlace(items, at);
    IndexMeansRepeat(items, at);
    FindingALeaf(places, Num(0), segments, numeral);
    SplitPath(keys);
    assert StripSlash(PathOf(keys)) == Join(keys, '/');
    AllPiecesShrink(keys);
    assert forall p :: p in places ==> p.Key?;
  }

  /** The item has a field of its own, and its path finds every value of the item. */
  ghost predicate Checked(items: seq<Item>, at: seq<nat>, numeral: Numeral)
    requires Reaches(items, at)
  {
    OwnFieldExtracted(items, at) && AlwaysFound(items, at, numeral)
  }

  predicate Addressable(items: seq<Item>, at: seq<nat>)
    requires Reaches(items, at)
  {
    UnderGroups(items, at) && Findable(items, at)
  }

  /** Every value of a safe item, wherever it stands in the form, is checked if and only if all
      its enclosing items are groups, none of them repeats, and its keys are spelled faithfully. */
  lemma CheckedIff(items: seq<Item>, at: seq<nat>, numeral: Numeral)
    requires IsSafe(items, at)
    ensures Checked(items, at, numeral) <==> Addressable(items, at)
  {
    OwnFieldExtractedIff(items, at);
    AlwaysFoundIff(items, at, numeral);
  }

  // ---------------------------------------------------------------- What validation guarantees

  /** From the form to the response: when extraction and resolution succeed and the response
      validates, every value of each addressable safe item is null, empty, or recognised by an
      accepted jurisdiction. */
  lemma EverySafeItemIsValidated(t: Taxonomy, c: Composition, ps: Policies, org: Limits, items: seq<Item>, block: Block,
                                 p: Profile, at: seq<nat>, data: Json, directory: Directory, numeral: Numeral)
    requires Covers(t, c) && SAFE_ADDRESS in t.keys
    requires Extract(items, block).Declared? && SAFE_ADDRESS in ps.form
    requires ps.form[SAFE_ADDRESS] == Extract(items, block).mode
    requires ProfileResolves(t, c, ps, org, Extract(items, block).limits, p)
    requires Reaches(items, at) && ItemAt(items, at).accessClass.Some? && Addressable(items, at)
    requires p.safeAddress.Some? ==>
               forall f :: f in p.safeAddress.value.fields ==>
                 FieldAccepted(p.safeAddress.value, f, data, directory, numeral)
    ensures p.safeAddress.Some?
    ensures forall places :: ValuePlace(items, at, places) ==>
              Acceptable(At(data, places), directory, p.safeAddress.value.jurisdictions,
                         ItemAt(items, at).accessClass.value)
  {
    var i := SafeAddressEndToEnd(t, c, ps, org, items, block, p, at);
    var f := p.safeAddress.value.fields[i];
    assert f in p.safeAddress.value.fields;
    forall places | ValuePlace(items, at, places)
      ensures Acceptable(At(data, places), directory, p.safeAddress.value.jurisdictions, f.accessClass)
    {
      if At(data, places).Some? {
        FindableIsFound(items, at, numeral, data, places);
      }
    }
  }

  /** A key of the form definition schema: a letter, then letters, digits and underscores. */
  predicate SchemaKey(key: string) {
    && key != "" && ('a' <= key[0] <= 'z' || 'A' <= key[0] <= 'Z')
    && forall c :: c in key ==> 'a' <= c <= 'z' || 'A' <= c <= 'Z' || '0' <= c <= '9' || c == '_'
  }

  lemma SchemaKeyIsFaithful(key: string)
    requires SchemaKey(key)
    ensures key != "" && Faithful(key)
  {
    forall i, code | 0 <= i < |key|
      ensures !Coded(key, i, code)
    {
      assert key[i] in key;
    }
  }

  /** Reading no schema key as a number is all that is asked of `Number(...)`. */
  ghost predicate LettersAreNoNumbers(numeral: Numeral) {
    forall key :: SchemaKey(key) ==> numeral(key).None?
  }

  /** In a repeating group the lookup stops at the array: it finds nothing, whatever is there. */
  lemma {:induction false} RepeatedIsNotFound(items: seq<Item>, at: seq<nat>, data: Json, places: seq<Place>,
                                              numeral: Numeral)
    requires Reaches(items, at) && Repeats(items, at) && ValuePlace(items, at, places) && At(data, places).Some?
    requires forall key :: key in KeysAt(items, at) ==> numeral(key).None?
    ensures Walk(Some(data), KeysAt(items, at), numeral) == None
    decreases |at|
  {
    var keys, children := KeysAt(items, at), items[at[0]].children;
    var inner := data.fields[keys[0]];
    assert keys[1..] == KeysAt(children, at[1..]) && Descend(Some(data), keys[0], numeral) == Some(inner);
    if IsArray(items[at[0]]) {
      KeysAtNonEmpty(children, at[1..]);
      assert keys[1] in keys && At(inner, places[1..]).Some?;
      WalkNowhere(keys[1..][1..], numeral);
    } else {
      RepeatedIsNotFound(children, at[1..], inner, places[1..], numeral);
    }
  }

  /** Every response is accepted as far as a safe item in a repeating group goes: none of the
      values it holds is ever looked at. */
  lemma RepeatedItemIsNeverChecked(items: seq<Item>, at: seq<nat>, cfg: Config, f: Field, data: Json,
                                   places: seq<Place>, directory: Directory, numeral: Numeral)
    requires Reaches(items, at) && Repeats(items, at) && f.path == PathOf(KeysAt(items, at))
    requires forall key :: key in KeysAt(items, at) ==> SchemaKey(key)
    requires LettersAreNoNumbers(numeral)
    requires ValuePlace(items, at, places) && At(data, places).Some?
    ensures FieldAccepted(cfg, f, data, directory, numeral)
  {
    SchemaKeysAreFaithful(KeysAt(items, at));
    KeysAtNonEmpty(items, at);
    PathDecodesIff(KeysAt(items, at));
    RepeatedIsNotFound(items, at, data, places, numeral);
  }

  /** What any field that comes from the item accepts. */
  predicate ItemAccepted(items: seq<Item>, at: seq<nat>, cfg: Config, data: Json, directory: Directory,
                         numeral: Numeral)
    requires IsSafe(items, at)
  {
    Acceptable(Walk(Some(data), Decode(PathOf(KeysAt(items, at))), numeral), directory, cfg.jurisdictions,
               ItemAt(items, at).accessClass.value)
  }

  lemma OwnFieldAccepts(items: seq<Item>, at: seq<nat>, cfg: Config, f: Field, data: Json, directory: Directory,
                        numeral: Numeral)
    requires IsSafe(items, at) && ComesFrom(f, items, [], at)
    ensures FieldAccepted(cfg, f, data, directory, numeral) <==> ItemAccepted(items, at, cfg, data, directory, numeral)
  {
    assert [] + KeysAt(items, at) == KeysAt(items, at);
  }

  /** The item has a field of its own, and a response that the field accepts holds acceptable
      values of the item only. */
  ghost predicate Guaranteed(items: seq<Item>, at: seq<nat>, cfg: Config, directory: Directory, numeral: Numeral)
    requires IsSafe(items, at)
  {
    && OwnFieldExtracted(items, at)
    && forall data: Json, places: seq<Place> ::
         ValuePlace(items, at, places) && At(data, places).Some?
         && ItemAccepted(items, at, cfg, data, directory, numeral) ==>
           Acceptable(At(data, places), directory, cfg.jurisdictions, ItemAt(items, at).accessClass.value)
  }

  /** Under keys that the schema allows, validation guarantees the values of a safe item if and
      only if all its enclosing items are groups and none of them repeats. */
  lemma GuaranteedIff(items: seq<Item>, at: seq<nat>, cfg: Config, directory: Directory, numeral: Numeral)
    requires IsSafe(items, at) && LettersAreNoNumbers(numeral)
    requires forall key :: key in KeysAt(items, at) ==> SchemaKey(key)
    ensures Guaranteed(items, at, cfg, directory, numeral) <==> UnderGroups(items, at) && !Repeats(items, at)
  {
    OwnFieldExtractedIff(items, at);
    SchemaKeysAreFaithful(KeysAt(items, at));
    if Repeats(items, at) {
      var places := FirstPlace(items, at);
      FirstPlaceIsFirst(items, at);
      NestHolds(places, Num(0));
      var data := Nest(places, Num(0));
      KeysAtNonEmpty(items, at);
      PathDecodesIff(KeysAt(items, at));
      RepeatedIsNotFound(items, at, data, places, numeral);
      assert ItemAccepted(items, at, cfg, data, directory, numeral);
      assert !Acceptable(At(data, places), directory, cfg.jurisdictions, ItemAt(items, at).accessClass.value);
    } else {
      forall data: Json, places: seq<Place> |
        ValuePlace(items, at, places) && At(data, places).Some?
        && ItemAccepted(items, at, cfg, data, directory, numeral)
        ensures Acceptable(At(data, places), directory, cfg.jurisdictions, ItemAt(items, at).accessClass.value)
      {
        FindableIsFound(items, at, numeral, data, places);
      }
    }
  }

  lemma SchemaKeysAreFaithful(keys: seq<string>)
    requires forall key :: key in keys ==> SchemaKey(key)
    ensures forall key :: key in keys ==> key != "" && Faithful(key)
  {
    forall key | key in keys
      ensures key != "" && Faithful(key)
    {
      SchemaKeyIsFaithful(key);
    }
  }

  /** A field `q` with a safe dependent question `addr`. */
  function DependentQuestion(cls: AccessClass): Item {
    Item("q", "", false, false, None, None, None, None,
         [Item("addr", "", false, false, Some(cls), None, None, None, [])])
  }

  /** Alone, it does not even declare the feature. */
  lemma DependentQuestionIsNotDeclared(cls: AccessClass)
    ensures IsSafe([DependentQuestion(cls)], [0, 0]) && FieldsFromItems([DependentQuestion(cls)], []) == []
    ensures Extract([DependentQuestion(cls)], NoBlock) == NotDeclared
  {
    var q := DependentQuestion(cls);
    assert [0, 0][1..] == [0];
    assert [q][1..] == [];
  }

  lemma OnlyHomeIsExtracted(cls: AccessClass, home: Item)
    requires home.key == "home" && home.accessClass.Some? && !home.isGroup
    ensures var fields := FieldsFromItems([home, DependentQuestion(cls)], []);
            |fields| == 1 && fields[0].path == PathOf(["home"])
  {
    var q := DependentQuestion(cls);
    assert [home, q][1..] == [q] && [q][1..] == [];
    assert [] + [home.key] == ["home"];
    assert FieldsFromItems([q], []) == [];
  }

  lemma TopLevelIsFound(data: Json, key: string, numeral: Numeral)
    requires data.Obj? && key in data.fields && SchemaKey(key)
    ensures Walk(Some(data), Decode(PathOf([key])), numeral) == Some(data.fields[key])
  {
    SchemaKeyIsFaithful(key);
    PathDecodesIff([key]);
    assert [key][1..] == [];
  }

  /** Beside another safe item it is left out of the fields, and any answer is accepted. */
  lemma DependentQuestionIsNeverChecked(cls: AccessClass, home: Item, cfg: Config, f: Field, value: Json,
                                        directory: Directory, numeral: Numeral)
    requires home.key == "home" && home.accessClass.Some? && !home.isGroup
    requires exists g :: g in FieldsFromItems([home, DependentQuestion(cls)], []) && f.path == g.path
    ensures FieldAccepted(cfg, f, Obj(map["home" := Null, "q" := Obj(map["addr" := value])]), directory, numeral)
  {
    OnlyHomeIsExtracted(cls, home);
    TopLevelIsFound(Obj(map["home" := Null, "q" := Obj(map["addr" := value])]), "home", numeral);
  }

  /** The smallest such form: a repeating group `rows` with a safe item `addr`. Its path is
      `/rows/addr`, and a response with any value in its first row is accepted. */
  lemma RowsAreNeverChecked(cfg: Config, f: Field, value: Json, directory: Directory, numeral: Numeral)
    requires f.path == "/rows/addr" && LettersAreNoNumbers(numeral)
    ensures FieldAccepted(cfg, f, Obj(map["rows" := Arr([Obj(map["addr" := value])])]), directory, numeral)
  {
    var addr := Item("addr", "", false, false, Some(SafeAddressClass), None, None, None, []);
    var rows := Item("rows", "", true, true, None, None, None, None, [addr]);
    var data := Obj(map["rows" := Arr([Obj(map["addr" := value])])]);
    var places := [Place.Key("rows"), Index(0), Place.Key("addr")];
    assert [0, 0][1..] == [0];
    assert Reaches([addr], [0]) && Reaches([rows], [0, 0]);
    assert KeysAt([rows], [0, 0]) == ["rows", "addr"];
    assert PathOf(["rows", "addr"]) == "/rows/addr";
    assert places[1..] == [Index(0), Place.Key("addr")] && places[2..] == [Place.Key("addr")];
    assert places[1..][1..] == [Place.Key("addr")] && [Place.Key("addr")][1..] == [];
    assert ValuePlace([addr], [0], places[2..]) && ValuePlace([rows], [0, 0], places);
    assert At(value, []) == Some(value);
    assert At(Obj(map["addr" := value]), [Place.Key("addr")]) == Some(value);
    assert At(Arr([Obj(map["addr" := value])]), places[1..]) == Some(value);
    assert At(data, places) == Some(value);
    RepeatedItemIsNeverChecked([rows], [0, 0], cfg, f, data, places, directory, numeral);
  }

  lemma {:induction false} PiecesPresent(key: string, c: char)
    requires c in key && c != '/'
    ensures Pieces(key) != []
  {
    TextIsKept(key, c);
    var tokens := Split(key, '/');
    var token :| token in tokens && c in token;
    assert token in Filter(tokens, Present());
  }

  lemma {:induction false} TextIsKept(s: string, c: char)
    requires c in s && c != '/'
    ensures exists token :: token in Split(s, '/') && c in token
  {
    var rest := Split(s[1..], '/');
    if s[0] == c {
      assert ([s[0]] + rest[0]) in Split(s, '/');
    } else {
      assert c in s[1..];
      TextIsKept(s[1..], c);
      var token :| token in rest && c in token;
      if s[0] == '/' {
        assert token in Split(s, '/');
      } else if token == rest[0] {
        assert ([s[0]] + rest[0]) in Split(s, '/');
      } else {
        assert token in Split(s, '/');
      }
    }
  }

  /** A top-level item whose key is spelled unfaithfully is never checked either: any value at
      all is accepted under it. */
  lemma MisspelledKeyIsNeverChecked(cfg: Config, f: Field, key: string, c: char, value: Json, directory: Directory,
                                    numeral: Numeral)
    requires f.path == PathOf([key]) && !Faithful(key) && c in key && c != '/'
    ensures FieldAccepted(cfg, f, Obj(map[key := value]), directory, numeral)
    ensures At(Obj(map[key := value]), [Place.Key(key)]) == Some(value)
  {
    SplitPath([key]);
    assert StripSlash(PathOf([key])) == Join([key], '/');
    assert AllPieces([key]) == Pieces(key) + [];
    PiecesPresent(key, c);
    PiecesShrink(key);
    var segments := Decode(f.path);
    assert segments == Pieces(key);
    assert segments[0] != key by {
      assert Total(segments) == |segments[0]| + Total(segments[1..]);
    }
    WalkNowhere(segments[1..], numeral);
    assert [Place.Key(key)][1..] == [];
  }
}
