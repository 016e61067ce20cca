/** JSON pointers (RFC 6901, sections 3 and 4): the encoding of authored field paths and the
    lookup that decodes them. */
module JsonPointer {
  import opened Common
  import opened Text
  import opened Json

  // ---------------------------------------------------------------- Escaping one segment

  /** Replace every `c` by a longer text. */
  function Expand(s: string, c: char, with: string): string {
    if s == "" then "" else (if s[0] == c then with else [s[0]]) + Expand(s[1..], c, with)
  }

  /** Replace every `~` followed by `code`, from left to right. */
  function Contract(s: string, code: char, with: char): (r: string)
    ensures |r| <= |s|
    ensures |r| == |s| ==> r == s
  {
    if s == "" then ""
    else if |s| > 1 && s[0] == '~' && s[1] == code then [with] + Contract(s[2..], code, with)
    else [s[0]] + Contract(s[1..], code, with)
  }

  function Escape(segment: string): string {
    Expand(Expand(segment, '~', "~0"), '/', "~1")
  }

  /** `~1` becomes a slash first, `~0` a tilde afterwards. */
  function Unescape(token: string): (r: string)
    ensures |r| <= |token|
    ensures |r| == |token| ==> r == token
  {
    Contract(Contract(token, '1', '/'), '0', '~')
  }

  lemma ExpandHead(s: string, c: char, with: string)
    requires s != ""
    ensures Expand(s, c, with) == (if s[0] == c then with else [s[0]]) + Expand(s[1..], c, with)
  {
  }

  /** The escaped spelling of one character. */
  function Code(c: char): string {
    if c == '~' then "~0" else if c == '/' then "~1" else [c]
  }

  /** What the first pass of decoding leaves of it. */
  function HalfCode(c: char): string {
    if c == '~' then "~0" else [c]
  }

  lemma {:induction false} ExpandConcat(a: string, b: string, c: char, with: string)
    ensures Expand(a + b, c, with) == Expand(a, c, with) + Expand(b, c, with)
  {
    if a == "" {
      assert a + b == b;
    } else {
      assert (a + b)[1..] == a[1..] + b;
      ExpandConcat(a[1..], b, c, with);
    }
  }

  lemma EscapeHead(s: string)
    requires s != ""
    ensures Escape(s) == Code(s[0]) + Escape(s[1..])
  {
    var rest := Expand(s[1..], '~', "~0");
    ExpandConcat(HalfCode(s[0]), rest, '/', "~1");
    assert Expand("~0", '/', "~1") == "~0" by {
      assert "~0"[1..] == "0" && "0"[1..] == "";
      ExpandHead("0", '/', "~1");
    }
    assert [s[0]][1..] == "";
    ExpandHead([s[0]], '/', "~1");
  }

  lemma ContractCode(c: char, rest: string)
    ensures Contract(Code(c) + rest, '1', '/') == HalfCode(c) + Contract(rest, '1', '/')
  {
    var s := Code(c) + rest;
    if c == '~' {
      assert s[1..] == "0" + rest && ("0" + rest)[1..] == rest;
    } else if c == '/' {
      assert s[2..] == rest;
    } else {
      assert s[1..] == rest;
    }
  }

  lemma ContractHalfCode(c: char, rest: string)
    ensures Contract(HalfCode(c) + rest, '0', '~') == [c] + Contract(rest, '0', '~')
  {
    var s := HalfCode(c) + rest;
    if c == '~' {
      assert s[2..] == rest;
    } else {
      assert s[1..] == rest;
    }
  }

  /** The two passes undo the escaping of every text, tildes and slashes included. */
  lemma {:induction false} UnescapeEscape(s: string)
    ensures Unescape(Escape(s)) == s
  {
    if s != "" {
      UnescapeEscape(s[1..]);
      EscapeHead(s);
      ContractCode(s[0], Escape(s[1..]));
      ContractHalfCode(s[0], Contract(Escape(s[1..]), '1', '/'));
    }
  }

  /** The RFC's reference token: characters other than slash and tilde, `~0` and `~1`. */
  predicate Token(t: string): (r: bool)
    ensures r ==> '/' !in t
  {
    t == ""
    || (if t[0] == '~' then |t| > 1 && (t[1] == '0' || t[1] == '1') && Token(t[2..]) else t[0] != '/' && Token(t[1..]))
  }

  lemma {:induction false} EscapeYieldsToken(s: string)
    ensures Token(Escape(s)) && |Escape(s)| >= |s|
  {
    if s != "" {
      EscapeYieldsToken(s[1..]);
      EscapeHead(s);
      assert (Code(s[0]) + Escape(s[1..]))[|Code(s[0])|..] == Escape(s[1..]);
    }
  }

  /** Escaping goes character by character: `~0` for a tilde, `~1` for a slash, any other character
      for itself. */
  lemma EscapeByCharacter(a: string, c: char, b: string)
    ensures Escape(a + b) == Escape(a) + Escape(b) && Escape("") == ""
    ensures Escape([c]) == if c == '~' then "~0" else if c == '/' then "~1" else [c]
  {
    ExpandConcat(a, b, '~', "~0");
    ExpandConcat(Expand(a, '~', "~0"), Expand(b, '~', "~0"), '/', "~1");
    EscapeHead([c]);
    assert [c][1..] == "";
  }

  /** Escaping reaches every token of the grammar: with `UnescapeEscape`, a bijection. */
  lemma {:induction false} EscapeUnescape(t: string)
    requires Token(t)
    ensures Escape(Unescape(t)) == t
    decreases |t|
  {
    if t != "" {
      var n := if t[0] == '~' then 2 else 1;
      var c := if t[0] != '~' then t[0] else if t[1] == '0' then '~' else '/';
      var rest := t[n..];
      assert t == Code(c) + rest;
      EscapeUnescape(rest);
      ContractCode(c, rest);
      ContractHalfCode(c, Contract(rest, '1', '/'));
      assert Unescape(t)[1..] == Unescape(rest);
      EscapeHead(Unescape(t));
    }
  }

  // ---------------------------------------------------------------- Encoding and decoding pointers

  function EscapeAll(segments: seq<string>): (r: seq<string>)
    ensures |r| == |segments| && forall i :: 0 <= i < |r| ==> r[i] == Escape(segments[i])
  {
    if segments == [] then [] else [Escape(segments[0])] + EscapeAll(segments[1..])
  }

  function UnescapeAll(tokens: seq<string>): (r: seq<string>)
    ensures |r| == |tokens| && forall i :: 0 <= i < |r| ==> r[i] == Unescape(tokens[i])
  {
    if tokens == [] then [] else [Unescape(tokens[0])] + UnescapeAll(tokens[1..])
  }

  function Encode(segments: seq<string>): string {
    "/" + Join(EscapeAll(segments), '/')
  }

  /** A pointer is a slash and an escaped segment, time after time. */
  lemma EncodeBySegment(first: string, rest: seq<string>)
    ensures Encode([first]) == "/" + Escape(first)
    ensures rest != [] ==> Encode([first] + rest) == "/" + Escape(first) + Encode(rest)
  {
    assert ([first] + rest)[0] == first && ([first] + rest)[1..] == rest;
    assert EscapeAll([first]) == [Escape(first)];
    assert EscapeAll([first] + rest) == [Escape(first)] + EscapeAll(rest);
    if rest != [] {
      assert Join(EscapeAll([first] + rest), '/') == Escape(first) + "/" + Join(EscapeAll(rest), '/');
    }
  }

  function Present(): string -> bool {
    (s: string) => s != ""
  }

  function StripSlash(pointer: string): string {
    if pointer != "" && pointer[0] == '/' then pointer[1..] else pointer
  }

  /** The segments that `valueAtJsonPointer` follows. */
  function Decode(pointer: string): seq<string> {
    UnescapeAll(Filter(Split(StripSlash(pointer), '/'), Present()))
  }

  lemma {:induction false} KeptTokens(segments: seq<string>)
    ensures UnescapeAll(Filter(EscapeAll(segments), Present())) == Filter(segments, Present())
  {
    if segments != [] {
      UnescapeEscape(segments[0]);
      EscapeYieldsToken(segments[0]);
      assert Escape("") == "";
      assert EscapeAll(segments)[1..] == EscapeAll(segments[1..]);
      KeptTokens(segments[1..]);
    }
  }

  lemma SplitEncoded(segments: seq<string>)
    requires segments != []
    ensures Split(StripSlash(Encode(segments)), '/') == EscapeAll(segments)
  {
    forall token | token in EscapeAll(segments)
      ensures '/' !in token
    {
      var i :| 0 <= i < |segments| && token == Escape(segments[i]);
      EscapeYieldsToken(segments[i]);
    }
    SplitJoin(EscapeAll(segments), '/');
  }

  /** Decoding an encoded pointer gives back its segments, the empty ones left out. */
  lemma DecodeEncode(segments: seq<string>)
    ensures Decode(Encode(segments)) == Filter(segments, Present())
  {
    if segments == [] {
      assert Encode([])[1..] == "";
    } else {
      SplitEncoded(segments);
      KeptTokens(segments);
    }
  }

  /** The round trip is exact if and only if no segment is empty. */
  lemma RoundTripIff(segments: seq<string>)
    ensures Decode(Encode(segments)) == segments <==> "" !in segments
  {
    DecodeEncode(segments);
    if "" !in segments {
      FilterAll(segments, Present());
    }
  }

  /** Different segment lists have different pointers, empty segments included. */
  lemma EncodeInjective(a: seq<string>, b: seq<string>)
    requires a != [] && b != [] && Encode(a) == Encode(b)
    ensures a == b
  {
    SplitEncoded(a);
    SplitEncoded(b);
    assert |EscapeAll(a)| == |EscapeAll(b)|;
    forall i | 0 <= i < |a|
      ensures a[i] == b[i]
    {
      assert EscapeAll(a)[i] == EscapeAll(b)[i];
      UnescapeEscape(a[i]);
      UnescapeEscape(b[i]);
    }
  }

  // ---------------------------------------------------------------- Authored field paths

  /** How many digits the text begins with. */
  function DigitsAhead(s: string): (n: nat)
    ensures n <= |s| && (forall i :: 0 <= i < n ==> s[i] in DIGITS) && (n < |s| ==> s[n] !in DIGITS)
  {
    if s != "" && s[0] in DIGITS then 1 + DigitsAhead(s[1..]) else 0
  }

  predicate IndexAhead(s: string) {
    s != "" && s[0] == '[' && var n := DigitsAhead(s[1..]); n > 0 && n + 1 < |s| && s[n + 1] == ']'
  }

  /** Every `[n]` becomes `.n`. */
  function Normalise(s: string): string
    decreases |s|
  {
    if s == "" then ""
    else if IndexAhead(s) then
      var n := DigitsAhead(s[1..]);
      "." + s[1..n + 1] + Normalise(s[n + 2..])
    else [s[0]] + Normalise(s[1..])
  }

  /** The pointer demanded of an authored field. */
  function PointerOf(field: string): string {
    Encode(Split(Normalise(field), '.'))
  }

  /** Two authored fields have the same pointer exactly when they agree after normalisation. */
  lemma SamePointerIff(f: string, g: string)
    ensures PointerOf(f) == PointerOf(g) <==> Normalise(f) == Normalise(g)
  {
    if PointerOf(f) == PointerOf(g) {
      EncodeInjective(Split(Normalise(f), '.'), Split(Normalise(g), '.'));
      JoinSplit(Normalise(f), '.');
      JoinSplit(Normalise(g), '.');
    }
  }

  /** A position in a JSON value. */
  datatype Place = Key(name: string) | Index(n: nat)

  /** The authored spelling of a position, after its first key. */
  function Spell(places: seq<Place>): string {
    if places == [] then "" else
    (match places[0]
     case Key(name) => "." + name
     case Index(n) => "[" + Dec(n) + "]")
    + Spell(places[1..])
  }

  function SegmentOf(p: Place): string {
    match p
    case Key(name) => name
    case Index(n) => Dec(n)
  }

  function Segments(places: seq<Place>): (r: seq<string>)
    ensures |r| == |places| && forall i :: 0 <= i < |r| ==> r[i] == SegmentOf(places[i])
  {
    if places == [] then [] else [SegmentOf(places[0])] + Segments(places[1..])
  }

  function Dotted(segments: seq<string>): string {
    if segments == [] then "" else "." + segments[0] + Dotted(segments[1..])
  }

  predicate PlainKey(name: string) {
    name != "" && '.' !in name && '[' !in name
  }

  lemma {:induction false} NormalisePlain(a: string, b: string)
    requires '[' !in a
    ensures Normalise(a + b) == a + Normalise(b)
  {
    if a == "" {
      assert a + b == b;
    } else {
      assert a[0] in a && (a + b)[1..] == a[1..] + b;
      NormalisePlain(a[1..], b);
    }
  }

  lemma {:induction false} DigitsThen(a: string, b: string)
    requires (forall c :: c in a ==> c in DIGITS) && b != "" && b[0] !in DIGITS
    ensures DigitsAhead(a + b) == |a|
  {
    if a == "" {
      assert a + b == b;
    } else {
      assert a[0] in a && (a + b)[1..] == a[1..] + b;
      DigitsThen(a[1..], b);
    }
  }

  lemma NormaliseIndex(n: nat, b: string)
    ensures Normalise("[" + Dec(n) + "]" + b) == "." + Dec(n) + Normalise(b)
  {
    var s := "[" + Dec(n) + "]" + b;
    assert s[1..] == Dec(n) + ("]" + b);
    DigitsThen(Dec(n), "]" + b);
    assert s[|Dec(n)| + 1] == ']';
    assert s[1..|Dec(n)| + 1] == Dec(n) && s[|Dec(n)| + 2..] == b;
  }

  lemma {:induction false} NormaliseSpelling(places: seq<Place>)
    requires forall p :: p in places && p.Key? ==> PlainKey(p.name)
    ensures Normalise(Spell(places)) == Dotted(Segments(places))
  {
    if places != [] {
      assert places[0] in places;
      NormaliseSpelling(places[1..]);
      match places[0]
      case Key(name) =>
        NormalisePlain("." + name, Spell(places[1..]));
      case Index(n) =>
        NormaliseIndex(n, Spell(places[1..]));
    }
  }

  lemma {:induction false} JoinDotted(first: string, rest: seq<string>)
    ensures Join([first] + rest, '.') == first + Dotted(rest)
    decreases rest
  {
    if rest != [] {
      JoinDotted(rest[0], rest[1..]);
      assert ([first] + rest)[1..] == [rest[0]] + rest[1..];
    }
  }

  lemma DigitsOnly(n: nat)
    ensures '.' !in Dec(n) && '/' !in Dec(n)
  {
  }

  /** The pointer of an authored path decodes to the segments of the position it spells. */
  lemma AuthoredPathDecodes(first: string, places: seq<Place>)
    requires PlainKey(first) && forall p :: p in places && p.Key? ==> PlainKey(p.name)
    ensures Decode(PointerOf(first + Spell(places))) == [first] + Segments(places)
  {
    var segments := [first] + Segments(places);
    NormalisePlain(first, Spell(places));
    NormaliseSpelling(places);
    JoinDotted(first, Segments(places));
    forall segment | segment in segments
      ensures segment != "" && '.' !in segment
    {
      if segment in Segments(places) {
        var i :| 0 <= i < |places| && segment == SegmentOf(places[i]);
        assert places[i] in places;
        match places[i]
        case Key(_) =>
        case Index(n) => DigitsOnly(n);
      }
    }
    SplitJoin(segments, '.');
    RoundTripIff(segments);
  }

  // ---------------------------------------------------------------- Lookup

  /** Number(...) of a segment, when it is an integer. */
  type Numeral = string -> Option<int>

  /** The value at a position. */
  function At(source: Json, places: seq<Place>): Option<Json> {
    if places == [] then Some(source) else
    match (source, places[0])
    case (Obj(fields), Key(name)) => if name in fields then At(fields[name], places[1..]) else None
    case (Arr(items), Index(n)) => if n < |items| then At(items[n], places[1..]) else None
    case _ => None
  }

  /** The position that a list of segments stands for, as far as the value's own shape says. */
  ghost predicate Follows(source: Json, segments: seq<string>, places: seq<Place>, numeral: Numeral) {
    && |segments| == |places|
    && (segments == [] ||
        match (source, places[0])
        case (Obj(fields), Key(name)) =>
          name == segments[0] && (name in fields ==> Follows(fields[name], segments[1..], places[1..], numeral))
        case (Arr(items), Index(n)) =>
          numeral(segments[0]) == Some(n) && (n < |items| ==> Follows(items[n], segments[1..], places[1..], numeral))
        case _ => false)
  }

  /** `v` is at the position that the segments stand for. */
  ghost predicate Holds(source: Json, segments: seq<string>, numeral: Numeral, v: Json) {
    exists places :: Follows(source, segments, places, numeral) && At(source, places) == Some(v)
  }

  /** One step of the lookup; none is JavaScript's undefined. */
  function Descend(current: Option<Json>, segment: string, numeral: Numeral): Option<Json> {
    match current
    case Some(Arr(items)) =>
      (match numeral(segment)
       case Some(n) => if 0 <= n < |items| then Some(items[n]) else None
       case None => None)
    case Some(Obj(fields)) => if segment in fields then Some(fields[segment]) else None
    case _ => None
  }

  /** What following the segments reaches. */
  function Walk(current: Option<Json>, segments: seq<string>, numeral: Numeral): Option<Json>
    decreases segments
  {
    if segments == [] then current else Walk(Descend(current, segments[0], numeral), segments[1..], numeral)
  }

  lemma {:induction false} WalkNowhere(segments: seq<string>, numeral: Numeral)
    ensures Walk(None, segments, numeral) == None
  {
    if segments != [] {
      WalkNowhere(segments[1..], numeral);
    }
  }

  /** `valueAtJsonPointer`. */
  method ValueAtJsonPointer(source: Json, pointer: string, numeral: Numeral) returns (value: Option<Json>)
    requires source.Obj?
    ensures value == Walk(Some(source), Decode(pointer), numeral)
    ensures forall v :: value == Some(v) <==> Holds(source, Decode(pointer), numeral, v)
  {
    var segments := Decode(pointer);
    var current := Some(source);
    value := None;
    ghost var walked := Walk(Some(source), segments, numeral);
    WalkIsAt(source, segments, numeral);
    for i := 0 to |segments|
      invariant Walk(current, segments[i..], numeral) == walked
    {
      assert segments[i..][1..] == segments[i + 1..];
      WalkNowhere(segments[i + 1..], numeral);
      if current.Some? && current.value.Arr? {
        var items := current.value.items;
        var index := numeral(segments[i]);
        if index.None? || index.value < 0 {
          return None;
        }
        current := if index.value < |items| then Some(items[index.value]) else None;
        continue;
      }
      if current.None? || !current.value.Obj? {
        return None;
      }
      current := Member(current.value, segments[i]);
    }
    value := current;
  }

  /** Walking reaches exactly the value at the position the segments stand for. */
  lemma WalkIsAt(source: Json, segments: seq<string>, numeral: Numeral)
    ensures forall v :: Walk(Some(source), segments, numeral) == Some(v) <==> Holds(source, segments, numeral, v)
  {
    forall v
      ensures Walk(Some(source), segments, numeral) == Some(v) <==> Holds(source, segments, numeral, v)
    {
      if Walk(Some(source), segments, numeral) == Some(v) {
        var places := WalkFinds(source, segments, numeral, v);
      }
      if Holds(source, segments, numeral, v) {
        var places :| Follows(source, segments, places, numeral) && At(source, places) == Some(v);
        WalkReaches(source, segments, places, numeral, v);
      }
    }
  }

  lemma {:induction false} WalkFinds(source: Json, segments: seq<string>, numeral: Numeral, v: Json)
      returns (places: seq<Place>)
    requires Walk(Some(source), segments, numeral) == Some(v)
    ensures Follows(source, segments, places, numeral) && At(source, places) == Some(v)
  {
    if segments == [] {
      places := [];
    } else {
      var next := Descend(Some(source), segments[0], numeral);
      if next.None? {
        WalkNowhere(segments[1..], numeral);
      }
      var rest := WalkFinds(next.value, segments[1..], numeral, v);
      places := [if source.Arr? then Index(numeral(segments[0]).value) else Key(segments[0])] + rest;
      assert places[1..] == rest;
    }
  }

  lemma {:induction false} WalkReaches(source: Json, segments: seq<string>, places: seq<Place>, numeral: Numeral,
                                       v: Json)
    requires Follows(source, segments, places, numeral) && At(source, places) == Some(v)
    ensures Walk(Some(source), segments, numeral) == Some(v)
  {
    if segments != [] {
      match (source, places[0])
      case (Obj(fields), Key(name)) => WalkReaches(fields[name], segments[1..], places[1..], numeral, v);
      case (Arr(items), Index(n)) => WalkReaches(items[n], segments[1..], places[1..], numeral, v);
    }
  }

  /** A position that exists is the one its own segments stand for. */
  lemma {:induction false} OwnSegmentsFollow(source: Json, places: seq<Place>, numeral: Numeral)
    requires At(source, places).Some? && forall n: nat :: numeral(Dec(n)) == Some(n)
    ensures Follows(source, Segments(places), places, numeral)
  {
    if places != [] {
      match (source, places[0])
      case (Obj(fields), Key(name)) => OwnSegmentsFollow(fields[name], places[1..], numeral);
      case (Arr(items), Index(n)) => OwnSegmentsFollow(items[n], places[1..], numeral);
    }
  }

  /** Looking up the pointer of a position reaches the value at that position. */
  lemma LookupReaches(source: Json, places: seq<Place>, numeral: Numeral)
    requires At(source, places).Some? && forall n: nat :: numeral(Dec(n)) == Some(n)
    requires "" !in Segments(places)
    ensures Walk(Some(source), Decode(Encode(Segments(places))), numeral) == At(source, places)
  {
    RoundTripIff(Segments(places));
    OwnSegmentsFollow(source, places, numeral);
    WalkReaches(source, Segments(places), places, numeral, At(source, places).value);
  }
}
