/** The paths workflow steps read their inputs by: their syntax, its printer, and what they name. */
module WorkflowPaths {
  import opened Values
  import CanonicalJson

  datatype Segment = Field(name: string) | Item(index: nat)

  predicate NameStart(c: char) {
    'a' <= c <= 'z' || 'A' <= c <= 'Z' || c == '_'
  }

  predicate NameChar(c: char) {
    NameStart(c) || CanonicalJson.IsDigit(c) || c == '-'
  }

  /** What the pattern matches as a name, as an index anything. */
  predicate Legal(s: Segment) {
    s.Field? ==> s.name != "" && NameStart(s.name[0]) && forall i :: 0 <= i < |s.name| ==> NameChar(s.name[i])
  }

  predicate AllLegal(segments: seq<Segment>) {
    forall i :: 0 <= i < |segments| ==> Legal(segments[i])
  }

  // ---------------------------------------------------------------- parsing

  /** How far the name characters go. */
  function NameLength(s: string): (n: nat)
    ensures n <= |s|
    ensures forall i :: 0 <= i < n ==> NameChar(s[i])
    ensures n < |s| ==> !NameChar(s[n])
  {
    if s == "" || !NameChar(s[0]) then 0 else 1 + NameLength(s[1..])
  }

  /** One segment at the front of a text, and what is behind it. */
  datatype Match = NoMatch | Matched(segment: Segment, rest: string)

  function MatchSegment(s: string): (m: Match)
    ensures m.Matched? ==> |m.rest| < |s| && Legal(m.segment)
  {
    if s == "" then NoMatch
    else if NameStart(s[0]) then Matched(Field(s[..NameLength(s)]), s[NameLength(s)..])
    else if s[0] == '[' && |s| > 1 && CanonicalJson.IsDigit(s[1]) then
      var p := CanonicalJson.ParseDigits(s[1..], 0);
      if p.rest != "" && p.rest[0] == ']' then Matched(Item(p.value), p.rest[1..]) else NoMatch
    else NoMatch
  }

  /** The segments of a text; None where a character fits nowhere. */
  function Split(s: string): (r: Option<seq<Segment>>)
    ensures r.Some? ==> AllLegal(r.value)
    decreases |s|
  {
    if s == "" then Some([])
    else if s[0] == '.' then Split(s[1..])
    else
      var m := MatchSegment(s);
      if m.NoMatch? then None
      else
        var more := Split(m.rest);
        if more.None? then None else Some([m.segment] + more.value)
  }

  /** An empty path names nothing. */
  function Parse(path: string): (r: Option<seq<Segment>>)
    ensures r.Some? ==> r.value != [] && AllLegal(r.value)
  {
    var r := Split(path);
    if r.Some? && r.value != [] then r else None
  }

  /** `_segments` */
  method Segments(path: string) returns (r: Option<seq<Segment>>)
    ensures r == Parse(path)
  {
    var out: seq<Segment> := [];
    var position := 0;
    PrependNothing(Split(path));
    assert path[0..] == path;
    while position < |path|
      invariant 0 <= position <= |path|
      invariant Split(path) == Prepend(out, Split(path[position..]))
    {
      var rest := path[position..];
      if path[position] == '.' {
        assert rest[1..] == path[position + 1..];
        position := position + 1;
        continue;
      }
      var m := MatchSegment(rest);
      if m.NoMatch? {
        return None;
      }
      MatchBehind(rest);
      PrependOne(out, m.segment, Split(m.rest));
      out := out + [m.segment];
      position := |path| - |m.rest|;
      assert path[position..] == m.rest;
    }
    assert out + [] == out;
    if out == [] {
      return None;
    }
    return Some(out);
  }

  function Prepend(out: seq<Segment>, more: Option<seq<Segment>>): Option<seq<Segment>> {
    if more.None? then None else Some(out + more.value)
  }

  lemma PrependOne(out: seq<Segment>, s: Segment, more: Option<seq<Segment>>)
    ensures Prepend(out, if more.None? then None else Some([s] + more.value)) == Prepend(out + [s], more)
  {
    if more.Some? {
      assert out + ([s] + more.value) == out + [s] + more.value;
    }
  }

  lemma MatchBehind(s: string)
    requires MatchSegment(s).Matched?
    ensures MatchSegment(s).rest == s[|s| - |MatchSegment(s).rest|..]
  {
    if !NameStart(s[0]) {
      DigitsBehind(s[1..], 0);
    }
  }

  lemma {:induction false} DigitsBehind(s: string, n: nat)
    ensures CanonicalJson.ParseDigits(s, n).rest == s[|s| - |CanonicalJson.ParseDigits(s, n).rest|..]
  {
    if s != "" && CanonicalJson.IsDigit(s[0]) {
      DigitsBehind(s[1..], 10 * n + (s[0] as int - '0' as int));
    }
  }

  // --------------------------------------------------------------- printing

  function Piece(s: Segment, inside: bool): string {
    match s
    case Item(i) => "[" + CanonicalJson.Digits(i) + "]"
    case Field(name) => if inside then "." + name else name
  }

  function Text(segments: seq<Segment>): string {
    if segments == [] then ""
    else Text(Init(segments)) + Piece(Last(segments), Text(Init(segments)) != "")
  }

  /** `_render` */
  method Render(segments: seq<Segment>) returns (text: string)
    ensures text == if Text(segments) == "" then "$" else Text(segments)
  {
    text := "";
    var i := 0;
    while i < |segments|
      invariant 0 <= i <= |segments|
      invariant text == Text(segments[..i])
    {
      assert Init(segments[..i + 1]) == segments[..i];
      match segments[i] {
        case Item(index) => text := text + ("[" + CanonicalJson.Digits(index) + "]");
        case Field(name) => text := text + (if text != "" then "." + name else name);
      }
      i := i + 1;
    }
    assert segments[..i] == segments;
    if text == "" {
      text := "$";
    }
  }

  // ------------------------------------------------------------- round trip

  /** What may follow a name without becoming part of it. */
  predicate Apart(rest: string) {
    rest == "" || !NameChar(rest[0])
  }

  lemma {:induction false} NameLengthOf(name: string, rest: string)
    requires (forall i :: 0 <= i < |name| ==> NameChar(name[i])) && Apart(rest)
    ensures NameLength(name + rest) == |name|
  {
    if name == "" {
      assert name + rest == rest;
    } else {
      assert (name + rest)[1..] == name[1..] + rest;
      NameLengthOf(name[1..], rest);
    }
  }

  lemma SplitField(name: string, rest: string)
    requires Legal(Field(name)) && Apart(rest)
    ensures Split(name + rest) == Prepend([Field(name)], Split(rest))
  {
    var s := name + rest;
    NameLengthOf(name, rest);
    assert s[..|name|] == name && s[|name|..] == rest;
    assert s[0] == name[0];
  }

  lemma SplitItem(i: nat, rest: string)
    ensures Split("[" + CanonicalJson.Digits(i) + "]" + rest) == Prepend([Item(i)], Split(rest))
  {
    var s := "[" + CanonicalJson.Digits(i) + "]" + rest;
    var ending := "]" + rest;
    CanonicalJson.DigitsBack(i, ending);
    assert s[1..] == CanonicalJson.Digits(i) + ending;
    assert s[1] == CanonicalJson.Digits(i)[0];
    assert CanonicalJson.ParseDigits(ending, i).rest == ending;
    assert ending[1..] == rest;
  }

  lemma SplitPiece(s: Segment, inside: bool, rest: string)
    requires Legal(s) && Apart(rest)
    ensures Split(Piece(s, inside) + rest) == Prepend([s], Split(rest))
    ensures inside ==> Apart(Piece(s, inside) + rest)
  {
    match s {
      case Item(i) => SplitItem(i, rest);
      case Field(name) =>
        SplitField(name, rest);
        if inside {
          assert ("." + name + rest)[1..] == name + rest;
        }
    }
  }

  lemma {:induction false} SplitText(segments: seq<Segment>, rest: string)
    requires AllLegal(segments) && Apart(rest)
    ensures Split(Text(segments) + rest) == Prepend(segments, Split(rest))
    ensures segments != [] ==> Text(segments) != ""
  {
    if segments == [] {
      assert "" + rest == rest;
      PrependNothing(Split(rest));
    } else {
      var init, last := Init(segments), Last(segments);
      var piece := Piece(last, Text(init) != "");
      assert Legal(last);
      SplitText(init, "");
      PieceNotEmpty(last, Text(init) != "");
      SplitPiece(last, Text(init) != "", rest);
      assert segments == init + [last];
      if init == [] {
        assert "" + (piece + rest) == piece + rest;
      } else {
        SplitText(init, piece + rest);
        PrependOne(init, last, Split(rest));
      }
      TextBehind(segments, rest);
    }
  }

  lemma TextBehind(segments: seq<Segment>, rest: string)
    requires segments != []
    ensures var inside := Text(Init(segments)) != "";
            Text(segments) + rest == Text(Init(segments)) + (Piece(Last(segments), inside) + rest)
  {
  }

  lemma PieceNotEmpty(s: Segment, inside: bool)
    requires Legal(s)
    ensures Piece(s, inside) != ""
  {
  }

  lemma PrependNothing(more: Option<seq<Segment>>)
    ensures Prepend([], more) == more
  {
    if more.Some? {
      assert [] + more.value == more.value;
    }
  }

  /** Parsing inverts printing, for every path there is. */
  lemma RoundTrip(segments: seq<Segment>)
    requires segments != [] && AllLegal(segments)
    ensures Text(segments) != "" && Parse(Text(segments)) == Some(segments)
  {
    SplitText(segments, "");
    assert Text(segments) + "" == Text(segments);
    assert segments + [] == segments;
  }

  // ---------------------------------------------------------------- meaning

  /** What a step may read; the last three only inside the body they belong to. */
  datatype WorkflowScope = WorkflowScope(
    input: Dict, steps: Dict, state: Dict, item: Option<Json>, index: Option<int>, iteration: Option<int>)

  datatype Unresolved =
    | Malformed | UnknownRoot | NotReadable | PastEnd | NotAList | NoField | NotAnObject

  datatype Resolved = Value(value: Json) | Failed(why: Unresolved)

  function Root(scope: WorkflowScope, s: Segment): Resolved {
    if !s.Field? then Failed(UnknownRoot)
    else if s.name == "input" then Value(Object(scope.input))
    else if s.name == "steps" then Value(Object(scope.steps))
    else if s.name == "state" then Value(Object(scope.state))
    else if s.name == "item" then (if scope.item.None? then Failed(NotReadable) else Value(scope.item.value))
    else if s.name == "index" then (if scope.index.None? then Failed(NotReadable) else Value(Int(scope.index.value)))
    else if s.name == "iteration" then
      (if scope.iteration.None? then Failed(NotReadable) else Value(Int(scope.iteration.value)))
    else Failed(UnknownRoot)
  }

  /** `_descend` */
  function Descend(value: Json, s: Segment): Resolved {
    match s
    case Item(i) =>
      if !value.List? then Failed(NotAList)
      else if i >= |value.items| then Failed(PastEnd) else Value(value.items[i])
    case Field(name) =>
      if !value.Object? then Failed(NotAnObject)
      else if name !in value.fields then Failed(NoField) else Value(value.fields[name])
  }

  function Walk(from: Resolved, segments: seq<Segment>): Resolved
    decreases |segments|
  {
    if segments == [] || from.Failed? then from else Walk(Descend(from.value, segments[0]), segments[1..])
  }

  /** What a path names, told by its segments alone. */
  function Named(scope: WorkflowScope, segments: seq<Segment>): Resolved
    requires segments != []
  {
    Walk(Root(scope, segments[0]), segments[1..])
  }

  /** `resolve_path` */
  method ResolvePath(scope: WorkflowScope, path: string) returns (r: Resolved)
    ensures r == if Parse(path).None? then Failed(Malformed) else Named(scope, Parse(path).value)
  {
    var parsed := Segments(path);
    if parsed.None? {
      return Failed(Malformed);
    }
    var segments := parsed.value;
    var current := Root(scope, segments[0]);
    if current.Failed? {
      return current;
    }
    var depth := 1;
    while depth < |segments|
      invariant 1 <= depth <= |segments|
      invariant current.Value?
      invariant Walk(current, segments[depth..]) == Named(scope, segments)
    {
      assert segments[depth..][1..] == segments[depth + 1..];
      current := Descend(current.value, segments[depth]);
      if current.Failed? {
        return current;
      }
      depth := depth + 1;
    }
    return current;
  }

  /** Walking a longer path is walking its front and going on from there. */
  lemma {:induction false} WalkConcat(from: Resolved, a: seq<Segment>, b: seq<Segment>)
    ensures Walk(from, a + b) == Walk(Walk(from, a), b)
    decreases |a|
  {
    if a == [] {
      assert a + b == b;
    } else if from.Value? {
      assert (a + b)[1..] == a[1..] + b;
      WalkConcat(Descend(from.value, a[0]), a[1..], b);
    }
  }

  /** Every path that parses has one printed form, which parses back and names the same value in
      every scope; and a path that goes on names what the rest names from there. */
  lemma PrintedFormNamesTheSame(scope: WorkflowScope, path: string)
    requires Parse(path).Some?
    ensures var segments := Parse(path).value;
            && Parse(Text(segments)) == Parse(path)
            && Named(scope, Parse(Text(segments)).value) == Named(scope, segments)
            && (forall n :: 0 < n <= |segments| ==>
                  Named(scope, segments) == Walk(Named(scope, segments[..n]), segments[n..]))
  {
    var segments := Parse(path).value;
    RoundTrip(segments);
    forall n | 0 < n <= |segments|
      ensures Named(scope, segments) == Walk(Named(scope, segments[..n]), segments[n..])
    {
      assert segments[1..] == segments[..n][1..] + segments[n..];
      WalkConcat(Root(scope, segments[0]), segments[..n][1..], segments[n..]);
    }
  }

  // --------------------------------------------------------- what is named

  /** A path of one name is a root: three always, three inside the body they belong to. */
  lemma RootsAre(scope: WorkflowScope, name: string)
    ensures Named(scope, [Field("input")]) == Value(Object(scope.input))
    ensures Named(scope, [Field("steps")]) == Value(Object(scope.steps))
    ensures Named(scope, [Field("state")]) == Value(Object(scope.state))
    ensures Named(scope, [Field("item")]) == if scope.item == None then Failed(NotReadable) else Value(scope.item.value)
    ensures Named(scope, [Field("index")])
            == if scope.index == None then Failed(NotReadable) else Value(Int(scope.index.value))
    ensures Named(scope, [Field("iteration")])
            == if scope.iteration == None then Failed(NotReadable) else Value(Int(scope.iteration.value))
    ensures name !in {"input", "steps", "state", "item", "index", "iteration"} ==>
              Named(scope, [Field(name)]) == Failed(UnknownRoot)
  {
  }

  lemma NoIndexFirst(scope: WorkflowScope, i: nat)
    ensures Named(scope, [Item(i)]) == Failed(UnknownRoot)
  {
  }

  /** One more segment names the item there or the field of that name, of what was named before;
      and fails for the first reason there is. */
  lemma {:induction false} OneMoreSegment(scope: WorkflowScope, segments: seq<Segment>, s: Segment)
    requires segments != []
    ensures var before, after := Named(scope, segments), Named(scope, segments + [s]);
            && (before.Failed? ==> after == before)
            && (before.Value? && s.Item? ==>
                  if before.value.List? then
                    after == if s.index < |before.value.items| then Value(before.value.items[s.index])
                             else Failed(PastEnd)
                  else after == Failed(NotAList))
            && (before.Value? && s.Field? ==>
                  if before.value.Object? then
                    after == if s.name in before.value.fields then Value(before.value.fields[s.name])
                             else Failed(NoField)
                  else after == Failed(NotAnObject))
  {
    var from := Root(scope, segments[0]);
    assert (segments + [s])[1..] == segments[1..] + [s];
    WalkConcat(from, segments[1..], [s]);
    assert [s][1..] == [];
  }

  /** The characters of a name: a letter or an underscore, then those, digits and hyphens. */
  lemma NamesAre(c: char)
    ensures NameStart(c) <==>
              c == '_' || 0x41 <= c as int <= 0x5A || 0x61 <= c as int <= 0x7A
    ensures NameChar(c) <==> NameStart(c) || c == '-' || 0x30 <= c as int <= 0x39
  {
  }

  /** Which texts are paths: dots are passed over wherever they stand, a name goes as far as its
      characters do, an index needs a digit and its closing bracket, and nothing else begins a
      segment. */
  lemma {:induction false} PathsAre(s: string)
    ensures Parse("") == None
    ensures Split("." + s) == Split(s)
    ensures s != "" && s[0] != '.' && s[0] != '[' && !NameStart(s[0]) ==> Split(s) == None
    ensures s != "" && s[0] == '[' && (|s| == 1 || !(0x30 <= s[1] as int <= 0x39)) ==> Split(s) == None
  {
    assert ("." + s)[1..] == s;
  }

  /** An index that is not closed is no path. */
  lemma {:induction false} OpenIndex(i: nat, rest: string)
    requires rest == "" || (rest[0] != ']' && !(0x30 <= rest[0] as int <= 0x39))
    ensures Split("[" + CanonicalJson.Digits(i) + rest) == None
  {
    var s := "[" + CanonicalJson.Digits(i) + rest;
    CanonicalJson.DigitsBack(i, rest);
    assert s[1..] == CanonicalJson.Digits(i) + rest;
    assert s[1] == CanonicalJson.Digits(i)[0];
    assert CanonicalJson.ParseDigits(rest, i).rest == rest;
  }

  /** A printed path: an index in brackets, a name behind a dot unless it is the first. */
  lemma {:induction false} PrintedAs(segments: seq<Segment>, i: nat, name: string)
    ensures Text([]) == "" && Text([Field(name)]) == name
    ensures Text(segments + [Item(i)]) == Text(segments) + "[" + CanonicalJson.Digits(i) + "]"
    ensures Text(segments) != "" ==> Text(segments + [Field(name)]) == Text(segments) + "." + name
  {
    assert Init(segments + [Item(i)]) == segments && Init(segments + [Field(name)]) == segments;
    assert Init([Field(name)]) == [];
  }
}
