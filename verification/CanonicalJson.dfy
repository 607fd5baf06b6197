/** The RFC 8785 canonical form of JSON values whose numbers are integers, and the parser that
    reads it back. */
module CanonicalJson {
  import opened Values
  import opened Utf16

  // --------------------------------------------------------------- printing

  /** `canonicalize` */
  function Canonical(v: Json): string
    decreases v
  {
    match v
    case Null => "null"
    case Bool(b) => if b then "true" else "false"
    case Int(n) => Decimal(n)
    case Text(s) => Quoted(s)
    case List(items) => "[" + Items(v, 0)
    case Object(fields) => "{" + Members(v, SortedKeys(fields.Keys))
  }

  /** The items of a list from one index on, and the closing bracket. */
  function Items(v: Json, i: nat): string
    requires v.List? && i <= |v.items|
    decreases v, |v.items| - i
  {
    if i == |v.items| then "]"
    else Canonical(v.items[i]) + (if i + 1 == |v.items| then "]" else "," + Items(v, i + 1))
  }

  /** The members of an object under the given keys, and the closing brace. */
  function Members(v: Json, keys: seq<string>): string
    requires v.Object? && forall k | k in keys :: k in v.fields
    decreases v, |keys|
  {
    if keys == [] then "}"
    else
      Quoted(keys[0]) + ":" + Canonical(v.fields[keys[0]])
      + (if |keys| == 1 then "}" else "," + Members(v, keys[1..]))
  }

  function Decimal(n: int): string {
    if n < 0 then "-" + Digits(-n) else Digits(n)
  }

  function Digits(n: nat): string {
    if n < 10 then [Digit(n)] else Digits(n / 10) + [Digit(n % 10)]
  }

  function Digit(d: nat): char
    requires d < 10
  {
    ('0' as int + d) as char
  }

  function Quoted(s: string): string {
    "\"" + Escaped(s) + "\""
  }

  function Escaped(s: string): string {
    if s == "" then "" else Escape(s[0]) + Escaped(s[1..])
  }

  /** The seven short forms, `\u00XX` for the other control characters, nothing else. */
  function Escape(c: char): string {
    if ShortForm(c).Some? then ['\\', ShortForm(c).value]
    else if c as int < 0x20 then ['\\', 'u', '0', '0', Hex(c as int / 16), Hex(c as int % 16)]
    else [c]
  }

  function ShortForm(c: char): Option<char> {
    if c == '"' || c == '\\' then Some(c)
    else if c as int == 8 then Some('b')
    else if c as int == 12 then Some('f')
    else if c == '\n' then Some('n')
    else if c == '\r' then Some('r')
    else if c == '\t' then Some('t')
    else None
  }

  function Hex(d: nat): char
    requires d < 16
  {
    if d < 10 then Digit(d) else ('a' as int + (d - 10)) as char
  }

  // ---------------------------------------------------------------- parsing

  /** A value read from the front of a text, and the text behind it. */
  datatype Parsed<T> = Failed | Got(value: T, rest: string)

  function ParseValue(s: string): (p: Parsed<Json>)
    ensures p.Got? ==> |p.rest| < |s|
    decreases |s|, 0
  {
    if s == "" then Failed
    else if s[0] == '"' then
      var t := ParseText(s[1..]);
      if t.Got? then Got(Text(t.value), t.rest) else Failed
    else if s[0] == '[' then
      if "]" <= s[1..] then Got(List([]), s[2..])
      else
        var items := ParseItems(s[1..]);
        if items.Got? then Got(List(items.value), items.rest) else Failed
    else if s[0] == '{' then
      if "}" <= s[1..] then Got(Object(map[]), s[2..])
      else
        var fields := ParseMembers(s[1..]);
        if fields.Got? then Got(Object(fields.value), fields.rest) else Failed
    else if "null" <= s then Got(Null, s[4..])
    else if "true" <= s then Got(Bool(true), s[4..])
    else if "false" <= s then Got(Bool(false), s[5..])
    else ParseInt(s)
  }

  function ParseItems(s: string): (p: Parsed<seq<Json>>)
    ensures p.Got? ==> |p.rest| < |s|
    decreases |s|, 1
  {
    var item := ParseValue(s);
    if item.Failed? || item.rest == "" then Failed
    else if item.rest[0] == ']' then Got([item.value], item.rest[1..])
    else if item.rest[0] != ',' then Failed
    else
      var more := ParseItems(item.rest[1..]);
      if more.Got? then Got([item.value] + more.value, more.rest) else Failed
  }

  /** A repeated key keeps its last value. */
  function ParseMembers(s: string): (p: Parsed<Dict>)
    ensures p.Got? ==> |p.rest| < |s|
    decreases |s|, 1
  {
    if s == "" || s[0] != '"' then Failed
    else
      var key := ParseText(s[1..]);
      if key.Failed? || key.rest == "" || key.rest[0] != ':' then Failed
      else
        var item := ParseValue(key.rest[1..]);
        if item.Failed? || item.rest == "" then Failed
        else if item.rest[0] == '}' then Got(map[key.value := item.value], item.rest[1..])
        else if item.rest[0] != ',' then Failed
        else
          var more := ParseMembers(item.rest[1..]);
          if more.Got? then Got(map[key.value := item.value] + more.value, more.rest) else Failed
  }

  predicate IsDigit(c: char) {
    '0' <= c <= '9'
  }

  function ParseInt(s: string): (p: Parsed<Json>)
    ensures p.Got? ==> |p.rest| < |s|
  {
    if s != "" && IsDigit(s[0]) then
      var n := ParseDigits(s, 0);
      Got(Int(n.value), n.rest)
    else if |s| > 1 && s[0] == '-' && IsDigit(s[1]) then
      var n := ParseDigits(s[1..], 0);
      Got(Int(0 - n.value), n.rest)
    else Failed
  }

  /** The digits at the front of a text, after digits worth `n`. */
  function ParseDigits(s: string, n: nat): (p: Parsed<nat>)
    ensures p.Got? && |p.rest| <= |s|
    ensures s != "" && IsDigit(s[0]) ==> |p.rest| < |s|
  {
    if s == "" || !IsDigit(s[0]) then Got(n, s)
    else ParseDigits(s[1..], 10 * n + (s[0] as int - '0' as int))
  }

  /** A string up to and past its closing quote. */
  function ParseText(s: string): (p: Parsed<string>)
    ensures p.Got? ==> |p.rest| < |s|
  {
    if s == "" then Failed
    else if s[0] == '"' then Got("", s[1..])
    else
      var c := ParseChar(s);
      if c.Failed? then Failed
      else
        var more := ParseText(c.rest);
        if more.Got? then Got([c.value] + more.value, more.rest) else Failed
  }

  function ParseChar(s: string): (p: Parsed<char>)
    requires s != ""
    ensures p.Got? ==> |p.rest| < |s|
  {
    if s[0] as int < 0x20 then Failed
    else if s[0] != '\\' then Got(s[0], s[1..])
    else if |s| < 2 then Failed
    else if LongForm(s[1]).Some? then Got(LongForm(s[1]).value, s[2..])
    else if |s| >= 6 && s[1] == 'u' && s[2] == '0' && s[3] == '0'
            && HexValue(s[4]).Some? && HexValue(s[5]).Some?
    then Got((16 * HexValue(s[4]).value + HexValue(s[5]).value) as char, s[6..])
    else Failed
  }

  function LongForm(c: char): Option<char> {
    if c == '"' || c == '\\' then Some(c)
    else if c == 'b' then Some(8 as char)
    else if c == 'f' then Some(12 as char)
    else if c == 'n' then Some('\n')
    else if c == 'r' then Some('\r')
    else if c == 't' then Some('\t')
    else None
  }

  function HexValue(c: char): (d: Option<nat>)
    ensures d.Some? ==> d.value < 16
  {
    if IsDigit(c) then Some(c as int - '0' as int)
    else if 'a' <= c <= 'f' then Some(c as int - 'a' as int + 10)
    else None
  }

  /** A whole text holding one value. */
  function Parse(s: string): Option<Json> {
    var p := ParseValue(s);
    if p.Got? && p.rest == "" then Some(p.value) else None
  }

  // ------------------------------------------------------------ reading back

  lemma EscapeBack(c: char, rest: string)
    ensures (Escape(c) + rest)[0] != '"'
    ensures ParseChar(Escape(c) + rest) == Got(c, rest)
  {
    var s := Escape(c) + rest;
    if ShortForm(c).Some? {
      assert LongForm(ShortForm(c).value) == Some(c);
      assert s[1] == ShortForm(c).value;
      assert s[2..] == rest;
    } else if c as int < 0x20 {
      HexBack(c as int / 16);
      HexBack(c as int % 16);
      assert s[4] == Hex(c as int / 16) && s[5] == Hex(c as int % 16);
      assert s[6..] == rest;
    } else {
      assert s[1..] == rest;
    }
  }

  lemma HexBack(d: nat)
    requires d < 16
    ensures HexValue(Hex(d)) == Some(d)
  {
  }

  lemma {:induction false} EscapedBack(text: string, rest: string)
    ensures ParseText(Escaped(text) + ("\"" + rest)) == Got(text, rest)
  {
    var ending := "\"" + rest;
    if text == "" {
      assert Escaped(text) + ending == ending;
    } else {
      EscapeBack(text[0], Escaped(text[1..]) + ending);
      EscapedBack(text[1..], rest);
      TextStep(Escape(text[0]) + (Escaped(text[1..]) + ending), text[0], Escaped(text[1..]) + ending, text[1..], rest);
      EscapedCons(text, ending);
    }
  }

  lemma EscapedCons(text: string, ending: string)
    requires text != ""
    ensures Escaped(text) + ending == Escape(text[0]) + (Escaped(text[1..]) + ending)
    ensures text == [text[0]] + text[1..]
  {
    Regroup(Escape(text[0]), Escaped(text[1..]), ending);
  }

  lemma Regroup(a: string, b: string, c: string)
    ensures (a + b) + c == a + (b + c)
  {
  }

  lemma TextStep(s: string, c: char, behind: string, more: string, rest: string)
    requires s != "" && s[0] != '"' && ParseChar(s) == Got(c, behind) && ParseText(behind) == Got(more, rest)
    ensures ParseText(s) == Got([c] + more, rest)
  {
  }

  /** What may follow a number: nothing that would make it longer. */
  predicate Ends(rest: string) {
    rest == "" || !IsDigit(rest[0])
  }

  lemma {:induction false} DigitsBack(n: nat, rest: string)
    ensures ParseDigits(Digits(n) + rest, 0) == ParseDigits(rest, n)
    ensures IsDigit(Digits(n)[0])
  {
    if n < 10 {
      DigitBack(n, 0, rest);
    } else {
      DigitsBack(n / 10, [Digit(n % 10)] + rest);
      DigitBack(n % 10, n / 10, rest);
      assert Digits(n) + rest == Digits(n / 10) + ([Digit(n % 10)] + rest);
    }
  }

  lemma DigitBack(d: nat, n: nat, rest: string)
    requires d < 10
    ensures ParseDigits([Digit(d)] + rest, n) == ParseDigits(rest, 10 * n + d)
  {
    var s := [Digit(d)] + rest;
    assert s[1..] == rest;
  }

  lemma ParsedAsNumber(s: string)
    requires s != "" && (s[0] == '-' || IsDigit(s[0]))
    ensures ParseValue(s) == ParseInt(s)
  {
  }

  lemma NaturalBack(n: nat, rest: string)
    requires Ends(rest)
    ensures ParseValue(Digits(n) + rest) == Got(Int(n), rest)
  {
    DigitsBack(n, rest);
    ParsedAsNumber(Digits(n) + rest);
  }

  lemma NegativeBack(n: nat, rest: string)
    requires Ends(rest)
    ensures ParseValue("-" + Digits(n) + rest) == Got(Int(0 - n), rest)
  {
    var s := "-" + Digits(n) + rest;
    DigitsBack(n, rest);
    ParsedAsNumber(s);
    assert s[1..] == Digits(n) + rest;
  }

  lemma DecimalBack(n: int, rest: string)
    requires Ends(rest)
    ensures ParseValue(Decimal(n) + rest) == Got(Int(n), rest)
  {
    if n < 0 {
      NegativeBack(-n, rest);
    } else {
      NaturalBack(n, rest);
    }
  }

  lemma QuotedBack(text: string, rest: string)
    ensures (Quoted(text) + rest)[0] == '"'
    ensures ParseText((Quoted(text) + rest)[1..]) == Got(text, rest)
  {
    EscapedBack(text, rest);
    BehindQuote(Escaped(text), rest);
  }

  lemma BehindQuote(escaped: string, rest: string)
    ensures ("\"" + escaped + "\"" + rest)[1..] == escaped + ("\"" + rest)
  {
  }

  lemma LastItem(s: string, item: Json, rest: string)
    requires ParseValue(s) == Got(item, "]" + rest)
    ensures ParseItems(s) == Got([item], rest)
  {
    assert ("]" + rest)[1..] == rest;
  }

  lemma NextItem(s: string, item: Json, behind: string, more: seq<Json>, rest: string)
    requires ParseValue(s) == Got(item, "," + behind) && ParseItems(behind) == Got(more, rest)
    ensures ParseItems(s) == Got([item] + more, rest)
  {
    assert ("," + behind)[1..] == behind;
  }

  lemma ListBack(s: string, items: seq<Json>, rest: string)
    requires ParseItems(s) == Got(items, rest)
    ensures ParseValue("[" + s) == Got(List(items), rest)
  {
    assert ("[" + s)[1..] == s;
    assert ParseValue(s).Got?;
    assert !("]" <= s);
  }

  /** A member's key and colon, and what the value behind them gives. */
  lemma LastMember(key: string, s: string, item: Json, rest: string)
    requires ParseValue(s) == Got(item, "}" + rest)
    ensures ParseMembers(Quoted(key) + (":" + s)) == Got(map[key := item], rest)
  {
    QuotedBack(key, ":" + s);
    assert (":" + s)[1..] == s;
    assert ("}" + rest)[1..] == rest;
  }

  lemma NextMember(key: string, s: string, item: Json, behind: string, more: Dict, rest: string)
    requires ParseValue(s) == Got(item, "," + behind) && ParseMembers(behind) == Got(more, rest)
    ensures ParseMembers(Quoted(key) + (":" + s)) == Got(map[key := item] + more, rest)
  {
    QuotedBack(key, ":" + s);
    assert (":" + s)[1..] == s;
    assert ("," + behind)[1..] == behind;
  }

  lemma ObjectBack(s: string, fields: Dict, rest: string)
    requires ParseMembers(s) == Got(fields, rest)
    ensures ParseValue("{" + s) == Got(Object(fields), rest)
  {
    assert ("{" + s)[1..] == s;
    assert s[0] == '"';
    assert !("}" <= s);
  }

  lemma TextBack(text: string, rest: string)
    ensures ParseValue(Quoted(text) + rest) == Got(Text(text), rest)
  {
    QuotedBack(text, rest);
  }

  lemma WordBack(v: Json, rest: string)
    requires v.Null? || v.Bool?
    ensures ParseValue(Canonical(v) + rest) == Got(v, rest)
  {
    assert ("null" + rest)[4..] == rest;
    assert ("true" + rest)[4..] == rest;
    assert ("false" + rest)[5..] == rest;
  }

  lemma EmptyBack(rest: string)
    ensures ParseValue("[]" + rest) == Got(List([]), rest)
    ensures ParseValue("{}" + rest) == Got(Object(map[]), rest)
  {
    assert ("[]" + rest)[1] == ']' && ("{}" + rest)[1] == '}';
    assert ("[]" + rest)[2..] == rest;
    assert ("{}" + rest)[2..] == rest;
  }

  function Behind(v: Json, i: nat, rest: string): string
    requires v.List? && i < |v.items|
  {
    if i + 1 == |v.items| then "]" + rest else "," + (Items(v, i + 1) + rest)
  }

  lemma ItemsAt(v: Json, i: nat, rest: string)
    requires v.List? && i < |v.items|
    ensures Items(v, i) + rest == Canonical(v.items[i]) + Behind(v, i, rest)
  {
  }

  lemma MembersAt(v: Json, keys: seq<string>, rest: string)
    requires v.Object? && forall k | k in keys :: k in v.fields
    requires keys != []
    ensures Members(v, keys) + rest
            == Quoted(keys[0]) + (":" + (Canonical(v.fields[keys[0]])
               + (if |keys| == 1 then "}" + rest else "," + (Members(v, keys[1..]) + rest))))
  {
    var key, item := Quoted(keys[0]), Canonical(v.fields[keys[0]]);
    if |keys| == 1 {
      MemberGrouped(key, item, "}", rest);
    } else {
      var more := Members(v, keys[1..]);
      MemberGrouped(key, item, "," + more, rest);
      Regroup(",", more, rest);
    }
  }

  lemma MemberGrouped(key: string, item: string, behind: string, rest: string)
    ensures (key + ":" + item + behind) + rest == key + (":" + (item + (behind + rest)))
  {
    Regroup(key + ":" + item, behind, rest);
    Regroup(key + ":", item, behind + rest);
    Regroup(key, ":", item + (behind + rest));
  }

  /** The parser reads back every printed value, whatever follows it. */
  lemma {:induction false} ValueBack(v: Json, rest: string)
    requires Ends(rest)
    ensures ParseValue(Canonical(v) + rest) == Got(v, rest)
    decreases v
  {
    match v
    case Null => WordBack(v, rest);
    case Bool(_) => WordBack(v, rest);
    case Int(n) => DecimalBack(n, rest);
    case Text(text) => TextBack(text, rest);
    case List(_) => ListValueBack(v, rest);
    case Object(_) => ObjectValueBack(v, rest);
  }

  lemma {:induction false} ListValueBack(v: Json, rest: string)
    requires v.List?
    ensures ParseValue(Canonical(v) + rest) == Got(v, rest)
    decreases v, |v.items| + 1
  {
    if v.items == [] {
      EmptyBack(rest);
    } else {
      ItemsBack(v, 0, rest);
      ListBack(Items(v, 0) + rest, v.items, rest);
      Regroup("[", Items(v, 0), rest);
    }
  }

  lemma {:induction false} ObjectValueBack(v: Json, rest: string)
    requires v.Object?
    ensures ParseValue(Canonical(v) + rest) == Got(v, rest)
    decreases v, |SortedKeys(v.fields.Keys)| + 1
  {
    var keys := SortedKeys(v.fields.Keys);
    if keys == [] {
      EmptyObjectBack(v, rest);
    } else {
      MembersBack(v, keys, rest);
      ObjectPrinted(v, rest);
      ObjectBack(Members(v, keys) + rest, v.fields, rest);
    }
  }

  lemma EmptyObjectBack(v: Json, rest: string)
    requires v.Object? && SortedKeys(v.fields.Keys) == []
    ensures ParseValue(Canonical(v) + rest) == Got(v, rest)
  {
    SortedKeysSorts(v.fields.Keys);
    EmptyBack(rest);
    assert v.fields == map[];
  }

  lemma ObjectPrinted(v: Json, rest: string)
    requires v.Object?
    ensures Canonical(v) + rest == "{" + (Members(v, SortedKeys(v.fields.Keys)) + rest)
    ensures Under(v.fields, SortedKeys(v.fields.Keys)) == v.fields
  {
    SortedKeysSorts(v.fields.Keys);
    UnderAll(v.fields, SortedKeys(v.fields.Keys));
    Regroup("{", Members(v, SortedKeys(v.fields.Keys)), rest);
  }

  lemma UnderAll(fields: Dict, keys: seq<string>)
    requires AsSet(keys) == fields.Keys
    ensures forall k | k in keys :: k in fields
    ensures Under(fields, keys) == fields
  {
    assert forall k | k in keys :: k in AsSet(keys);
    assert forall k | k in fields :: k in AsSet(keys);
  }

  lemma {:induction false} ItemsBack(v: Json, i: nat, rest: string)
    requires v.List? && i < |v.items|
    ensures ParseItems(Items(v, i) + rest) == Got(v.items[i..], rest)
    decreases v, |v.items| - i
  {
    ItemsAt(v, i, rest);
    ValueBack(v.items[i], Behind(v, i, rest));
    if i + 1 == |v.items| {
      EndOfItems(v, i, rest);
    } else {
      ItemsBack(v, i + 1, rest);
      MoreItems(v, i, rest);
    }
  }

  lemma EndOfItems(v: Json, i: nat, rest: string)
    requires v.List? && i + 1 == |v.items|
    requires ParseValue(Canonical(v.items[i]) + Behind(v, i, rest)) == Got(v.items[i], Behind(v, i, rest))
    ensures ParseItems(Canonical(v.items[i]) + Behind(v, i, rest)) == Got(v.items[i..], rest)
  {
    assert v.items[i..] == [v.items[i]];
    LastItem(Canonical(v.items[i]) + Behind(v, i, rest), v.items[i], rest);
  }

  lemma MoreItems(v: Json, i: nat, rest: string)
    requires v.List? && i + 1 < |v.items|
    requires ParseValue(Canonical(v.items[i]) + Behind(v, i, rest)) == Got(v.items[i], Behind(v, i, rest))
    requires ParseItems(Items(v, i + 1) + rest) == Got(v.items[i + 1..], rest)
    ensures ParseItems(Canonical(v.items[i]) + Behind(v, i, rest)) == Got(v.items[i..], rest)
  {
    var s, behind := Canonical(v.items[i]) + Behind(v, i, rest), Items(v, i + 1) + rest;
    assert v.items[i..] == [v.items[i]] + v.items[i + 1..];
    assert Behind(v, i, rest) == "," + behind;
    NextItem(s, v.items[i], behind, v.items[i + 1..], rest);
  }

  function Under(fields: Dict, keys: seq<string>): Dict
    requires forall k | k in keys :: k in fields
  {
    map k | k in keys :: fields[k]
  }

  lemma UnderCons(fields: Dict, keys: seq<string>)
    requires forall k | k in keys :: k in fields
    requires keys != []
    ensures Under(fields, keys) == map[keys[0] := fields[keys[0]]] + Under(fields, keys[1..])
    ensures |keys| == 1 ==> Under(fields, keys) == map[keys[0] := fields[keys[0]]]
  {
    assert keys == [keys[0]] + keys[1..];
  }

  lemma {:induction false} MembersBack(v: Json, keys: seq<string>, rest: string)
    requires v.Object? && forall k | k in keys :: k in v.fields
    requires keys != []
    ensures ParseMembers(Members(v, keys) + rest) == Got(Under(v.fields, keys), rest)
    decreases v, |keys|
  {
    var key := keys[0];
    var item := v.fields[key];
    MembersAt(v, keys, rest);
    UnderCons(v.fields, keys);
    if |keys| == 1 {
      ValueBack(item, "}" + rest);
      LastMember(key, Canonical(item) + ("}" + rest), item, rest);
    } else {
      var behind := Members(v, keys[1..]) + rest;
      MembersBack(v, keys[1..], rest);
      ValueBack(item, "," + behind);
      NextMember(key, Canonical(item) + ("," + behind), item, behind, Under(v.fields, keys[1..]), rest);
    }
  }

  /** The parser inverts the printer. */
  lemma ParseCanonical(v: Json)
    ensures Parse(Canonical(v)) == Some(v)
  {
    ValueBack(v, "");
    assert Canonical(v) + "" == Canonical(v);
  }

  /** Two values print alike exactly when they are equal, an object being its fields in no
      particular order. */
  lemma CanonicalInjective(v: Json, w: Json)
    ensures Canonical(v) == Canonical(w) <==> v == w
  {
    ParseCanonical(v);
    ParseCanonical(w);
  }

  // ------------------------------------------------------- no control characters

  /** No character below the space, so the text fits on one line. */
  predicate Printable(s: string) {
    forall i :: 0 <= i < |s| ==> ' ' <= s[i]
  }

  lemma PrintableConcat(a: string, b: string)
    requires Printable(a) && Printable(b)
    ensures Printable(a + b)
  {
  }

  lemma PrintableThree(a: string, b: string, c: string)
    requires Printable(a) && Printable(b) && Printable(c)
    ensures Printable(a + b + c)
  {
    PrintableConcat(a, b);
    PrintableConcat(a + b, c);
  }

  lemma EscapePrintable(c: char)
    ensures Printable(Escape(c))
  {
  }

  lemma {:induction false} EscapedPrintable(text: string)
    ensures Printable(Escaped(text))
  {
    if text != "" {
      EscapePrintable(text[0]);
      EscapedPrintable(text[1..]);
      PrintableConcat(Escape(text[0]), Escaped(text[1..]));
    }
  }

  lemma QuotedPrintable(text: string)
    ensures Printable(Quoted(text))
  {
    EscapedPrintable(text);
    PrintableThree("\"", Escaped(text), "\"");
  }

  lemma {:induction false} DigitsPrintable(n: nat)
    ensures Printable(Digits(n))
  {
    if n >= 10 {
      DigitsPrintable(n / 10);
      PrintableConcat(Digits(n / 10), [Digit(n % 10)]);
    }
  }

  lemma DecimalPrintable(n: int)
    ensures Printable(Decimal(n))
  {
    DigitsPrintable(if n < 0 then -n else n);
    if n < 0 {
      PrintableConcat("-", Digits(-n));
    }
  }

  /** Whatever control characters a value's strings hold, none is in its printed form. */
  lemma {:induction false} CanonicalPrintable(v: Json)
    ensures Printable(Canonical(v)) && Canonical(v) != ""
    decreases v
  {
    match v
    case Null =>
    case Bool(_) =>
    case Int(n) => DecimalPrintable(n);
    case Text(text) => QuotedPrintable(text);
    case List(_) =>
      ItemsPrintable(v, 0);
      PrintableConcat("[", Items(v, 0));
    case Object(fields) =>
      MembersPrintable(v, SortedKeys(fields.Keys));
      PrintableConcat("{", Members(v, SortedKeys(fields.Keys)));
  }

  lemma {:induction false} ItemsPrintable(v: Json, i: nat)
    requires v.List? && i <= |v.items|
    ensures Printable(Items(v, i))
    decreases v, |v.items| - i
  {
    if i < |v.items| {
      CanonicalPrintable(v.items[i]);
      var ending := if i + 1 == |v.items| then "]" else "," + Items(v, i + 1);
      ItemsPrintable(v, i + 1);
      PrintableConcat(",", Items(v, i + 1));
      PrintableConcat(Canonical(v.items[i]), ending);
    }
  }

  lemma {:induction false} MembersPrintable(v: Json, keys: seq<string>)
    requires v.Object? && forall k | k in keys :: k in v.fields
    ensures Printable(Members(v, keys))
    decreases v, |keys|
  {
    if keys != [] {
      var key := keys[0];
      var item := v.fields[key];
      var ending := if |keys| == 1 then "}" else "," + Members(v, keys[1..]);
      QuotedPrintable(key);
      CanonicalPrintable(item);
      MembersPrintable(v, keys[1..]);
      PrintableConcat(",", Members(v, keys[1..]));
      PrintableThree(Quoted(key), ":", Canonical(item));
      PrintableConcat(Quoted(key) + ":" + Canonical(item), ending);
    }
  }
}
