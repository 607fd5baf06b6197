/** Text to bytes and bytes to text: UTF-8, and base64url without padding (section 5 of RFC 4648). */
module Bytes {
  import opened Values

  type Byte = b: int | 0 <= b < 256

  // ------------------------------------------------------------------ UTF-8

  function Encode(s: string): seq<Byte> {
    if s == "" then [] else EncodeChar(s[0]) + Encode(s[1..])
  }

  function EncodeChar(c: char): (r: seq<Byte>)
    ensures r != []
  {
    var n := c as int;
    if n < 0x80 then [n]
    else if n < 0x800 then [0xC0 + n / 64, 0x80 + n % 64]
    else if n < 0x1_0000 then [0xE0 + n / 4096, 0x80 + n / 64 % 64, 0x80 + n % 64]
    else [0xF0 + n / 262144, 0x80 + n / 4096 % 64, 0x80 + n / 64 % 64, 0x80 + n % 64]
  }

  /** How many bytes a first byte announces. */
  function Announced(b: int): nat {
    if b < 0x80 then 1 else if b < 0xE0 then 2 else if b < 0xF0 then 3 else 4
  }

  /** The number a character's bytes carry. */
  function CodePoint(bytes: seq<int>): int
    requires bytes != [] && |bytes| == Announced(bytes[0])
  {
    if |bytes| == 1 then bytes[0]
    else if |bytes| == 2 then (bytes[0] - 0xC0) * 64 + (bytes[1] - 0x80)
    else if |bytes| == 3 then (bytes[0] - 0xE0) * 4096 + (bytes[1] - 0x80) * 64 + (bytes[2] - 0x80)
    else
      (bytes[0] - 0xF0) * 262144 + (bytes[1] - 0x80) * 4096 + (bytes[2] - 0x80) * 64 + (bytes[3] - 0x80)
  }

  lemma CharBack(c: char)
    ensures Announced(EncodeChar(c)[0]) == |EncodeChar(c)|
    ensures CodePoint(EncodeChar(c)) == c as int
  {
    Quarters(c as int);
  }

  lemma Quarters(n: nat)
    ensures n == n / 64 * 64 + n % 64
    ensures n == n / 4096 * 4096 + n / 64 % 64 * 64 + n % 64
    ensures n == n / 262144 * 262144 + n / 4096 % 64 * 4096 + n / 64 % 64 * 64 + n % 64
  {
    var a := n / 64;
    var b := a / 64;
    assert n == a * 64 + n % 64;
    assert a == b * 64 + a % 64;
    assert b == b / 64 * 64 + b % 64;
    assert b == n / 4096;
    assert b / 64 == n / 262144;
  }

  /** Two texts never share an encoding. */
  lemma {:induction false} EncodeInjective(a: string, b: string)
    requires Encode(a) == Encode(b)
    ensures a == b
  {
    if a != "" && b != "" {
      var c, d := EncodeChar(a[0]), EncodeChar(b[0]);
      assert c[0] == Encode(a)[0] && d[0] == Encode(b)[0];
      CharBack(a[0]);
      CharBack(b[0]);
      assert c == Encode(a)[..|c|] && d == Encode(b)[..|d|];
      assert Encode(a[1..]) == Encode(a)[|c|..] && Encode(b[1..]) == Encode(b)[|d|..];
      EncodeInjective(a[1..], b[1..]);
      assert a == [a[0]] + a[1..] && b == [b[0]] + b[1..];
    }
  }

  predicate Ascii(s: string) {
    forall i :: 0 <= i < |s| ==> s[i] as int < 0x80
  }

  // -------------------------------------------------------------- base64url

  /** The alphabet of urlsafe_b64encode. */
  function Symbol(v: nat): char
    requires v < 64
  {
    if v < 26 then ('A' as int + v) as char
    else if v < 52 then ('a' as int + (v - 26)) as char
    else if v < 62 then ('0' as int + (v - 52)) as char
    else if v == 62 then '-' else '_'
  }

  /** Three bytes to four symbols; one byte left over to two, two to three. */
  function B64Encode(data: seq<Byte>): string {
    if data == [] then ""
    else if |data| == 1 then [Symbol(data[0] / 4), Symbol(data[0] % 4 * 16)]
    else if |data| == 2 then
      [Symbol(data[0] / 4), Symbol(data[0] % 4 * 16 + data[1] / 16), Symbol(data[1] % 16 * 4)]
    else Four(data[0], data[1], data[2]) + B64Encode(data[3..])
  }

  function Four(a: Byte, b: Byte, c: Byte): string {
    [Symbol(a / 4), Symbol(a % 4 * 16 + b / 16), Symbol(b % 16 * 4 + c / 64), Symbol(c % 64)]
  }

  /** What the decoder makes of a symbol, having first put `+` and `/` for `-` and `_`. */
  function ValueOf(c: char): (v: Option<nat>)
    ensures v.Some? ==> v.value < 64
  {
    if 'A' <= c <= 'Z' then Some(c as int - 'A' as int)
    else if 'a' <= c <= 'z' then Some(c as int - 'a' as int + 26)
    else if '0' <= c <= '9' then Some(c as int - '0' as int + 52)
    else if c == '-' || c == '+' then Some(62)
    else if c == '_' || c == '/' then Some(63)
    else None
  }

  /** The decoder between two characters: how far into a quad, the bits kept back, the padding
      seen in a row, and the bytes given out. */
  datatype Quad = Quad(position: nat, kept: nat, pads: nat, out: seq<Byte>)

  predicate ValidQuad(q: Quad) {
    q.position < 4 && q.kept < (if q.position == 0 then 1 else if q.position == 1 then 64
                                else if q.position == 2 then 16 else 4)
  }

  /** One symbol of the alphabet. */
  function Take(q: Quad, v: nat): (r: Quad)
    requires ValidQuad(q) && v < 64
    ensures ValidQuad(r)
  {
    match q.position
    case 0 => Quad(1, v, 0, q.out)
    case 1 => Quad(2, v % 16, 0, q.out + [q.kept * 4 + v / 16])
    case 2 => Quad(3, v % 4, 0, q.out + [q.kept * 16 + v / 4])
    case _ => Quad(0, 0, 0, q.out + [q.kept * 64 + v])
  }

  /** The lenient decoder: foreign characters are skipped, padding that completes a quad ends
      the text, and a text that ends inside a quad is an error. */
  function Decode(s: string, q: Quad): Option<seq<Byte>>
    requires ValidQuad(q)
  {
    if s == "" then (if q.position == 0 then Some(q.out) else None)
    else if s[0] == '=' then
      if q.position >= 2 && q.position + q.pads + 1 >= 4 then Some(q.out)
      else Decode(s[1..], if q.position >= 2 then q.(pads := q.pads + 1) else q)
    else if ValueOf(s[0]).None? then Decode(s[1..], q)
    else Decode(s[1..], Take(q, ValueOf(s[0]).value))
  }

  function Padding(length: nat): string {
    match (4 - length % 4) % 4
    case 0 => ""
    case 1 => "="
    case 2 => "=="
    case _ => "==="
  }

  /** `b64url_decode`; a text that is not ASCII is refused. */
  function B64Decode(text: string): Option<seq<Byte>> {
    if !Ascii(text) then None else Decode(text + Padding(|text|), Quad(0, 0, 0, []))
  }

  lemma SymbolBack(v: nat)
    requires v < 64
    ensures ValueOf(Symbol(v)) == Some(v)
    ensures Symbol(v) != '=' && Symbol(v) != '.' && Symbol(v) as int < 0x80
  {
  }

  /** A symbol at the front of the text. */
  lemma DecodeSymbol(v: nat, rest: string, q: Quad)
    requires v < 64 && ValidQuad(q)
    ensures Decode([Symbol(v)] + rest, q) == Decode(rest, Take(q, v))
  {
    SymbolBack(v);
    assert ([Symbol(v)] + rest)[1..] == rest;
  }

  lemma DecodeTwo(v: nat, w: nat, rest: string, q: Quad)
    requires v < 64 && w < 64 && ValidQuad(q)
    ensures Decode([Symbol(v), Symbol(w)] + rest, q) == Decode(rest, Take(Take(q, v), w))
  {
    DecodeSymbol(v, [Symbol(w)] + rest, q);
    DecodeSymbol(w, rest, Take(q, v));
    assert [Symbol(v), Symbol(w)] + rest == [Symbol(v)] + ([Symbol(w)] + rest);
  }

  /** The bits a byte leaves to the next symbol, and the bits that symbol takes. */
  lemma SplitBits(a: Byte, b: Byte)
    ensures a / 4 * 4 + (a % 4 * 16 + b / 16) / 16 == a
    ensures (a % 4 * 16 + b / 16) % 16 * 16 + (b % 16 * 4) / 4 == b
    ensures (a % 4 * 16 + b / 16) % 16 == b / 16
  {
    assert (a % 4 * 16 + b / 16) / 16 == a % 4;
    assert (b % 16 * 4) / 4 == b % 16;
  }

  lemma SplitMore(b: Byte, c: Byte)
    ensures (b % 16 * 4 + c / 64) / 4 == b % 16
    ensures (b % 16 * 4 + c / 64) % 4 * 64 + c % 64 == c
  {
  }

  /** Two symbols give a byte and keep the high bits of the next. */
  lemma TakeTwo(a: Byte, b: Byte, out: seq<Byte>)
    ensures Take(Take(Quad(0, 0, 0, out), a / 4), a % 4 * 16 + b / 16) == Quad(2, b / 16, 0, out + [a])
  {
    SplitBits(a, b);
  }

  lemma TakeThird(b: Byte, c: Byte, out: seq<Byte>)
    ensures ValidQuad(Quad(2, b / 16, 0, out))
    ensures Take(Quad(2, b / 16, 0, out), b % 16 * 4 + c / 64) == Quad(3, c / 64, 0, out + [b])
  {
    SplitMore(b, c);
  }

  /** Three bytes come back from their four symbols. */
  lemma {:induction false} DecodeFour(a: Byte, b: Byte, c: Byte, rest: string, out: seq<Byte>)
    ensures Decode(Four(a, b, c) + rest, Quad(0, 0, 0, out)) == Decode(rest, Quad(0, 0, 0, out + [a, b, c]))
  {
    var v, w, x, y := a / 4, a % 4 * 16 + b / 16, b % 16 * 4 + c / 64, c % 64;
    TakeTwo(a, b, out);
    TakeThird(b, c, out + [a]);
    DecodeTwo(v, w, [Symbol(x), Symbol(y)] + rest, Quad(0, 0, 0, out));
    DecodeTwo(x, y, rest, Quad(2, b / 16, 0, out + [a]));
    OneByOne(out, a, b, c);
    FourByTwo(a, b, c, rest);
  }

  lemma OneByOne(out: seq<Byte>, a: Byte, b: Byte, c: Byte)
    ensures out + [a] + [b] + [c] == out + [a, b, c]
  {
  }

  lemma FourByTwo(a: Byte, b: Byte, c: Byte, rest: string)
    ensures Four(a, b, c) + rest
            == [Symbol(a / 4), Symbol(a % 4 * 16 + b / 16)]
               + ([Symbol(b % 16 * 4 + c / 64), Symbol(c % 64)] + rest)
  {
  }

  lemma DecodeOne(a: Byte, out: seq<Byte>)
    ensures Decode(B64Encode([a]) + "==", Quad(0, 0, 0, out)) == Some(out + [a])
  {
    TakeTwo(a, 0, out);
    DecodeTwo(a / 4, a % 4 * 16, "==", Quad(0, 0, 0, out));
    PaddedOut(Quad(2, 0, 0, out + [a]), "==");
  }

  lemma DecodePair(a: Byte, b: Byte, out: seq<Byte>)
    ensures Decode(B64Encode([a, b]) + "=", Quad(0, 0, 0, out)) == Some(out + [a, b])
  {
    var v, w, x := a / 4, a % 4 * 16 + b / 16, b % 16 * 4;
    TakeTwo(a, b, out);
    TakeThird(b, 0, out + [a]);
    DecodeTwo(v, w, [Symbol(x)] + "=", Quad(0, 0, 0, out));
    DecodeSymbol(x, "=", Quad(2, b / 16, 0, out + [a]));
    PaddedOut(Quad(3, 0, 0, out + [a] + [b]), "=");
    assert out + [a] + [b] == out + [a, b];
    assert B64Encode([a, b]) + "=" == [Symbol(v), Symbol(w)] + ([Symbol(x)] + "=");
  }

  predicate AllSymbols(s: string) {
    forall i :: 0 <= i < |s| ==> ValueOf(s[i]).Some?
  }

  function TakeAll(s: string, q: Quad): (r: Quad)
    requires AllSymbols(s) && ValidQuad(q) && q.pads == 0
    ensures ValidQuad(r) && r.pads == 0
  {
    if s == "" then q
    else
      TakeMoves(q, ValueOf(s[0]).value);
      TakeAll(s[1..], Take(q, ValueOf(s[0]).value))
  }

  lemma TakeMoves(q: Quad, v: nat)
    requires ValidQuad(q) && v < 64
    ensures Take(q, v).pads == 0 && Take(q, v).position == (q.position + 1) % 4
  {
  }

  lemma {:induction false} TakenPosition(s: string, q: Quad)
    requires AllSymbols(s) && ValidQuad(q) && q.pads == 0
    ensures TakeAll(s, q).position == (q.position + |s|) % 4
  {
    if s != "" {
      TakeMoves(q, ValueOf(s[0]).value);
      TakenPosition(s[1..], Take(q, ValueOf(s[0]).value));
    }
  }

  lemma {:induction false} DecodeAll(s: string, rest: string, q: Quad)
    requires AllSymbols(s) && ValidQuad(q) && q.pads == 0
    ensures Decode(s + rest, q) == Decode(rest, TakeAll(s, q))
  {
    if s == "" {
      assert s + rest == rest;
    } else {
      assert (s + rest)[1..] == s[1..] + rest;
      TakeMoves(q, ValueOf(s[0]).value);
      DecodeAll(s[1..], rest, Take(q, ValueOf(s[0]).value));
    }
  }

  /** Padding after a lone symbol completes nothing. */
  lemma {:induction false} LoneSymbol(padding: string, q: Quad)
    requires ValidQuad(q) && q.position == 1 && forall i :: 0 <= i < |padding| ==> padding[i] == '='
    ensures Decode(padding, q).None?
  {
    if padding != "" {
      LoneSymbol(padding[1..], q);
    }
  }

  /** A text of base64url symbols alone is refused exactly when its last quad has one symbol. */
  lemma SymbolsDecode(text: string)
    requires AllSymbols(text)
    ensures B64Decode(text).None? <==> |text| % 4 == 1
  {
    var start, padding := Quad(0, 0, 0, []), Padding(|text|);
    var q := TakeAll(text, start);
    DecodeAll(text, padding, start);
    TakenPosition(text, start);
    if q.position == 1 {
      LoneSymbol(padding, q);
    } else if q.position >= 2 {
      PaddedOut(q, padding);
    }
  }

  /** The padding that completes a quad ends the text. */
  lemma PaddedOut(q: Quad, padding: string)
    requires ValidQuad(q) && q.position >= 2 && q.pads == 0
    requires padding == if q.position == 2 then "==" else "="
    ensures Decode(padding, q) == Some(q.out)
  {
    if q.position == 2 {
      assert padding[1..] == "=";
      assert Decode("=", q.(pads := 1)) == Some(q.out);
    }
  }

  lemma DecodeShort(data: seq<Byte>, out: seq<Byte>)
    requires |data| < 3
    ensures Decode(Padded(data), Quad(0, 0, 0, out)) == Some(out + data)
  {
    if |data| == 1 {
      assert data == [data[0]];
      DecodeOne(data[0], out);
    } else if |data| == 2 {
      assert data == [data[0], data[1]];
      DecodePair(data[0], data[1], out);
    } else {
      assert out + data == out;
    }
  }

  /** The encoding with the padding it was stripped of. */
  function Padded(data: seq<Byte>): string {
    B64Encode(data) + Padding(|B64Encode(data)|)
  }

  lemma PaddedFour(data: seq<Byte>)
    requires |data| > 2
    ensures Padded(data) == Four(data[0], data[1], data[2]) + Padded(data[3..])
  {
  }

  lemma {:induction false} DecodeEncoded(data: seq<Byte>, out: seq<Byte>)
    ensures Decode(Padded(data), Quad(0, 0, 0, out)) == Some(out + data)
  {
    if |data| < 3 {
      DecodeShort(data, out);
    } else {
      var first, rest := data[..3], data[3..];
      PaddedFour(data);
      DecodeFour(data[0], data[1], data[2], Padded(rest), out);
      DecodeEncoded(rest, out + first);
      assert first == [data[0], data[1], data[2]];
      assert out + data == out + first + rest;
    }
  }

  /** Every symbol is ASCII, and none is the dot a signing input is joined with. */
  lemma {:induction false} EncodedAscii(data: seq<Byte>)
    ensures Ascii(B64Encode(data)) && '.' !in B64Encode(data)
  {
    SymbolsBack();
    if |data| > 2 {
      EncodedAscii(data[3..]);
    }
  }

  lemma SymbolsBack()
    ensures forall v: nat | v < 64 :: Symbol(v) != '.' && Symbol(v) as int < 0x80
  {
  }

  /** Decoding inverts encoding for every byte string. */
  lemma B64RoundTrip(data: seq<Byte>)
    ensures B64Decode(B64Encode(data)) == Some(data)
  {
    EncodedAscii(data);
    DecodeEncoded(data, []);
    assert [] + data == data;
  }
}
