/** The exact bytes: what canonical JSON, base64url, UTF-8 and a signing input look like, not only
    that they can be read back. */
module WireForms {
  import opened Values
  import opened Utf16
  import opened CanonicalJson
  import opened Bytes
  import opened Signing

  // --------------------------------------------------------- canonical JSON

  /** No text is a shorter way to write a character than its escape. */
  lemma {:induction false} ShortestEscape(c: char, s: string, rest: string)
    requires s != "" && s[0] != '"' && ParseChar(s + rest) == Got(c, rest)
    ensures |Escape(c)| <= |s|
  {
    var t := s + rest;
    assert |t| == |s| + |rest|;
    assert |ParseChar(t).rest| == |rest|;
  }

  /** The escapes of section 3.2.2.2 of RFC 8785. */
  lemma EscapesAre(c: char)
    ensures c as int == 0x08 ==> Escape(c) == "\\b"
    ensures c as int == 0x09 ==> Escape(c) == "\\t"
    ensures c as int == 0x0A ==> Escape(c) == "\\n"
    ensures c as int == 0x0C ==> Escape(c) == "\\f"
    ensures c as int == 0x0D ==> Escape(c) == "\\r"
    ensures c == '"' ==> Escape(c) == "\\\""
    ensures c == '\\' ==> Escape(c) == "\\\\"
    ensures c as int < 0x20 && c as int !in {0x08, 0x09, 0x0A, 0x0C, 0x0D} ==>
              |Escape(c)| == 6 && Escape(c)[..4] == "\\u00"
              && Escape(c)[4] == "0123456789abcdef"[c as int / 16] && Escape(c)[5] == "0123456789abcdef"[c as int % 16]
    ensures c as int >= 0x20 && c != '"' && c != '\\' ==> Escape(c) == [c]
  {
  }

  /** A string is its characters' escapes between quotes. */
  lemma {:induction false} QuotedIs(s: string, c: char)
    ensures Quoted("") == "\"\""
    ensures Quoted(s) == "\"" + Escaped(s) + "\""
    ensures Escaped([c] + s) == Escape(c) + Escaped(s)
  {
    assert ([c] + s)[1..] == s;
  }

  lemma ScalarsAre()
    ensures Canonical(Null) == "null"
    ensures Canonical(Bool(true)) == "true" && Canonical(Bool(false)) == "false"
    ensures Canonical(Int(0)) == "0"
  {
  }

  /** Numbers have no leading zero, and a sign only when they are negative. */
  lemma {:induction false} NumbersAre(n: int)
    ensures n < 0 ==> Canonical(Int(n)) == "-" + Canonical(Int(-n))
    ensures n > 0 ==> '1' <= Canonical(Int(n))[0] <= '9'
    ensures n >= 0 ==> forall i :: 0 <= i < |Canonical(Int(n))| ==> '0' <= Canonical(Int(n))[i] <= '9'
    decreases if n < 0 then 1 - n else n
  {
    if n < 0 {
      NumbersAre(-n);
    } else if n >= 10 {
      NumbersAre(n / 10);
    }
  }

  /** Texts with a comma between each two. */
  function WithCommas(texts: seq<string>): string {
    if texts == [] then "" else if |texts| == 1 then texts[0] else WithCommas(Init(texts)) + "," + Last(texts)
  }

  lemma {:induction false} CommasCons(first: string, texts: seq<string>)
    requires texts != []
    ensures WithCommas([first] + texts) == first + ("," + WithCommas(texts))
  {
    var all := [first] + texts;
    assert Init(all) == [first] + Init(texts) && Last(all) == Last(texts);
    if |texts| > 1 {
      CommasCons(first, Init(texts));
      Reassociated(first + ",", WithCommas(Init(texts)), "," + Last(texts));
    } else {
      assert [first] + Init(texts) == [first];
    }
  }

  lemma Reassociated(a: string, b: string, c: string)
    ensures a + (b + c) == (a + b) + c
  {
  }

  function ItemTexts(items: seq<Json>): seq<string> {
    seq(|items|, i requires 0 <= i < |items| => Canonical(items[i]))
  }

  function MemberTexts(fields: Dict, keys: seq<string>): seq<string>
    requires forall k | k in keys :: k in fields
  {
    seq(|keys|, i requires 0 <= i < |keys| => Quoted(keys[i]) + ":" + Canonical(fields[keys[i]]))
  }

  lemma {:induction false} ItemsAre(v: Json, i: nat)
    requires v.List? && i <= |v.items|
    ensures Items(v, i) == WithCommas(ItemTexts(v.items)[i..]) + "]"
    decreases |v.items| - i
  {
    var texts := ItemTexts(v.items);
    if i < |v.items| {
      ItemsAre(v, i + 1);
      assert texts[i..] == [texts[i]] + texts[i + 1..];
      if i + 1 < |v.items| {
        CommasCons(texts[i], texts[i + 1..]);
        Reassociated(texts[i] + ",", WithCommas(texts[i + 1..]), "]");
      } else {
        assert texts[i..] == [texts[i]];
      }
    }
  }

  /** A list is its items in order, commas between them, in brackets. */
  lemma {:induction false} ListPrinted(v: Json)
    requires v.List?
    ensures Canonical(v) == "[" + (WithCommas(ItemTexts(v.items)) + "]")
  {
    ItemsAre(v, 0);
    assert ItemTexts(v.items)[0..] == ItemTexts(v.items);
  }

  lemma {:induction false} MembersAre(v: Json, keys: seq<string>)
    requires v.Object? && forall k | k in keys :: k in v.fields
    ensures Members(v, keys) == WithCommas(MemberTexts(v.fields, keys)) + "}"
  {
    if keys != [] {
      MembersAre(v, keys[1..]);
      var first, others := Quoted(keys[0]) + ":" + Canonical(v.fields[keys[0]]), MemberTexts(v.fields, keys[1..]);
      assert MemberTexts(v.fields, keys) == [first] + others;
      if others != [] {
        CommasClosed(first, others, "}");
      }
    }
  }

  lemma {:induction false} CommasClosed(first: string, texts: seq<string>, close: string)
    requires texts != []
    ensures WithCommas([first] + texts) + close == first + ("," + (WithCommas(texts) + close))
  {
    CommasCons(first, texts);
    Reassociated(first + ",", WithCommas(texts), close);
  }

  /** An object is every member once, in the order of its keys' code units, commas between them,
      in braces; and that is the only such order. */
  lemma {:induction false} ObjectPrintedInOrder(v: Json)
    requires v.Object?
    ensures exists keys :: && KeysInOrder(v.fields, keys)
                           && Canonical(v) == "{" + (WithCommas(MemberTexts(v.fields, keys)) + "}")
    ensures forall a, b :: KeysInOrder(v.fields, a) && KeysInOrder(v.fields, b) ==> a == b
  {
    var keys := SortedKeys(v.fields.Keys);
    SortedKeysSorts(v.fields.Keys);
    MembersAre(v, keys);
    assert forall k :: k in keys ==> k in AsSet(keys);
    assert KeysInOrder(v.fields, keys);
    forall a, b | KeysInOrder(v.fields, a) && KeysInOrder(v.fields, b) ensures a == b {
      OneOrder(a, b);
    }
  }

  ghost predicate KeysInOrder(fields: Dict, keys: seq<string>)
    ensures KeysInOrder(fields, keys) ==> forall k | k in keys :: k in fields
  {
    assert forall k :: k in keys ==> k in AsSet(keys);
    Increasing(keys) && AsSet(keys) == fields.Keys
  }

  /** A key comes before another when it is the front of it, or its first unit that differs is
      the smaller one. */
  lemma {:induction false} BeforeMeans(a: string, b: string)
    ensures Before(a, b) <==> Smaller(Units(a), Units(b))
  {
    LessMeans(Units(a), Units(b));
  }

  ghost predicate Smaller(a: seq<nat>, b: seq<nat>) {
    exists i: nat :: FirstSmaller(a, b, i)
  }

  predicate FirstSmaller(a: seq<nat>, b: seq<nat>, i: nat) {
    i <= |a| && i < |b| && a[..i] == b[..i] && (i == |a| || a[i] < b[i])
  }

  lemma {:induction false} LessMeans(a: seq<nat>, b: seq<nat>)
    ensures Less(a, b) <==> Smaller(a, b)
  {
    if Less(a, b) {
      if a == [] || a[0] < b[0] {
        assert FirstSmaller(a, b, 0);
      } else {
        LessMeans(a[1..], b[1..]);
        var i: nat :| FirstSmaller(a[1..], b[1..], i);
        assert a[..i + 1] == [a[0]] + a[1..][..i] && b[..i + 1] == [b[0]] + b[1..][..i];
        assert FirstSmaller(a, b, i + 1);
      }
    }
    if i: nat :| FirstSmaller(a, b, i) {
      if i > 0 {
        assert a[0] == a[..i][0] == b[..i][0] == b[0];
        assert a[1..][..i - 1] == a[..i][1..] && b[1..][..i - 1] == b[..i][1..];
        assert FirstSmaller(a[1..], b[1..], i - 1);
        LessMeans(a[1..], b[1..]);
      }
    }
  }

  /** UTF-16 (section 2.1 of RFC 2781): one unit in the basic plane, a surrogate pair beyond. */
  lemma UnitsAre(c: char)
    ensures c as int < 0x1_0000 ==> UnitsOf(c) == [c as int]
    ensures c as int >= 0x1_0000 ==>
              && |UnitsOf(c)| == 2 && 0xD800 <= UnitsOf(c)[0] < 0xDC00 && 0xDC00 <= UnitsOf(c)[1] < 0xE000
              && c as int == 0x1_0000 + (UnitsOf(c)[0] - 0xD800) * 0x400 + (UnitsOf(c)[1] - 0xDC00)
  {
  }

  // ------------------------------------------------------------------ bytes

  /** The alphabet of section 5 of RFC 4648: the capitals, the small letters and the digits, each
      in order, then the hyphen and the underscore. */
  lemma SymbolsAre()
    ensures Symbol(0) == 'A' && Symbol(25) == 'Z' && Symbol(26) == 'a' && Symbol(51) == 'z'
    ensures Symbol(52) == '0' && Symbol(61) == '9' && Symbol(62) == '-' && Symbol(63) == '_'
    ensures forall v: nat :: v < 61 && v !in {25, 51} ==> Symbol(v + 1) as int == Symbol(v) as int + 1
  {
  }

  /** Base64url takes 24 bits as four symbols; what is left over is filled up with zero bits. */
  lemma {:induction false} GroupsAre(a: Byte, b: Byte, c: Byte, rest: seq<Byte>)
    ensures B64Encode([]) == ""
    ensures B64Encode([a]) == Symbols(a * 16, 2)
    ensures B64Encode([a, b]) == Symbols((a * 256 + b) * 4, 3)
    ensures B64Encode([a, b, c] + rest) == Symbols(a * 65536 + b * 256 + c, 4) + B64Encode(rest)
  {
    assert ([a, b, c] + rest)[3..] == rest;
    OneByte(a);
    TwoBytes(a, b);
    ThreeBytes(a, b, c);
  }

  /** The `n` base-64 digits of a number, as symbols. */
  function Symbols(v: nat, n: nat): string {
    if n == 0 then "" else Symbols(v / 64, n - 1) + [Symbol(v % 64)]
  }

  lemma {:induction false} OneByte(a: Byte)
    ensures B64Encode([a]) == Symbols(a * 16, 2)
  {
    assert a * 16 / 64 == a / 4 && a * 16 % 64 == a % 4 * 16 && a / 4 / 64 == 0;
    assert Symbols(a * 16, 2) == Symbols(a / 4, 1) + [Symbol(a % 4 * 16)];
    assert Symbols(a / 4, 1) == "" + [Symbol(a / 4)];
  }

  lemma {:induction false} TwoBytes(a: Byte, b: Byte)
    ensures B64Encode([a, b]) == Symbols((a * 256 + b) * 4, 3)
  {
    var n := (a * 256 + b) * 4;
    assert n % 64 == b % 16 * 4 && n / 64 == a * 16 + b / 16;
    assert (a * 16 + b / 16) % 64 == a % 4 * 16 + b / 16 && (a * 16 + b / 16) / 64 == a / 4;
    assert Symbols(n, 3) == Symbols(n / 64, 2) + [Symbol(b % 16 * 4)];
    assert Symbols(n / 64, 2) == Symbols(a / 4, 1) + [Symbol(a % 4 * 16 + b / 16)];
    assert Symbols(a / 4, 1) == "" + [Symbol(a / 4)];
  }

  lemma {:induction false} ThreeBytes(a: Byte, b: Byte, c: Byte)
    ensures Four(a, b, c) == Symbols(a * 65536 + b * 256 + c, 4)
  {
    FourDigits(a / 4, a % 4 * 16 + b / 16, b % 16 * 4 + c / 64, c % 64);
  }

  lemma {:induction false} FourDigits(d: nat, e: nat, f: nat, g: nat)
    requires d < 64 && e < 64 && f < 64 && g < 64
    ensures Symbols(((d * 64 + e) * 64 + f) * 64 + g, 4) == [Symbol(d), Symbol(e), Symbol(f), Symbol(g)]
  {
    SymbolsStep(((d * 64 + e) * 64 + f) * 64 + g, 3, (d * 64 + e) * 64 + f, g);
    SymbolsStep((d * 64 + e) * 64 + f, 2, d * 64 + e, f);
    SymbolsStep(d * 64 + e, 1, d, e);
    SymbolsStep(d, 0, 0, d);
  }

  lemma {:induction false} SymbolsStep(v: nat, n: nat, high: nat, low: nat)
    requires v == high * 64 + low && low < 64
    ensures Symbols(v, n + 1) == Symbols(high, n) + [Symbol(low)]
  {
    assert v / 64 == high;
  }

  /** The decoder also takes the standard alphabet's last two symbols, and passes over what is in
      neither alphabet. */
  lemma {:induction false} DecoderIs(c: char, rest: string, q: Quad)
    requires ValidQuad(q)
    ensures ValueOf('+') == ValueOf('-') == Some(62) && ValueOf('/') == ValueOf('_') == Some(63)
    ensures ValueOf(c) == None && c != '=' ==> Decode([c] + rest, q) == Decode(rest, q)
    ensures !Ascii(rest) ==> B64Decode(rest) == None
  {
    assert ([c] + rest)[1..] == rest;
  }

  /** UTF-8 (section 3 of RFC 3629): as many bytes as the first one announces, the others
      continuing it, six bits each. */
  lemma {:induction false} CharactersAre(c: char)
    ensures var n, b := c as int, EncodeChar(c);
            && |b| == (if n < 0x80 then 1 else if n < 0x800 then 2 else if n < 0x1_0000 then 3 else 4)
            && n == Lead(b[0], |b|) * Power64(|b| - 1) + Rest(b[1..])
            && forall i :: 0 < i < |b| ==> 0x80 <= b[i] < 0xC0
  {
    var n, b := c as int, EncodeChar(c);
    Quarters(n);
    assert Power64(1) == 64 && Power64(2) == 4096 && Power64(3) == 262144;
    if |b| == 2 {
      assert b[1..] == [b[1]];
      assert Rest([b[1]]) == b[1] as int - 0x80;
    } else if |b| == 3 {
      assert b[1..] == [b[1], b[2]] && [b[1], b[2]][..1] == [b[1]];
      assert Rest([b[1]]) == b[1] as int - 0x80;
      assert Rest([b[1], b[2]]) == (b[1] as int - 0x80) * 64 + (b[2] as int - 0x80);
    } else if |b| == 4 {
      assert b[1..] == [b[1], b[2], b[3]] && [b[1], b[2], b[3]][..2] == [b[1], b[2]] && [b[1], b[2]][..1] == [b[1]];
      assert Rest([b[1]]) == b[1] as int - 0x80;
      assert Rest([b[1], b[2]]) == (b[1] as int - 0x80) * 64 + (b[2] as int - 0x80);
    }
  }

  /** The bits a first byte carries behind its marker. */
  function Lead(b: int, length: nat): int {
    if length == 1 then b else if length == 2 then b - 0xC0 else if length == 3 then b - 0xE0 else b - 0xF0
  }

  function Power64(n: nat): nat {
    if n == 0 then 1 else 64 * Power64(n - 1)
  }

  /** The bits continuing bytes carry, six each. */
  function Rest(bytes: seq<Byte>): int {
    if bytes == [] then 0 else Rest(bytes[..|bytes| - 1]) * 64 + (bytes[|bytes| - 1] as int - 0x80)
  }

  // ---------------------------------------------------------------- signing

  /** A signing input (section 5.1 of RFC 7515) is the protected header, a dot, and the payload in
      base64url, byte for byte. */
  lemma {:induction false} SigningInputIs(protected: string, payload: seq<Byte>)
    requires Ascii(protected)
    ensures var data, encoded := SigningInput(protected, payload), B64Encode(payload);
            && |data| == |protected| + 1 + |encoded|
            && (forall i :: 0 <= i < |protected| ==> data[i] == protected[i] as int)
            && data[|protected|] == 0x2E
            && forall i :: 0 <= i < |encoded| ==> data[|protected| + 1 + i] == encoded[i] as int
  {
    var encoded := B64Encode(payload);
    EncodedAscii(payload);
    assert forall i :: 0 <= i < |protected + ("." + encoded)| ==> (protected + ("." + encoded))[i] as int < 0x80;
    AsciiBytes(protected + ("." + encoded));
  }

  lemma {:induction false} AsciiBytes(s: string)
    requires Ascii(s)
    ensures |Encode(s)| == |s| && forall i :: 0 <= i < |s| ==> Encode(s)[i] == s[i] as int
  {
    if s != "" {
      assert s[0] as int < 0x80;
      AsciiBytes(s[1..]);
      assert Encode(s) == [s[0] as int] + Encode(s[1..]);
    }
  }

  /** What a protected header holds, and that it is those members in canonical JSON. */
  lemma {:induction false} ProtectedIs(r: Request)
    ensures B64Decode(Protected(r)) == Some(Encode(Canonical(Object(Header(r)))))
    ensures Header(r).Keys == {"alg", "typ", "kid"} + (if r.jku.Some? then {"jku"} else {})
    ensures Header(r)["alg"] == Text(r.signer.alg) && Header(r)["typ"] == Text("JOSE")
    ensures Header(r)["kid"] == Text(r.signer.kid)
    ensures r.jku.Some? ==> Header(r)["jku"] == Text(r.jku.value)
  {
    B64RoundTrip(Encode(Canonical(Object(Header(r)))));
  }

  /** The entry a signing adds behind the others: the header, the signer's own signature over the
      signing input, and the unprotected header, null when there is none. Nothing signs with a
      signature of no bytes. */
  lemma {:induction false} EntryIs(card: Card, r: Request)
    ensures Ascii(Protected(r))
    ensures var signature := r.signer.sign(SigningInput(Protected(r), CardPayload(card)));
            && (SignCard(card, r).Some? <==> signature != [])
            && (signature != [] ==>
                  var signed := SignCard(card, r).value;
                  && signed.fields == card.fields && signed.signaturesSet && signed.signatures != []
                  && Init(signed.signatures) == card.signatures
                  && Last(signed.signatures).protected == Protected(r)
                  && B64Decode(Last(signed.signatures).signature) == Some(signature)
                  && Last(signed.signatures).header
                     == Some(if r.unprotected == map[] then Null else Object(r.unprotected)))
  {
    EncodedAscii(Encode(Canonical(Object(Header(r)))));
    B64RoundTrip(r.signer.sign(SigningInput(Protected(r), CardPayload(card))));
  }

  /** The wire form of a signature, and that the payload is the card without any of them. */
  lemma {:induction false} WireIs(card: Card, s: Signature)
    ensures var wire := WireSignature(s);
            && wire.Object?
            && wire.fields.Keys == {"protected", "signature"} + (if s.header.Some? then {"header"} else {})
            && wire.fields["protected"] == Text(s.protected) && wire.fields["signature"] == Text(s.signature)
            && (s.header.Some? ==> wire.fields["header"] == s.header.value)
    ensures CardPayload(card) == Encode(Canonical(Object(card.fields - {"signatures"})))
    ensures card.signatures == [] && !card.signaturesSet ==> WireDict(card) == card.fields
    ensures card.signatures != [] || card.signaturesSet ==>
              && WireDict(card).Keys == card.fields.Keys + {"signatures"} && WireDict(card)["signatures"].List?
              && var entries := WireDict(card)["signatures"].items;
                 && |entries| == |card.signatures|
                 && forall i :: 0 <= i < |entries| ==> entries[i] == WireSignature(card.signatures[i])
  {
    DocumentIgnoresSignatures(card);
  }

  /** What an entry's header names: an object under base64url, a key id that is a text, a verifier
      held under it, and that verifier's own algorithm. */
  ghost predicate NamesKey(entry: Signature, verifiers: Verifiers, loads: Loads, kid: string) {
    && B64Decode(entry.protected).Some?
    && loads(B64Decode(entry.protected).value).Some? && loads(B64Decode(entry.protected).value).value.Object?
    && var header := loads(B64Decode(entry.protected).value).value.fields;
       "kid" in header && header["kid"] == Text(kid)
  }

  ghost predicate AlgMatches(entry: Signature, verifiers: Verifiers, loads: Loads, kid: string)
    requires NamesKey(entry, verifiers, loads, kid) && kid in verifiers
  {
    var header := loads(B64Decode(entry.protected).value).value.fields;
    "alg" in header && header["alg"] == Text(verifiers[kid].alg)
  }

  /** An entry passes exactly when it names a key that is held, under that key's algorithm, and
      the key accepts the decoded signature over this payload. It is passed over exactly when it
      names a key that is not held. */
  lemma {:induction false} JudgedMeans(
      entry: Signature, payload: seq<Byte>, verifiers: Verifiers, loads: Loads, kid: string)
    ensures Judged(entry, payload, verifiers, loads) == Passed(kid) <==>
              && NamesKey(entry, verifiers, loads, kid) && kid in verifiers && AlgMatches(entry, verifiers, loads, kid)
              && B64Decode(entry.signature).Some? && Ascii(entry.protected)
              && verifiers[kid].verify(SigningInput(entry.protected, payload), B64Decode(entry.signature).value)
    ensures NamesKey(entry, verifiers, loads, kid) ==>
              (Judged(entry, payload, verifiers, loads).Skipped? <==> kid !in verifiers)
    ensures Judged(entry, payload, verifiers, loads).Skipped? ==>
              exists other :: NamesKey(entry, verifiers, loads, other) && other !in verifiers
  {
    if Judged(entry, payload, verifiers, loads).Skipped? {
      var header := ProtectedHeader(entry, loads).value;
      assert NamesKey(entry, verifiers, loads, header["kid"].s);
    }
  }

  /** Why an entry fails: its header, its key id, its algorithm, its encoding, or its signature, in
      that order. */
  lemma {:induction false} FailingMeans(
      entry: Signature, payload: seq<Byte>, verifiers: Verifiers, loads: Loads, kid: string)
    ensures Judged(entry, payload, verifiers, loads) == Failing(BadHeader) <==> ProtectedHeader(entry, loads).None?
    ensures Judged(entry, payload, verifiers, loads) == Failing(NoKid) <==>
              && ProtectedHeader(entry, loads).Some?
              && forall other :: !NamesKey(entry, verifiers, loads, other)
    ensures NamesKey(entry, verifiers, loads, kid) && kid in verifiers ==>
              && (Judged(entry, payload, verifiers, loads) == Failing(WrongAlg)
                  <==> !AlgMatches(entry, verifiers, loads, kid))
              && (Judged(entry, payload, verifiers, loads) == Failing(Undecodable)
                  <==> AlgMatches(entry, verifiers, loads, kid) && B64Decode(entry.signature).None?)
              && (Judged(entry, payload, verifiers, loads) == Failing(Mismatch) <==>
                    && AlgMatches(entry, verifiers, loads, kid) && B64Decode(entry.signature).Some?
                    && Ascii(entry.protected)
                    && !verifiers[kid].verify(SigningInput(entry.protected, payload), B64Decode(entry.signature).value))
  {
    var header := ProtectedHeader(entry, loads);
    if header.Some? && "kid" in header.value && header.value["kid"].Text? {
      assert NamesKey(entry, verifiers, loads, header.value["kid"].s);
    }
  }

  /** A card is refused for the first entry that fails, and for its reason. */
  lemma {:induction false} FirstFails(verdicts: seq<EntryVerdict>, i: nat, requireAll: bool)
    requires i < |verdicts| && verdicts[i].Failing? && forall j :: 0 <= j < i ==> !verdicts[j].Failing?
    ensures FirstFailure(verdicts) == Some(verdicts[i].why)
    ensures VerdictOf(verdicts, requireAll) == Refused(verdicts[i].why)
    decreases i
  {
    if i > 0 {
      assert verdicts[1..][i - 1] == verdicts[i];
      FirstFails(verdicts[1..], i - 1, requireAll);
    }
  }

  /** Without a failing entry a card is refused for having none, none under a known key, or not
      all of them so. */
  lemma {:induction false} NoneFails(verdicts: seq<EntryVerdict>, requireAll: bool)
    requires forall j :: 0 <= j < |verdicts| ==> !verdicts[j].Failing?
    ensures verdicts == [] ==> VerdictOf(verdicts, requireAll) == Refused(NoSignatures)
    ensures verdicts != [] && (forall j :: 0 <= j < |verdicts| ==> verdicts[j].Skipped?) ==>
              VerdictOf(verdicts, requireAll) == Refused(NoneKnown)
    ensures requireAll && (exists j :: 0 <= j < |verdicts| && verdicts[j].Skipped?)
            && (exists j :: 0 <= j < |verdicts| && verdicts[j].Passed?) ==>
              VerdictOf(verdicts, requireAll) == Refused(NotAll)
  {
    NoFailure(verdicts);
    PassedKidsCount(verdicts);
  }
}
