/** Signed agent cards: the bytes a signature covers, signing, and the loop that verifies. */
module Signing {
  import opened Values
  import opened Bytes
  import opened CanonicalJson

  /** The unprotected header is None when it was never set; one set to nothing is written as null. */
  datatype Signature = Signature(protected: string, signature: string, header: Option<Json>)

  /** A card on the wire: its fields other than the signatures, the signatures, and whether the
      signatures were ever set (an empty list never set is not written). */
  datatype Card = Card(fields: Dict, signatures: seq<Signature>, signaturesSet: bool)

  datatype Signer = Signer(alg: string, kid: string, sign: seq<Byte> -> seq<Byte>)

  datatype Verifier = Verifier(alg: string, verify: (seq<Byte>, seq<Byte>) -> bool)

  type Verifiers = map<string, Verifier>

  /** `json.loads` on bytes. */
  type Loads = seq<Byte> -> Option<Json>

  function WireSignature(s: Signature): Json {
    var required: Dict := map["protected" := Text(s.protected), "signature" := Text(s.signature)];
    Object(if s.header.Some? then required["header" := s.header.value] else required)
  }

  function WireDict(card: Card): Dict {
    if card.signatures == [] && !card.signaturesSet then card.fields
    else
      var entries := seq(|card.signatures|, i requires 0 <= i < |card.signatures| =>
        WireSignature(card.signatures[i]));
      card.fields["signatures" := List(entries)]
  }

  function Document(card: Card): Json {
    Object(WireDict(card) - {"signatures"})
  }

  /** `card_payload` */
  function CardPayload(card: Card): seq<Byte> {
    Encode(Canonical(Document(card)))
  }

  /** `signing_input` */
  function SigningInput(protected: string, payload: seq<Byte>): seq<Byte>
    requires Ascii(protected)
  {
    Encode(protected + ("." + B64Encode(payload)))
  }

  // ---------------------------------------------------------------- signing

  /** One call of `sign_card`: the signer, and the optional headers. */
  datatype Request = Request(signer: Signer, jku: Option<string>, unprotected: Dict)

  function Header(r: Request): Dict {
    var header: Dict := map["alg" := Text(r.signer.alg), "typ" := Text("JOSE"), "kid" := Text(r.signer.kid)];
    if r.jku.Some? then header["jku" := Text(r.jku.value)] else header
  }

  function Protected(r: Request): string {
    B64Encode(Encode(Canonical(Object(Header(r)))))
  }

  /** `sign_card`; a signature of no bytes is refused where the entry is built. */
  function SignCard(card: Card, r: Request): Option<Card> {
    EncodedAscii(Encode(Canonical(Object(Header(r)))));
    var signature := r.signer.sign(SigningInput(Protected(r), CardPayload(card)));
    if signature == [] then None
    else
      var entry := Signature(
        Protected(r), B64Encode(signature), Some(if r.unprotected == map[] then Null else Object(r.unprotected)));
      Some(card.(signatures := card.signatures + [entry], signaturesSet := true))
  }

  /** One signature after another. */
  function SignAll(card: Card, requests: seq<Request>): Option<Card> {
    if requests == [] then Some(card)
    else
      var before := SignAll(card, Init(requests));
      if before.None? then None else SignCard(before.value, Last(requests))
  }

  function Kids(requests: seq<Request>): seq<string> {
    if requests == [] then [] else Kids(Init(requests)) + [Last(requests).signer.kid]
  }

  // -------------------------------------------------------------- verifying

  datatype Refusal =
    | NoSignatures | BadHeader | NoKid | WrongAlg | Undecodable | Mismatch | NoneKnown | NotAll

  datatype Verdict = Verified(kids: seq<string>) | Refused(why: Refusal)

  datatype EntryVerdict = Passed(kid: string) | Skipped | Failing(why: Refusal)

  /** `_protected_header` */
  function ProtectedHeader(entry: Signature, loads: Loads): (h: Option<Dict>)
    ensures h.Some? ==> Ascii(entry.protected)
  {
    var decoded := B64Decode(entry.protected);
    if decoded.None? then None
    else
      var value := loads(decoded.value);
      if value.Some? && value.value.Object? then Some(value.value.fields) else None
  }

  /** What one signature entry comes to. */
  function Judged(entry: Signature, payload: seq<Byte>, verifiers: Verifiers, loads: Loads): EntryVerdict {
    var header := ProtectedHeader(entry, loads);
    if header.None? then Failing(BadHeader)
    else if "kid" !in header.value || !header.value["kid"].Text? then Failing(NoKid)
    else
      var kid := header.value["kid"].s;
      if kid !in verifiers then Skipped
      else if "alg" !in header.value || header.value["alg"] != Text(verifiers[kid].alg) then Failing(WrongAlg)
      else
        var signature := B64Decode(entry.signature);
        if signature.None? then Failing(Undecodable)
        else if verifiers[kid].verify(SigningInput(entry.protected, payload), signature.value) then Passed(kid)
        else Failing(Mismatch)
  }

  function JudgedAll(entries: seq<Signature>, payload: seq<Byte>, verifiers: Verifiers, loads: Loads)
    : (r: seq<EntryVerdict>)
    ensures |r| == |entries|
    ensures forall i :: 0 <= i < |r| ==> r[i] == Judged(entries[i], payload, verifiers, loads)
  {
    if entries == [] then []
    else
      JudgedAll(Init(entries), payload, verifiers, loads) + [Judged(Last(entries), payload, verifiers, loads)]
  }

  function PassedKids(verdicts: seq<EntryVerdict>): seq<string> {
    if verdicts == [] then []
    else
      PassedKids(Init(verdicts)) + (if Last(verdicts).Passed? then [Last(verdicts).kid] else [])
  }

  function FirstFailure(verdicts: seq<EntryVerdict>): Option<Refusal> {
    if verdicts == [] then None
    else if verdicts[0].Failing? then Some(verdicts[0].why)
    else FirstFailure(verdicts[1..])
  }

  /** What a card comes to: the first failing entry decides; then an entry must have passed,
      and every one of them if all are required. */
  function VerdictOf(verdicts: seq<EntryVerdict>, requireAll: bool): Verdict {
    if verdicts == [] then Refused(NoSignatures)
    else if FirstFailure(verdicts).Some? then Refused(FirstFailure(verdicts).value)
    else if PassedKids(verdicts) == [] then Refused(NoneKnown)
    else if requireAll && |PassedKids(verdicts)| != |verdicts| then Refused(NotAll)
    else Verified(PassedKids(verdicts))
  }

  /** `verify_card` */
  method VerifyCard(card: Card, verifiers: Verifiers, requireAll: bool, loads: Loads) returns (r: Verdict)
    ensures r == VerdictOf(JudgedAll(card.signatures, CardPayload(card), verifiers, loads), requireAll)
  {
    if card.signatures == [] {
      return Refused(NoSignatures);
    }
    var failure, verified := VerifyEntries(card.signatures, CardPayload(card), verifiers, loads);
    if failure.Some? {
      return Refused(failure.value);
    }
    if verified == [] {
      return Refused(NoneKnown);
    }
    if requireAll && |verified| != |card.signatures| {
      return Refused(NotAll);
    }
    return Verified(verified);
  }

  /** Its loop: up to the first entry that fails, the kids that passed. */
  method VerifyEntries(entries: seq<Signature>, payload: seq<Byte>, verifiers: Verifiers, loads: Loads)
    returns (failure: Option<Refusal>, verified: seq<string>)
    ensures failure == FirstFailure(JudgedAll(entries, payload, verifiers, loads))
    ensures failure.None? ==> verified == PassedKids(JudgedAll(entries, payload, verifiers, loads))
  {
    ghost var verdicts := JudgedAll(entries, payload, verifiers, loads);
    verified := [];
    var i := 0;
    while i < |entries|
      invariant 0 <= i <= |entries|
      invariant verified == PassedKids(verdicts[..i])
      invariant FirstFailure(verdicts) == FirstFailure(verdicts[i..])
    {
      var verdict := Judged(entries[i], payload, verifiers, loads);
      PassedKidsNext(verdicts, i);
      FirstFailureNext(verdicts, i);
      if verdict.Failing? {
        return Some(verdict.why), verified;
      }
      if verdict.Passed? {
        verified := verified + [verdict.kid];
      }
      i := i + 1;
    }
    assert verdicts[..i] == verdicts;
    return None, verified;
  }

  lemma FirstFailureNext(verdicts: seq<EntryVerdict>, i: nat)
    requires i < |verdicts|
    ensures FirstFailure(verdicts[i..])
            == if verdicts[i].Failing? then Some(verdicts[i].why) else FirstFailure(verdicts[i + 1..])
  {
    assert verdicts[i..][1..] == verdicts[i + 1..];
  }

  /** A lone entry that fails decides. */
  lemma OneFailing(
      entry: Signature, payload: seq<Byte>, verifiers: Verifiers, loads: Loads, requireAll: bool, why: Refusal)
    requires Judged(entry, payload, verifiers, loads) == Failing(why)
    ensures VerdictOf(JudgedAll([entry], payload, verifiers, loads), requireAll) == Refused(why)
  {
    var verdicts := JudgedAll([entry], payload, verifiers, loads);
    assert verdicts[0] == Judged(entry, payload, verifiers, loads);
  }

  lemma {:induction false} NoFailure(verdicts: seq<EntryVerdict>)
    ensures FirstFailure(verdicts).None? <==> forall i :: 0 <= i < |verdicts| ==> !verdicts[i].Failing?
  {
    if verdicts != [] {
      NoFailure(verdicts[1..]);
      assert forall i :: 0 < i < |verdicts| ==> verdicts[i] == verdicts[1..][i - 1];
    }
  }

  lemma PassedKidsNext(verdicts: seq<EntryVerdict>, i: nat)
    requires i < |verdicts|
    ensures PassedKids(verdicts[..i + 1])
            == PassedKids(verdicts[..i]) + (if verdicts[i].Passed? then [verdicts[i].kid] else [])
  {
    assert Init(verdicts[..i + 1]) == verdicts[..i];
  }

  lemma {:induction false} PassedKidsCount(verdicts: seq<EntryVerdict>)
    ensures |PassedKids(verdicts)| <= |verdicts|
    ensures PassedKids(verdicts) != [] <==> exists i :: 0 <= i < |verdicts| && verdicts[i].Passed?
    ensures |PassedKids(verdicts)| == |verdicts| <==> forall i :: 0 <= i < |verdicts| ==> verdicts[i].Passed?
  {
    if verdicts != [] {
      var init := Init(verdicts);
      PassedKidsCount(init);
      assert forall i :: 0 <= i < |init| ==> init[i] == verdicts[i];
      if init != [] && exists i :: 0 <= i < |init| && init[i].Passed? {
        var i :| 0 <= i < |init| && init[i].Passed?;
        assert verdicts[i].Passed?;
      }
      if Last(verdicts).Passed? {
        assert verdicts[|verdicts| - 1].Passed?;
      }
    }
  }

  /** A card is accepted exactly when no entry fails, some entry passes, and, if all are
      required, every entry passes. */
  lemma AcceptedMeans(verdicts: seq<EntryVerdict>, requireAll: bool)
    ensures VerdictOf(verdicts, requireAll).Verified? <==>
              && (forall i :: 0 <= i < |verdicts| ==> !verdicts[i].Failing?)
              && (exists i :: 0 <= i < |verdicts| && verdicts[i].Passed?)
              && (requireAll ==> forall i :: 0 <= i < |verdicts| ==> verdicts[i].Passed?)
  {
    NoFailure(verdicts);
    PassedKidsCount(verdicts);
  }

  // ------------------------------------------------------- a chain verifies

  /** Signing never changes what the signatures cover. */
  lemma DocumentIgnoresSignatures(card: Card)
    ensures WireDict(card) - {"signatures"} == card.fields - {"signatures"}
  {
  }

  lemma {:induction false} PayloadKept(card: Card, requests: seq<Request>)
    requires SignAll(card, requests).Some?
    ensures CardPayload(SignAll(card, requests).value) == CardPayload(card)
    ensures SignAll(card, requests).value.fields == card.fields
  {
    DocumentIgnoresSignatures(card);
    DocumentIgnoresSignatures(SignAll(card, requests).value);
    if requests != [] {
      PayloadKept(card, Init(requests));
    }
  }

  /** The verifier held under the signer's kid is the other half of the signer. */
  ghost predicate Matches(signer: Signer, verifiers: Verifiers) {
    && signer.kid in verifiers
    && verifiers[signer.kid].alg == signer.alg
    && forall data :: verifiers[signer.kid].verify(data, signer.sign(data))
  }

  /** The JSON reader gives back what the canonical printer wrote. */
  ghost predicate ReadsCanonical(loads: Loads) {
    forall v: Json :: loads(Encode(Canonical(v))) == Some(v)
  }

  lemma HeaderBack(r: Request, signature: string, header: Option<Json>, loads: Loads)
    requires ReadsCanonical(loads)
    ensures ProtectedHeader(Signature(Protected(r), signature, header), loads) == Some(Header(r))
    ensures Ascii(Protected(r))
  {
    var bytes := Encode(Canonical(Object(Header(r))));
    B64RoundTrip(bytes);
    EncodedAscii(bytes);
    assert loads(bytes) == Some(Object(Header(r)));
  }

  /** An entry whose header checks out fails to decode exactly when its signature, of base64url
      symbols, leaves one symbol over. */
  lemma {:induction false} UndecodableExactly(
      r: Request, signature: string, header: Option<Json>, payload: seq<Byte>, verifiers: Verifiers, loads: Loads)
    requires ReadsCanonical(loads) && AllSymbols(signature)
    requires r.signer.kid in verifiers && verifiers[r.signer.kid].alg == r.signer.alg
    ensures Judged(Signature(Protected(r), signature, header), payload, verifiers, loads) == Failing(Undecodable)
            <==> |signature| % 4 == 1
  {
    HeaderBack(r, signature, header, loads);
    SymbolsDecode(signature);
    HeaderHolds(r);
  }

  lemma HeaderHolds(r: Request)
    ensures "kid" in Header(r) && Header(r)["kid"] == Text(r.signer.kid)
    ensures "alg" in Header(r) && Header(r)["alg"] == Text(r.signer.alg)
  {
  }

  lemma {:induction false} LoneUndecodable(
      r: Request, signature: string, payload: seq<Byte>, verifiers: Verifiers, requireAll: bool, loads: Loads)
    requires ReadsCanonical(loads) && AllSymbols(signature) && |signature| % 4 == 1
    requires r.signer.kid in verifiers && verifiers[r.signer.kid].alg == r.signer.alg
    ensures VerdictOf(JudgedAll([Signature(Protected(r), signature, None)], payload, verifiers, loads), requireAll)
            == Refused(Undecodable)
  {
    UndecodableExactly(r, signature, None, payload, verifiers, loads);
    OneFailing(Signature(Protected(r), signature, None), payload, verifiers, loads, requireAll, Undecodable);
  }

  /** The entry `sign_card` adds passes. */
  lemma EntryPasses(card: Card, r: Request, verifiers: Verifiers, loads: Loads)
    requires ReadsCanonical(loads) && Matches(r.signer, verifiers)
    requires SignCard(card, r).Some?
    ensures Judged(Last(SignCard(card, r).value.signatures), CardPayload(card), verifiers, loads)
            == Passed(r.signer.kid)
  {
    var entry := Last(SignCard(card, r).value.signatures);
    HeaderBack(r, entry.signature, entry.header, loads);
    var signature := r.signer.sign(SigningInput(Protected(r), CardPayload(card)));
    B64RoundTrip(signature);
    HeaderHolds(r);
  }

  /** Verdicts that all passed, under these kids in order. */
  ghost predicate AllPass(verdicts: seq<EntryVerdict>, kids: seq<string>) {
    && |verdicts| == |kids|
    && forall i :: 0 <= i < |verdicts| ==> verdicts[i] == Passed(kids[i])
  }

  lemma {:induction false} AllPassKids(verdicts: seq<EntryVerdict>, kids: seq<string>)
    requires AllPass(verdicts, kids)
    ensures PassedKids(verdicts) == kids
  {
    if verdicts != [] {
      AllPassKids(Init(verdicts), Init(kids));
      assert kids == Init(kids) + [Last(kids)];
    }
  }

  lemma JudgedSnoc(entries: seq<Signature>, e: Signature, payload: seq<Byte>, verifiers: Verifiers, loads: Loads)
    ensures JudgedAll(entries + [e], payload, verifiers, loads)
            == JudgedAll(entries, payload, verifiers, loads) + [Judged(e, payload, verifiers, loads)]
  {
    assert Init(entries + [e]) == entries;
  }

  lemma SignedBySnoc(card: Card, r: Request)
    requires SignCard(card, r).Some?
    ensures var after := SignCard(card, r).value;
            after.signatures != [] && after.signatures == card.signatures + [Last(after.signatures)]
  {
  }

  lemma {:induction false} ChainPasses(card: Card, requests: seq<Request>, verifiers: Verifiers, loads: Loads)
    requires ReadsCanonical(loads)
    requires forall i :: 0 <= i < |requests| ==> Matches(requests[i].signer, verifiers)
    requires card.signatures == [] && SignAll(card, requests).Some?
    ensures AllPass(JudgedAll(SignAll(card, requests).value.signatures, CardPayload(card), verifiers, loads),
                    Kids(requests))
  {
    if requests != [] {
      ChainPasses(card, Init(requests), verifiers, loads);
      PayloadKept(card, Init(requests));
      NextPasses(SignAll(card, Init(requests)).value, CardPayload(card), Last(requests), Kids(Init(requests)),
                 verifiers, loads);
    }
  }

  /** One more signature on a card all of whose entries pass. */
  lemma NextPasses(
      card: Card, payload: seq<Byte>, r: Request, kids: seq<string>, verifiers: Verifiers, loads: Loads)
    requires ReadsCanonical(loads) && Matches(r.signer, verifiers)
    requires SignCard(card, r).Some? && CardPayload(card) == payload
    requires AllPass(JudgedAll(card.signatures, payload, verifiers, loads), kids)
    ensures AllPass(JudgedAll(SignCard(card, r).value.signatures, payload, verifiers, loads), kids + [r.signer.kid])
  {
    EntryPasses(card, r, verifiers, loads);
    SignedBySnoc(card, r);
    JudgedSnoc(card.signatures, Last(SignCard(card, r).value.signatures), payload, verifiers, loads);
  }

  /** After any sequence of signatures the card verifies under the matching verifiers, all of
      them required, with every kid in signing order. */
  lemma ChainVerifies(card: Card, requests: seq<Request>, verifiers: Verifiers, loads: Loads, requireAll: bool)
    requires ReadsCanonical(loads)
    requires forall i :: 0 <= i < |requests| ==> Matches(requests[i].signer, verifiers)
    requires requests != [] && card.signatures == [] && SignAll(card, requests).Some?
    ensures var signed := SignAll(card, requests).value;
            VerdictOf(JudgedAll(signed.signatures, CardPayload(signed), verifiers, loads), requireAll)
            == Verified(Kids(requests))
  {
    var signed := SignAll(card, requests).value;
    ChainPasses(card, requests, verifiers, loads);
    PayloadKept(card, requests);
    AllPassVerify(JudgedAll(signed.signatures, CardPayload(signed), verifiers, loads), Kids(requests), requireAll);
    assert Kids(requests) != [];
  }

  lemma AllPassVerify(verdicts: seq<EntryVerdict>, kids: seq<string>, requireAll: bool)
    requires AllPass(verdicts, kids) && kids != []
    ensures VerdictOf(verdicts, requireAll) == Verified(kids)
  {
    NoFailure(verdicts);
    AllPassKids(verdicts, kids);
  }

  /** Such a reader exists: the one that undoes the encoding and parses. */
  ghost function ReadBack(bytes: seq<Byte>): Option<Json> {
    if exists s :: Encode(s) == bytes then
      var s :| Encode(s) == bytes;
      Parse(s)
    else None
  }

  lemma ReadBackReads()
    ensures ReadsCanonical(ReadBack)
  {
    forall v: Json ensures ReadBack(Encode(Canonical(v))) == Some(v) {
      var bytes := Encode(Canonical(v));
      var s :| Encode(s) == bytes && ReadBack(bytes) == Parse(s);
      EncodeInjective(s, Canonical(v));
      ParseCanonical(v);
    }
  }

  // ------------------------------------------------- what a signature covers

  lemma DotSplits(p: string, x: string, q: string, y: string)
    requires p + ("." + x) == q + ("." + y) && '.' !in x && '.' !in y
    ensures p == q && x == y
  {
    var s := p + ("." + x);
    assert forall j :: |p| < j < |s| ==> s[j] == x[j - |p| - 1] && s[j] in x;
    assert forall j :: |q| < j < |s| ==> s[j] == y[j - |q| - 1] && s[j] in y;
    assert s[|p|] == '.' && s[|q|] == '.';
    assert p == s[..|p|] && q == s[..|q|];
    assert x == s[|p| + 1..] && y == s[|q| + 1..];
  }

  /** The signed bytes tell the protected header and the document apart from every other, even
      when the header holds characters the base64url decoder skips. */
  lemma SignedBytesCover(p: string, c: Card, q: string, d: Card)
    requires Ascii(p) && Ascii(q)
    ensures SigningInput(p, CardPayload(c)) == SigningInput(q, CardPayload(d))
            <==> p == q && Document(c) == Document(d)
  {
    if SigningInput(p, CardPayload(c)) == SigningInput(q, CardPayload(d)) {
      SamePayload(p, CardPayload(c), q, CardPayload(d));
      EncodeInjective(Canonical(Document(c)), Canonical(Document(d)));
      CanonicalInjective(Document(c), Document(d));
    }
  }

  lemma SamePayload(p: string, a: seq<Byte>, q: string, b: seq<Byte>)
    requires Ascii(p) && Ascii(q) && SigningInput(p, a) == SigningInput(q, b)
    ensures p == q && a == b
  {
    EncodeInjective(p + ("." + B64Encode(a)), q + ("." + B64Encode(b)));
    EncodedAscii(a);
    EncodedAscii(b);
    DotSplits(p, B64Encode(a), q, B64Encode(b));
    B64RoundTrip(a);
    B64RoundTrip(b);
  }

  /** The verifier accepts nothing but signing inputs over this card. */
  ghost predicate OnlySigned(v: Verifier, card: Card) {
    forall data, signature :: v.verify(data, signature) ==>
      exists p :: Ascii(p) && data == SigningInput(p, CardPayload(card))
  }

  /** When the keys were used on one card alone, an accepted card has that card's document:
      whatever was altered in transit is refused. */
  lemma AlteredRefused(signed: Card, received: Card, verifiers: Verifiers, loads: Loads, requireAll: bool)
    requires forall kid | kid in verifiers :: OnlySigned(verifiers[kid], signed)
    requires VerdictOf(JudgedAll(received.signatures, CardPayload(received), verifiers, loads), requireAll).Verified?
    ensures Document(received) == Document(signed)
  {
    var payload := CardPayload(received);
    var verdicts := JudgedAll(received.signatures, payload, verifiers, loads);
    AcceptedMeans(verdicts, requireAll);
    var i :| 0 <= i < |verdicts| && verdicts[i].Passed?;
    PassedOverOneCard(received.signatures[i], received, signed, verifiers, loads);
  }

  lemma PassedOverOneCard(
      entry: Signature, received: Card, signed: Card, verifiers: Verifiers, loads: Loads)
    requires Judged(entry, CardPayload(received), verifiers, loads).Passed?
    requires forall kid | kid in verifiers :: OnlySigned(verifiers[kid], signed)
    ensures Document(received) == Document(signed)
  {
    var kid := Judged(entry, CardPayload(received), verifiers, loads).kid;
    var data := SigningInput(entry.protected, CardPayload(received));
    assert verifiers[kid].verify(data, B64Decode(entry.signature).value);
    var p :| Ascii(p) && data == SigningInput(p, CardPayload(signed));
    SignedBytesCover(entry.protected, received, p, signed);
  }
}
