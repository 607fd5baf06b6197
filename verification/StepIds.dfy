/** Step ids: the bytes a step's position is hashed as tell every position apart, and a workflow
    never places two nodes at one position. The digest itself stands for those bytes. */
module StepIds {
  import opened Values
  import opened Records
  import opened Bytes
  import CanonicalJson

  const SEPARATOR: char := 0x1F as char

  type Path = seq<PathElement>

  function Tagged(e: PathElement): string {
    match e
    case Index(i) => "i" + CanonicalJson.Decimal(i)
    case Name(name) => "s" + name
  }

  function Elements(path: Path): string {
    if path == [] then "" else [SEPARATOR] + Tagged(path[0]) + Elements(path[1..])
  }

  /** What `derive_step_id` hashes, as text. */
  function PreImage(runId: RunId, path: Path): string {
    runId + Elements(path)
  }

  /** `derive_step_id` up to its digest: the bytes fed to it, piece by piece. */
  method HashedBytes(runId: RunId, path: Path) returns (bytes: seq<Byte>)
    ensures bytes == Encode(PreImage(runId, path))
  {
    bytes := Encode(runId);
    var i := 0;
    assert path[..0] == [] && runId + "" == runId;
    while i < |path|
      invariant 0 <= i <= |path|
      invariant bytes == Encode(PreImage(runId, path[..i]))
    {
      var e := path[i];
      PreImageNext(runId, path, i);
      EncodeThree(PreImage(runId, path[..i]), Tagged(e)[..1], Tagged(e)[1..]);
      bytes := bytes + [0x1F];
      bytes := bytes + Encode(if e.Index? then "i" else "s");
      bytes := bytes + Encode(if e.Index? then CanonicalJson.Decimal(e.index) else e.name);
      i := i + 1;
    }
    assert path[..i] == path;
  }

  lemma {:induction false} EncodeConcat(a: string, b: string)
    ensures Encode(a + b) == Encode(a) + Encode(b)
  {
    if a == "" {
      assert a + b == b;
    } else {
      assert (a + b)[1..] == a[1..] + b;
      EncodeConcat(a[1..], b);
    }
  }

  lemma EncodeThree(before: string, tag: string, text: string)
    ensures Encode(before + ([SEPARATOR] + (tag + text))) == Encode(before) + [0x1F] + Encode(tag) + Encode(text)
  {
    EncodeConcat(before, [SEPARATOR] + (tag + text));
    EncodeConcat([SEPARATOR], tag + text);
    EncodeConcat(tag, text);
    SeparatorByte();
    RegroupBytes(Encode(before), [0x1F], Encode(tag), Encode(text));
  }

  lemma RegroupBytes(a: seq<Byte>, b: seq<Byte>, c: seq<Byte>, d: seq<Byte>)
    ensures a + (b + (c + d)) == a + b + c + d
  {
  }

  lemma SeparatorByte()
    ensures Encode([SEPARATOR]) == [0x1F]
  {
    var one := [SEPARATOR];
    assert one[1..] == "" && Encode(one) == EncodeChar(one[0]) + Encode(one[1..]);
  }

  lemma {:induction false} ElementsSnoc(path: Path, e: PathElement)
    ensures Elements(path + [e]) == Elements(path) + ([SEPARATOR] + Tagged(e))
  {
    var all := path + [e];
    if path == [] {
      assert all[1..] == [] && Elements(all) == [SEPARATOR] + Tagged(all[0]) + Elements(all[1..]);
    } else {
      assert all[1..] == path[1..] + [e];
      ElementsSnoc(path[1..], e);
    }
  }

  lemma {:induction false} PreImageNext(runId: RunId, path: Path, i: nat)
    requires i < |path|
    ensures Tagged(path[i]) == Tagged(path[i])[..1] + Tagged(path[i])[1..]
    ensures PreImage(runId, path[..i + 1]) == PreImage(runId, path[..i]) + ([SEPARATOR] + Tagged(path[i]))
  {
    assert path[..i + 1] == path[..i] + [path[i]];
    TaggedSplits(path[i]);
    PreImageSnoc(runId, path[..i], path[i]);
  }

  /** What is hashed: the Run, and for each element the separator, its tag, and the element: an
      index in decimal under `i`, a name under `s`. */
  lemma {:induction false} HashedAs(runId: RunId, path: Path, i: int, name: string)
    ensures SEPARATOR as int == 0x1F
    ensures PreImage(runId, []) == runId
    ensures PreImage(runId, path + [Index(i)])
            == PreImage(runId, path) + ([SEPARATOR] + ("i" + CanonicalJson.Decimal(i)))
    ensures PreImage(runId, path + [Name(name)]) == PreImage(runId, path) + ([SEPARATOR] + ("s" + name))
  {
    PreImageSnoc(runId, path, Index(i));
    PreImageSnoc(runId, path, Name(name));
  }

  lemma TaggedSplits(e: PathElement)
    ensures Tagged(e) != "" && Tagged(e) == Tagged(e)[..1] + Tagged(e)[1..]
  {
  }

  lemma {:induction false} PreImageSnoc(runId: RunId, path: Path, e: PathElement)
    ensures PreImage(runId, path + [e]) == PreImage(runId, path) + ([SEPARATOR] + Tagged(e))
  {
    ElementsSnoc(path, e);
  }

  // ------------------------------------------------------------- injectivity

  predicate Plain(s: string) {
    SEPARATOR !in s
  }

  predicate PlainPath(path: Path) {
    forall i :: 0 <= i < |path| && path[i].Name? ==> Plain(path[i].name)
  }

  lemma {:induction false} DigitsPlain(n: nat)
    ensures Plain(CanonicalJson.Digits(n))
  {
    if n >= 10 {
      DigitsPlain(n / 10);
    }
  }

  lemma TaggedPlain(e: PathElement)
    requires e.Name? ==> Plain(e.name)
    ensures Plain(Tagged(e))
  {
    if e.Index? {
      DigitsPlain(if e.index < 0 then -e.index else e.index);
    }
  }

  lemma DecimalInjective(m: int, n: int)
    requires CanonicalJson.Decimal(m) == CanonicalJson.Decimal(n)
    ensures m == n
  {
    CanonicalJson.CanonicalInjective(Int(m), Int(n));
  }

  lemma TaggedInjective(d: PathElement, e: PathElement)
    requires Tagged(d) == Tagged(e)
    ensures d == e
  {
    assert Tagged(d)[0] == Tagged(e)[0];
    assert Tagged(d)[1..] == Tagged(e)[1..];
    if d.Index? {
      assert CanonicalJson.Decimal(d.index) == Tagged(d)[1..] == CanonicalJson.Decimal(e.index);
      DecimalInjective(d.index, e.index);
    } else {
      assert d.name == Tagged(d)[1..] == e.name;
    }
  }

  /** The first separator ends what comes before it. */
  lemma SeparatorSplits(a: string, p: Path, b: string, q: Path)
    requires Plain(a) && Plain(b) && a + Elements(p) == b + Elements(q)
    ensures a == b && Elements(p) == Elements(q)
  {
    var s := a + Elements(p);
    assert forall i :: 0 <= i < |a| ==> s[i] == a[i] && a[i] in a;
    assert forall i :: 0 <= i < |b| ==> s[i] == b[i] && b[i] in b;
    assert |a| < |s| ==> p != [] && s[|a|] == Elements(p)[0] == SEPARATOR;
    assert |b| < |s| ==> q != [] && s[|b|] == Elements(q)[0] == SEPARATOR;
    assert a == s[..|a|] && b == s[..|b|];
    assert Elements(p) == s[|a|..] && Elements(q) == s[|b|..];
  }

  lemma BehindSeparator(p: Path)
    requires p != []
    ensures Elements(p) != "" && Elements(p)[1..] == Tagged(p[0]) + Elements(p[1..])
  {
  }

  /** Paths with one first element are equal when the rest is. */
  lemma {:induction false} SameFirst(p: Path, q: Path)
    requires p != [] && q != [] && PlainPath(p) && PlainPath(q) && Tagged(p[0]) == Tagged(q[0])
    ensures PlainPath(p[1..]) && PlainPath(q[1..])
    ensures p[1..] == q[1..] ==> p == q
  {
    TaggedInjective(p[0], q[0]);
    assert p == [p[0]] + p[1..] && q == [q[0]] + q[1..];
  }

  lemma {:induction false} ElementsInjective(p: Path, q: Path)
    requires PlainPath(p) && PlainPath(q) && Elements(p) == Elements(q)
    ensures p == q
  {
    if p != [] && q != [] {
      TaggedPlain(p[0]);
      TaggedPlain(q[0]);
      BehindSeparator(p);
      BehindSeparator(q);
      SeparatorSplits(Tagged(p[0]), p[1..], Tagged(q[0]), q[1..]);
      SameFirst(p, q);
      ElementsInjective(p[1..], q[1..]);
    }
  }

  /** For names without the separator the hashed bytes tell the Run and the position apart from
      every other Run and position. */
  lemma PositionsApart(run: RunId, p: Path, other: RunId, q: Path)
    requires Plain(run) && Plain(other) && PlainPath(p) && PlainPath(q)
    ensures Encode(PreImage(run, p)) == Encode(PreImage(other, q)) <==> run == other && p == q
  {
    if Encode(PreImage(run, p)) == Encode(PreImage(other, q)) {
      EncodeInjective(PreImage(run, p), PreImage(other, q));
      SeparatorSplits(run, p, other, q);
      ElementsInjective(p, q);
    }
  }

  /** With the separator allowed in a name they do not: one name can spell two. */
  lemma SeparatorCollides(run: RunId, path: Path, a: string, b: string)
    ensures PreImage(run, path + [Name(a + [SEPARATOR] + "s" + b)]) == PreImage(run, path + [Name(a), Name(b)])
  {
    ElementsSnoc(path, Name(a + [SEPARATOR] + "s" + b));
    ElementsSnoc(path, Name(a));
    ElementsSnoc(path + [Name(a)], Name(b));
    assert path + [Name(a)] + [Name(b)] == path + [Name(a), Name(b)];
    Regroup([SEPARATOR], "s", a, b, Elements(path));
  }

  lemma Regroup(separator: string, tag: string, a: string, b: string, before: string)
    ensures before + (separator + (tag + (a + separator + tag + b)))
            == before + (separator + (tag + a)) + (separator + (tag + b))
  {
  }

  /** What a spec lets a step or a workflow be called. */
  predicate SpecName(s: string) {
    && 0 < |s| <= 128
    && (s[0] == '_' || 'a' <= s[0] <= 'z' || 'A' <= s[0] <= 'Z')
    && forall i :: 0 <= i < |s| ==>
         s[i] == '_' || s[i] == '.' || s[i] == '-' || 'a' <= s[i] <= 'z' || 'A' <= s[i] <= 'Z' || '0' <= s[i] <= '9'
  }

  lemma SpecNamesArePlain(s: string)
    requires SpecName(s)
    ensures Plain(s)
  {
  }
}
