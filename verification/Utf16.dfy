/** The order RFC 8785 gives to object keys (section 3.2.3): by UTF-16 code units, which is not
    the order of code points once a key leaves the Basic Multilingual Plane. */
module Utf16 {

  /** One unit, or a surrogate pair. */
  function UnitsOf(c: char): (r: seq<nat>)
    ensures |r| == if c as int < 0x1_0000 then 1 else 2
  {
    var n := c as int;
    if n < 0x1_0000 then [n] else [0xD800 + (n - 0x1_0000) / 0x400, 0xDC00 + (n - 0x1_0000) % 0x400]
  }

  function Units(s: string): seq<nat> {
    if s == "" then [] else UnitsOf(s[0]) + Units(s[1..])
  }

  /** Tuples of integers compare element by element, a proper prefix being smaller. */
  predicate Less(a: seq<nat>, b: seq<nat>) {
    b != [] && (a == [] || a[0] < b[0] || (a[0] == b[0] && Less(a[1..], b[1..])))
  }

  predicate Before(a: string, b: string) {
    Less(Units(a), Units(b))
  }

  // ---------------------------------------------------------- a total order

  lemma {:induction false} LessTotal(a: seq<nat>, b: seq<nat>)
    ensures Less(a, b) || a == b || Less(b, a)
    ensures !(Less(a, b) && Less(b, a))
    ensures !Less(a, a)
  {
    if a != [] {
      LessTotal(a[1..], a[1..]);
      if b != [] {
        LessTotal(a[1..], b[1..]);
        if a[0] == b[0] && a[1..] == b[1..] {
          assert a == [a[0]] + a[1..] == b;
        }
      }
    }
  }

  lemma {:induction false} LessTransitive(a: seq<nat>, b: seq<nat>, c: seq<nat>)
    requires Less(a, b) && Less(b, c)
    ensures Less(a, c)
  {
    if a != [] && a[0] == b[0] && b[0] == c[0] {
      LessTransitive(a[1..], b[1..], c[1..]);
    }
  }

  /** The first unit of a character tells whether a second follows. */
  lemma UnitsOfInjective(c: char, d: char)
    requires UnitsOf(c)[0] == UnitsOf(d)[0]
    ensures |UnitsOf(c)| == |UnitsOf(d)|
    ensures UnitsOf(c) == UnitsOf(d) ==> c == d
  {
  }

  /** No two keys have the same code units, so the order never leaves two keys tied. */
  lemma {:induction false} UnitsInjective(a: string, b: string)
    requires Units(a) == Units(b)
    ensures a == b
  {
    if a != "" && b != "" {
      var c, d := UnitsOf(a[0]), UnitsOf(b[0]);
      assert c[0] == Units(a)[0] && d[0] == Units(b)[0];
      UnitsOfInjective(a[0], b[0]);
      assert c == Units(a)[..|c|] && d == Units(b)[..|d|];
      assert Units(a[1..]) == Units(a)[|c|..] && Units(b[1..]) == Units(b)[|d|..];
      UnitsInjective(a[1..], b[1..]);
      assert a == [a[0]] + a[1..] && b == [b[0]] + b[1..];
    }
  }

  /** Any two keys are ordered one way, and only one. */
  lemma BeforeTotal(a: string, b: string)
    ensures Before(a, b) || a == b || Before(b, a)
    ensures !(Before(a, b) && Before(b, a))
    ensures !Before(a, a)
  {
    LessTotal(Units(a), Units(b));
    LessTotal(Units(a), Units(a));
    if Units(a) == Units(b) {
      UnitsInjective(a, b);
    }
  }

  lemma BeforeTransitive(a: string, b: string, c: string)
    requires Before(a, b) && Before(b, c)
    ensures Before(a, c)
  {
    LessTransitive(Units(a), Units(b), Units(c));
  }

  lemma UnitsOfOne(c: char)
    ensures Units([c]) == UnitsOf(c)
  {
    var one := [c];
    assert one[1..] == "";
    assert Units(one) == UnitsOf(one[0]) + Units(one[1..]);
  }

  /** On single characters the order is that of code points, except exactly when one of them is
      above the surrogates in the Basic Multilingual Plane and the other is outside the plane. */
  lemma CodePointsDiffer(c: char, d: char)
    requires c < d
    ensures Before([d], [c]) <==> 0xE000 <= c as int < 0x1_0000 <= d as int
  {
    UnitsOfOne(c);
    UnitsOfOne(d);
    var u, v := UnitsOf(c), UnitsOf(d);
    if c as int >= 0x1_0000 {
      assert u[0] <= v[0];
      assert Less(v, u) ==> u[0] == v[0] && Less(v[1..], u[1..]);
      assert u[0] == v[0] ==> u[1] < v[1];
    } else if c as int >= 0xE000 && d as int < 0x1_0000 {
      assert u[0] < v[0];
    } else if c as int < 0xE000 {
      assert u[0] < v[0];
    } else {
      assert v[0] < u[0];
    }
  }

  // ---------------------------------------------------------------- sorting

  predicate Increasing(keys: seq<string>) {
    forall i, j :: 0 <= i < j < |keys| ==> Before(keys[i], keys[j])
  }

  /** Where the sort puts one more key. */
  function Inserted(key: string, sorted: seq<string>): (r: seq<string>) {
    if sorted == [] || !Before(sorted[0], key) then [key] + sorted
    else [sorted[0]] + Inserted(key, sorted[1..])
  }

  /** The keys of an object, written in any order, sorted. */
  function Sorted(keys: seq<string>): seq<string> {
    if keys == [] then [] else Inserted(keys[0], Sorted(keys[1..]))
  }

  predicate Distinct(keys: seq<string>) {
    forall i, j :: 0 <= i < j < |keys| ==> keys[i] != keys[j]
  }

  function AsSet(keys: seq<string>): set<string> {
    set k | k in keys
  }

  lemma IncreasingTail(keys: seq<string>)
    requires keys != [] && Increasing(keys)
    ensures Increasing(keys[1..])
  {
    forall i, j | 0 <= i < j < |keys[1..]| ensures Before(keys[1..][i], keys[1..][j]) {
      assert keys[1..][i] == keys[i + 1] && keys[1..][j] == keys[j + 1];
    }
  }

  lemma IncreasingCons(key: string, rest: seq<string>)
    requires Increasing(rest)
    requires rest != [] ==> Before(key, rest[0])
    ensures Increasing([key] + rest)
  {
    var keys := [key] + rest;
    forall i, j | 0 <= i < j < |keys| ensures Before(keys[i], keys[j]) {
      if i > 0 {
        assert keys[i] == rest[i - 1] && keys[j] == rest[j - 1];
      } else if j > 1 {
        BeforeTransitive(key, rest[0], rest[j - 1]);
      }
    }
  }

  lemma {:induction false} InsertedSorts(key: string, sorted: seq<string>)
    requires Increasing(sorted) && key !in sorted
    ensures Increasing(Inserted(key, sorted))
    ensures AsSet(Inserted(key, sorted)) == AsSet(sorted) + {key}
    ensures |Inserted(key, sorted)| == |sorted| + 1
    ensures Inserted(key, sorted)[0] == key || (sorted != [] && Inserted(key, sorted)[0] == sorted[0])
  {
    if sorted == [] || !Before(sorted[0], key) {
      if sorted != [] {
        BeforeTotal(sorted[0], key);
      }
      IncreasingCons(key, sorted);
    } else {
      var rest := Inserted(key, sorted[1..]);
      IncreasingTail(sorted);
      InsertedSorts(key, sorted[1..]);
      assert sorted[1..] != [] ==> Before(sorted[0], sorted[1..][0]);
      IncreasingCons(sorted[0], rest);
      SetOfCons(sorted[0], rest);
      SetOfCons(sorted[0], sorted[1..]);
      assert sorted == [sorted[0]] + sorted[1..];
    }
  }

  lemma SetOfCons(key: string, rest: seq<string>)
    ensures AsSet([key] + rest) == {key} + AsSet(rest)
  {
    forall k ensures k in AsSet([key] + rest) <==> k in {key} + AsSet(rest) {
      if k in rest {
        var i :| 0 <= i < |rest| && rest[i] == k;
        assert ([key] + rest)[i + 1] == k;
      }
      if k == key {
        assert ([key] + rest)[0] == k;
      }
    }
  }

  /** The sort keeps the keys and puts them in strictly increasing order. */
  lemma {:induction false} SortedSorts(keys: seq<string>)
    requires Distinct(keys)
    ensures Increasing(Sorted(keys)) && AsSet(Sorted(keys)) == AsSet(keys)
  {
    if keys != [] {
      SortedSorts(keys[1..]);
      assert keys[0] !in AsSet(keys[1..]);
      InsertedSorts(keys[0], Sorted(keys[1..]));
      SetOfCons(keys[0], keys[1..]);
      assert keys == [keys[0]] + keys[1..];
    }
  }

  /** Only one strictly increasing sequence holds a given set of keys. */
  lemma {:induction false} OneOrder(a: seq<string>, b: seq<string>)
    requires Increasing(a) && Increasing(b) && AsSet(a) == AsSet(b)
    ensures a == b
  {
    EmptySet(a);
    EmptySet(b);
    if a != [] {
      assert a[0] in AsSet(b) && b[0] in AsSet(a);
      FirstIsLeast(a, b[0]);
      FirstIsLeast(b, a[0]);
      BeforeTotal(a[0], b[0]);
      TailSet(a);
      TailSet(b);
      OneOrder(a[1..], b[1..]);
    }
  }

  lemma EmptySet(keys: seq<string>)
    ensures AsSet(keys) == {} <==> keys == []
  {
    if keys != [] {
      assert keys[0] in AsSet(keys);
    }
  }

  lemma FirstIsLeast(keys: seq<string>, k: string)
    requires keys != [] && Increasing(keys) && k in keys
    ensures k == keys[0] || Before(keys[0], k)
  {
  }

  lemma TailSet(keys: seq<string>)
    requires keys != [] && Increasing(keys)
    ensures Increasing(keys[1..]) && AsSet(keys[1..]) == AsSet(keys) - {keys[0]}
  {
    IncreasingTail(keys);
    SetOfCons(keys[0], keys[1..]);
    assert keys == [keys[0]] + keys[1..];
    assert keys[0] !in keys[1..] by {
      if keys[0] in keys[1..] {
        FirstIsNotLater(keys);
      }
    }
  }

  lemma FirstIsNotLater(keys: seq<string>)
    requires keys != [] && Increasing(keys)
    ensures keys[0] !in keys[1..]
  {
    forall i | 0 <= i < |keys[1..]| ensures keys[1..][i] != keys[0] {
      assert Before(keys[0], keys[i + 1]);
      BeforeTotal(keys[0], keys[0]);
    }
  }

  /** The order the keys were written in leaves no trace. */
  lemma WritingOrderForgotten(a: seq<string>, b: seq<string>)
    requires Distinct(a) && Distinct(b) && AsSet(a) == AsSet(b)
    ensures Sorted(a) == Sorted(b)
  {
    SortedSorts(a);
    SortedSorts(b);
    OneOrder(Sorted(a), Sorted(b));
  }

  // ------------------------------------------------------- the keys of a map

  predicate IsLeast(k: string, keys: set<string>) {
    k in keys && forall other | other in keys :: other == k || Before(k, other)
  }

  lemma {:induction false} OneLeast(keys: set<string>)
    requires keys != {}
    ensures exists k :: IsLeast(k, keys)
    ensures forall k, other :: IsLeast(k, keys) && IsLeast(other, keys) ==> k == other
  {
    var some :| some in keys;
    if keys == {some} {
      assert IsLeast(some, keys);
    } else {
      OneLeast(keys - {some});
      var k :| IsLeast(k, keys - {some});
      BeforeTotal(some, k);
      if Before(some, k) {
        forall other | other in keys - {some} && other != k ensures Before(some, other) {
          BeforeTransitive(some, k, other);
        }
        assert IsLeast(some, keys);
      } else {
        assert IsLeast(k, keys);
      }
    }
    forall k, other | IsLeast(k, keys) && IsLeast(other, keys) ensures k == other {
      BeforeTotal(k, other);
    }
  }

  /** The keys of an object in the order they are printed. */
  function SortedKeys(keys: set<string>): (sorted: seq<string>)
    ensures forall k | k in sorted :: k in keys
  {
    if keys == {} then []
    else
      OneLeast(keys);
      var least :| IsLeast(least, keys);
      [least] + SortedKeys(keys - {least})
  }

  lemma {:induction false} SortedKeysSorts(keys: set<string>)
    ensures Increasing(SortedKeys(keys)) && AsSet(SortedKeys(keys)) == keys
  {
    if keys != {} {
      OneLeast(keys);
      var least :| IsLeast(least, keys);
      var rest := SortedKeys(keys - {least});
      SortedKeysSorts(keys - {least});
      assert rest != [] ==> rest[0] in AsSet(rest);
      IncreasingCons(least, rest);
      SetOfCons(least, rest);
    }
  }

  /** Whatever order the object's keys were written in, they are printed in the one order. */
  lemma AnyWritingSorts(written: seq<string>)
    requires Distinct(written)
    ensures Sorted(written) == SortedKeys(AsSet(written))
  {
    SortedSorts(written);
    SortedKeysSorts(AsSet(written));
    OneOrder(Sorted(written), SortedKeys(AsSet(written)));
  }
}
