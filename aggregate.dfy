/** The list aggregates the statistics code builds from `filter`, `reduce` and
    counting loops: sums, groups by a key, the distinct keys in order of first
    appearance, and the `counts[k] = (counts[k] || 0) + 1` tally. */
module Aggregate {

  /** `s.reduce((sum, x) => sum + f(x), 0)`. */
  function SumBy<T>(s: seq<T>, f: T -> int): int
  {
    if s == [] then 0 else f(s[0]) + SumBy(s[1..], f)
  }

  lemma {:induction false} SumByAppend<T>(a: seq<T>, b: seq<T>, f: T -> int)
    ensures SumBy(a + b, f) == SumBy(a, f) + SumBy(b, f)
  {
    if a == [] {
      assert a + b == b;
    } else {
      assert (a + b)[0] == a[0] && (a + b)[1..] == a[1..] + b;
      SumByAppend(a[1..], b, f);
    }
  }

  /** A sum does not depend on the order of the elements. */
  lemma {:induction false} SumByPermutation<T>(a: seq<T>, b: seq<T>, f: T -> int)
    requires multiset(a) == multiset(b)
    ensures SumBy(a, f) == SumBy(b, f)
  {
    if a == [] {
      assert |b| == |multiset(b)| == 0;
    } else {
      var x := a[0];
      assert x in multiset(b);
      var k :| 0 <= k < |b| && b[k] == x;
      var rest := b[..k] + b[k + 1..];
      RemoveOne(a, b, k);
      SumByPermutation(a[1..], rest, f);
      SumByRemove(b, k, f);
    }
  }

  lemma RemoveOne<T>(a: seq<T>, b: seq<T>, k: nat)
    requires multiset(a) == multiset(b) && a != [] && k < |b| && b[k] == a[0]
    ensures multiset(a[1..]) == multiset(b[..k] + b[k + 1..])
  {
    assert a == [a[0]] + a[1..];
    assert b == b[..k] + [b[k]] + b[k + 1..];
    assert multiset(a[1..]) == multiset(a) - multiset{a[0]};
    assert multiset(b[..k] + b[k + 1..]) == multiset(b) - multiset{a[0]};
  }

  lemma SumByRemove<T>(b: seq<T>, k: nat, f: T -> int)
    requires k < |b|
    ensures SumBy(b, f) == f(b[k]) + SumBy(b[..k] + b[k + 1..], f)
  {
    var pre, post := b[..k], b[k + 1..];
    assert b == (pre + [b[k]]) + post;
    SumByAppend(pre + [b[k]], post, f);
    SumByAppend(pre, [b[k]], f);
    SumByAppend(pre, post, f);
    assert SumBy([b[k]], f) == f(b[k]);
  }

  /** A bound on every term bounds the sum. */
  lemma {:induction false} SumByBounds<T>(s: seq<T>, f: T -> int, lo: int, hi: int)
    requires forall x :: x in s ==> lo <= f(x) <= hi
    ensures lo * |s| <= SumBy(s, f) <= hi * |s|
  {
    if s != [] {
      SumByBounds(s[1..], f, lo, hi);
      assert s[0] in s;
      assert lo * |s| == lo * |s[1..]| + lo && hi * |s| == hi * |s[1..]| + hi;
    }
  }

  predicate Distinct<K(==)>(ks: seq<K>)
  {
    forall i, j :: 0 <= i < j < |ks| ==> ks[i] != ks[j]
  }

  /** `s.filter(x => key(x) === k)`. */
  function Group<T(!new), K(==, !new)>(s: seq<T>, key: T -> K, k: K): (g: seq<T>)
    ensures forall x :: x in g <==> x in s && key(x) == k
    ensures |g| <= |s|
  {
    if s == [] then []
    else (if key(s[0]) == k then [s[0]] else []) + Group(s[1..], key, k)
  }

  /** The first element counts towards its own key only. */
  lemma GroupHead<T(!new), K(!new)>(s: seq<T>, key: T -> K)
    requires s != []
    ensures forall k :: |Group(s, key, k)| == (if key(s[0]) == k then 1 else 0) + |Group(s[1..], key, k)|
  {
  }

  /** A key no element has has an empty group. */
  lemma {:induction false} GroupEmpty<T(!new), K(!new)>(s: seq<T>, key: T -> K, k: K)
    requires forall x :: x in s ==> key(x) != k
    ensures Group(s, key, k) == []
  {
    if s != [] {
      GroupEmpty(s[1..], key, k);
    }
  }

  /** Adding one element at the end adds it to its own group only. */
  lemma {:induction false} GroupSnoc<T(!new), K(!new)>(s: seq<T>, x: T, key: T -> K, k: K)
    ensures Group(s + [x], key, k) == Group(s, key, k) + (if key(x) == k then [x] else [])
  {
    if s == [] {
      assert s + [x] == [x];
    } else {
      var own: seq<T> := if key(x) == k then [x] else [];
      var head: seq<T> := if key(s[0]) == k then [s[0]] else [];
      assert (s + [x])[0] == s[0] && (s + [x])[1..] == s[1..] + [x];
      assert Group(s + [x], key, k) == head + Group(s[1..] + [x], key, k);
      GroupSnoc(s[1..], x, key, k);
      assert Group(s, key, k) == head + Group(s[1..], key, k);
      assert head + (Group(s[1..], key, k) + own) == (head + Group(s[1..], key, k)) + own;
    }
  }

  /** The distinct keys of `s` in order of first appearance: the order in which a
      JavaScript Map receives its keys when the loop sets them one by one. */
  function Keys<T(!new), K(==, !new)>(s: seq<T>, key: T -> K): (ks: seq<K>)
    ensures forall k :: k in ks <==> exists x :: x in s && key(x) == k
    ensures Distinct(ks)
  {
    if s == [] then []
    else
      var x := s[|s| - 1];
      var ks := Keys(s[..|s| - 1], key);
      assert forall y :: y in s <==> y in s[..|s| - 1] || y == x;
      if key(x) in ks then ks else ks + [key(x)]
  }

  /** One more element adds its key at the end unless the key is already there. */
  lemma KeysSnoc<T(!new), K(!new)>(s: seq<T>, x: T, key: T -> K)
    ensures Keys(s + [x], key) == if key(x) in Keys(s, key) then Keys(s, key) else Keys(s, key) + [key(x)]
  {
    assert (s + [x])[..|s + [x]| - 1] == s;
  }

  /** `(m[k] || 0)`: a missing entry reads as 0. */
  function Lookup<K>(m: map<K, int>, k: K): int
  {
    if k in m then m[k] else 0
  }

  /** The map a `for` loop builds with `m[key(x)] = (m[key(x)] || 0) + 1`. */
  function Tally<T, K>(s: seq<T>, key: T -> K): map<K, int>
  {
    if s == [] then map[]
    else
      var x := s[|s| - 1];
      var m := Tally(s[..|s| - 1], key);
      m[key(x) := Lookup(m, key(x)) + 1]
  }

  /** The tally has an entry exactly for the keys that occur, holding how many
      elements have that key. */
  lemma {:induction false} TallySpec<T(!new), K(!new)>(s: seq<T>, key: T -> K)
    ensures forall k :: k in Tally(s, key) <==> exists x :: x in s && key(x) == k
    ensures forall k :: Lookup(Tally(s, key), k) == |Group(s, key, k)|
  {
    if s != [] {
      var x := s[|s| - 1];
      var init := s[..|s| - 1];
      TallySpec(init, key);
      assert s == init + [x];
      assert forall y :: y in s <==> y in init || y == x;
      forall k ensures Group(s, key, k) == Group(init, key, k) + (if key(x) == k then [x] else []) {
        GroupSnoc(init, x, key, k);
      }
    }
  }

  /** One more element bumps its own key's count. */
  lemma TallySnoc<T, K>(s: seq<T>, x: T, key: T -> K)
    ensures Tally(s + [x], key) == Tally(s, key)[key(x) := Lookup(Tally(s, key), key(x)) + 1]
  {
    assert (s + [x])[..|s + [x]| - 1] == s;
  }

  /** The part of one element's `f` value that the keys `ks` account for. */
  function Share<T(!new), K(==, !new)>(x: T, key: T -> K, ks: seq<K>, f: T -> int): int
  {
    if ks == [] then 0 else (if key(x) == ks[0] then f(x) else 0) + Share(x, key, ks[1..], f)
  }

  lemma {:induction false} ShareOnce<T(!new), K(!new)>(x: T, key: T -> K, ks: seq<K>, f: T -> int)
    requires Distinct(ks) && key(x) in ks
    ensures Share(x, key, ks, f) == f(x)
  {
    if key(x) != ks[0] {
      ShareOnce(x, key, ks[1..], f);
    } else {
      ShareNone(x, key, ks[1..], f);
    }
  }

  lemma {:induction false} ShareNone<T(!new), K(!new)>(x: T, key: T -> K, ks: seq<K>, f: T -> int)
    requires key(x) !in ks
    ensures Share(x, key, ks, f) == 0
  {
    if ks != [] {
      ShareNone(x, key, ks[1..], f);
    }
  }

  /** The per-group sums of `f`, added over the keys `ks`. */
  function GroupedSum<T(!new), K(==, !new)>(s: seq<T>, key: T -> K, ks: seq<K>, f: T -> int): int
  {
    if ks == [] then 0 else SumBy(Group(s, key, ks[0]), f) + GroupedSum(s, key, ks[1..], f)
  }

  /** A list with one entry per key, each worth its group's sum, sums to the
      grouped sum. */
  lemma {:induction false} SumByPerKey<T(!new), K(!new), R>(s: seq<T>, key: T -> K, ks: seq<K>, f: T -> int,
                                                          r: seq<R>, g: R -> int)
    requires |r| == |ks|
    requires forall i :: 0 <= i < |r| ==> g(r[i]) == SumBy(Group(s, key, ks[i]), f)
    ensures SumBy(r, g) == GroupedSum(s, key, ks, f)
  {
    if r != [] {
      assert forall i :: 0 <= i < |r[1..]| ==> r[1..][i] == r[i + 1] && ks[1..][i] == ks[i + 1];
      SumByPerKey(s, key, ks[1..], f, r[1..], g);
    }
  }

  lemma {:induction false} GroupedSumCons<T(!new), K(!new)>(x: T, s: seq<T>, key: T -> K, ks: seq<K>, f: T -> int)
    ensures GroupedSum([x] + s, key, ks, f) == Share(x, key, ks, f) + GroupedSum(s, key, ks, f)
  {
    if ks != [] {
      assert ([x] + s)[0] == x && ([x] + s)[1..] == s;
      var own: seq<T> := if key(x) == ks[0] then [x] else [];
      assert Group([x] + s, key, ks[0]) == own + Group(s, key, ks[0]);
      SumByAppend(own, Group(s, key, ks[0]), f);
      GroupedSumCons(x, s, key, ks[1..], f);
    }
  }

  /** Grouping by distinct keys that cover every element splits a sum without
      losing or repeating any term. */
  lemma {:induction false} GroupedSumWhole<T(!new), K(!new)>(s: seq<T>, key: T -> K, ks: seq<K>, f: T -> int)
    requires Distinct(ks)
    requires forall x :: x in s ==> key(x) in ks
    ensures GroupedSum(s, key, ks, f) == SumBy(s, f)
  {
    if s != [] {
      GroupedSumWhole(s[1..], key, ks, f);
      assert [s[0]] + s[1..] == s;
      GroupedSumCons(s[0], s[1..], key, ks, f);
      ShareOnce(s[0], key, ks, f);
      assert GroupedSum(s, key, ks, f) == f(s[0]) + GroupedSum(s[1..], key, ks, f);
      assert SumBy(s, f) == f(s[0]) + SumBy(s[1..], f);
    } else {
      GroupedSumNil(s, key, ks, f);
    }
  }

  lemma {:induction false} GroupedSumNil<T(!new), K(!new)>(s: seq<T>, key: T -> K, ks: seq<K>, f: T -> int)
    requires s == []
    ensures GroupedSum(s, key, ks, f) == 0
  {
    if ks != [] {
      GroupedSumNil(s, key, ks[1..], f);
    }
  }

  function One<T>(x: T): int
  {
    1
  }

  lemma {:induction false} SumByOne<T>(s: seq<T>)
    ensures SumBy(s, One) == |s|
  {
    if s != [] {
      SumByOne(s[1..]);
    }
  }
}
