/** Array.prototype.sort with a comparator, which ECMAScript requires to be stable,
    modelled as a stable insertion sort on sequences. A comparator returns a
    negative number when its first argument goes first and a positive one when
    its second argument goes first; zero keeps the input order. */
module Sorting {

  /** The comparator orders every pair and "may precede" is transitive. */
  ghost predicate IsTotalPreorder<T(!new)>(cmp: (T, T) -> int)
  {
    && (forall a, b :: cmp(a, b) <= 0 || cmp(b, a) <= 0)
    && (forall a, b, c :: cmp(a, b) <= 0 && cmp(b, c) <= 0 ==> cmp(a, c) <= 0)
  }

  /** Every element may precede every later element. */
  ghost predicate SortedBy<T>(s: seq<T>, cmp: (T, T) -> int)
  {
    forall i, j :: 0 <= i < j < |s| ==> cmp(s[i], s[j]) <= 0
  }

  /** x and y compare as equal (the comparator returns 0 in effect both ways). */
  predicate Tied<T>(cmp: (T, T) -> int, x: T, y: T)
  {
    cmp(x, y) <= 0 && cmp(y, x) <= 0
  }

  /** The elements of s tied with x, in the order of s. */
  function TiedWith<T>(s: seq<T>, cmp: (T, T) -> int, x: T): (r: seq<T>)
    ensures |r| <= |s|
  {
    if s == [] then []
    else (if Tied(cmp, x, s[0]) then [s[0]] else []) + TiedWith(s[1..], cmp, x)
  }

  /** Cutting a sequence short cuts each tie class short. */
  lemma {:induction false} TiedWithPrefix<T>(s: seq<T>, cmp: (T, T) -> int, x: T, k: nat)
    requires k <= |s|
    ensures TiedWith(s[..k], cmp, x) <= TiedWith(s, cmp, x)
  {
    if k > 0 {
      TiedWithPrefix(s[1..], cmp, x, k - 1);
      assert s[..k][0] == s[0] && s[..k][1..] == s[1..][..k - 1];
    }
  }

  /** Places x before the first element it may precede. */
  function Insert<T>(x: T, s: seq<T>, cmp: (T, T) -> int): (r: seq<T>)
    ensures multiset(r) == multiset(s) + multiset{x}
    ensures |r| == |s| + 1
  {
    if s == [] || cmp(x, s[0]) <= 0 then [x] + s
    else
      assert s == [s[0]] + s[1..];
      [s[0]] + Insert(x, s[1..], cmp)
  }

  function SortBy<T>(s: seq<T>, cmp: (T, T) -> int): (r: seq<T>)
    ensures multiset(r) == multiset(s)
    ensures |r| == |s|
  {
    if s == [] then []
    else
      assert s == [s[0]] + s[1..];
      Insert(s[0], SortBy(s[1..], cmp), cmp)
  }

  lemma {:induction false} InsertSorted<T(!new)>(x: T, s: seq<T>, cmp: (T, T) -> int)
    requires IsTotalPreorder(cmp) && SortedBy(s, cmp)
    ensures SortedBy(Insert(x, s, cmp), cmp)
  {
    if s == [] || cmp(x, s[0]) <= 0 {
      var r := [x] + s;
      forall i, j | 0 <= i < j < |r| ensures cmp(r[i], r[j]) <= 0 {
        if i == 0 {
          if j > 1 { assert cmp(s[0], s[j - 1]) <= 0; }
        }
      }
    } else {
      InsertSorted(x, s[1..], cmp);
      var t := Insert(x, s[1..], cmp);
      var r := [s[0]] + t;
      assert cmp(s[0], x) <= 0;
      forall i, j | 0 <= i < j < |r| ensures cmp(r[i], r[j]) <= 0 {
        if i == 0 {
          assert r[j] in multiset(t);
          assert r[j] == x || r[j] in multiset(s[1..]);
          if r[j] != x {
            var k :| 0 <= k < |s[1..]| && s[1..][k] == r[j];
            assert s[k + 1] == r[j];
          }
        }
      }
    }
  }

  /** The sort's output is ordered by the comparator. */
  lemma {:induction false} SortBySorted<T(!new)>(s: seq<T>, cmp: (T, T) -> int)
    requires IsTotalPreorder(cmp)
    ensures SortedBy(SortBy(s, cmp), cmp)
  {
    if s != [] {
      SortBySorted(s[1..], cmp);
      InsertSorted(s[0], SortBy(s[1..], cmp), cmp);
    }
  }

  lemma {:induction false} InsertTied<T(!new)>(y: T, s: seq<T>, cmp: (T, T) -> int, x: T)
    requires IsTotalPreorder(cmp)
    ensures TiedWith(Insert(y, s, cmp), cmp, x)
         == (if Tied(cmp, x, y) then [y] else []) + TiedWith(s, cmp, x)
  {
    if s == [] || cmp(y, s[0]) <= 0 {
      assert ([y] + s)[1..] == s;
    } else {
      var t := Insert(y, s[1..], cmp);
      InsertTied(y, s[1..], cmp, x);
      assert ([s[0]] + t)[0] == s[0] && ([s[0]] + t)[1..] == t;
      var head := if Tied(cmp, x, s[0]) then [s[0]] else [];
      assert TiedWith(s, cmp, x) == head + TiedWith(s[1..], cmp, x);
      if Tied(cmp, x, y) {
        assert !Tied(cmp, x, s[0]);
      } else {
        assert TiedWith([s[0]] + t, cmp, x) == head + TiedWith(t, cmp, x);
      }
    }
  }

  /** Stability: the elements tied with any x keep their input order. */
  lemma {:induction false} SortByStable<T(!new)>(s: seq<T>, cmp: (T, T) -> int, x: T)
    requires IsTotalPreorder(cmp)
    ensures TiedWith(SortBy(s, cmp), cmp, x) == TiedWith(s, cmp, x)
  {
    if s != [] {
      SortByStable(s[1..], cmp, x);
      InsertTied(s[0], SortBy(s[1..], cmp), cmp, x);
    }
  }

  /** Sortedness, permutation and stability together. */
  /** Sorting keeps exactly the members it was given. */
  lemma SortByMembers<T>(s: seq<T>, cmp: (T, T) -> int)
    ensures forall x :: x in SortBy(s, cmp) <==> x in s
  {
    forall x ensures x in SortBy(s, cmp) <==> x in s {
      assert x in multiset(SortBy(s, cmp)) <==> x in multiset(s);
    }
  }

  lemma SortBySpec<T(!new)>(s: seq<T>, cmp: (T, T) -> int)
    requires IsTotalPreorder(cmp)
    ensures SortedBy(SortBy(s, cmp), cmp)
    ensures multiset(SortBy(s, cmp)) == multiset(s) && |SortBy(s, cmp)| == |s|
    ensures forall x :: TiedWith(SortBy(s, cmp), cmp, x) == TiedWith(s, cmp, x)
  {
    SortBySorted(s, cmp);
    forall x ensures TiedWith(SortBy(s, cmp), cmp, x) == TiedWith(s, cmp, x) {
      SortByStable(s, cmp, x);
    }
    assert |multiset(SortBy(s, cmp))| == |multiset(s)|;
  }

  /** Whatever a prefix of a sorted sequence leaves out may follow its last element. */
  lemma SortedPrefixTopK<T>(s: seq<T>, cmp: (T, T) -> int, k: nat)
    requires SortedBy(s, cmp) && 0 < k <= |s|
    ensures multiset(s[..k]) <= multiset(s)
    ensures forall x :: x in multiset(s) - multiset(s[..k]) ==> cmp(s[k - 1], x) <= 0
  {
    assert s == s[..k] + s[k..];
    assert multiset(s) == multiset(s[..k]) + multiset(s[k..]);
    forall x | x in multiset(s) - multiset(s[..k]) ensures cmp(s[k - 1], x) <= 0 {
      assert x in s[k..];
      var j :| 0 <= j < |s[k..]| && s[k..][j] == x;
      assert s[k + j] == x;
    }
  }

  /** The head of a non-empty sorted sequence may precede every element. */
  lemma SortedHeadFirst<T(!new)>(s: seq<T>, cmp: (T, T) -> int, x: T)
    requires IsTotalPreorder(cmp) && SortedBy(s, cmp) && x in s
    ensures cmp(s[0], x) <= 0
  {
    var m :| 0 <= m < |s| && s[m] == x;
    if m == 0 {
      assert cmp(x, x) <= 0 || cmp(x, x) <= 0;
    }
  }

  /** a keeps some of b's elements, in b's order. */
  predicate IsSubsequence<T(==)>(a: seq<T>, b: seq<T>)
    decreases |b|
  {
    if a == [] then true
    else if b == [] then false
    else (a[0] == b[0] && IsSubsequence(a[1..], b[1..])) || IsSubsequence(a, b[1..])
  }

  lemma SubsequenceSkip<T>(a: seq<T>, x: T, b: seq<T>)
    requires IsSubsequence(a, b)
    ensures IsSubsequence(a, [x] + b)
  {
    assert ([x] + b)[1..] == b;
  }

  lemma {:induction false} SubsequenceMember<T>(a: seq<T>, b: seq<T>, i: nat)
    requires IsSubsequence(a, b) && i < |a|
    ensures exists k :: 0 <= k < |b| && b[k] == a[i]
  {
    if a[0] == b[0] && IsSubsequence(a[1..], b[1..]) {
      if i > 0 {
        SubsequenceMember(a[1..], b[1..], i - 1);
        var k :| 0 <= k < |b[1..]| && b[1..][k] == a[1..][i - 1];
        assert b[k + 1] == a[i];
      }
    } else {
      SubsequenceMember(a, b[1..], i);
      var k :| 0 <= k < |b[1..]| && b[1..][k] == a[i];
      assert b[k + 1] == a[i];
    }
  }

  /** A sorted sequence, seen as its head and its tail. */
  lemma SortedUncons<T>(s: seq<T>, cmp: (T, T) -> int)
    requires SortedBy(s, cmp) && s != []
    ensures SortedBy(s[1..], cmp)
    ensures forall x :: x in s[1..] ==> cmp(s[0], x) <= 0
  {
    forall x | x in s[1..] ensures cmp(s[0], x) <= 0 {
      var k :| 0 <= k < |s[1..]| && s[1..][k] == x;
      assert s[k + 1] == x;
    }
  }

  /** A head that may precede everything in a sorted tail gives a sorted sequence. */
  lemma SortedCons<T>(h: T, s: seq<T>, cmp: (T, T) -> int)
    requires SortedBy(s, cmp) && forall x :: x in s ==> cmp(h, x) <= 0
    ensures SortedBy([h] + s, cmp)
  {
    var r := [h] + s;
    forall i, j | 0 <= i < j < |r| ensures cmp(r[i], r[j]) <= 0 {
      assert r[j] == s[j - 1];
      if i > 0 {
        assert r[i] == s[i - 1];
      }
    }
  }

  /** Two ways of taking a sequence apart at its front. */
  lemma SliceFront<T>(s: seq<T>, n: nat, m: nat)
    requires n < |s| && 1 <= m <= |s|
    ensures s[n..] == [s[n]] + s[n + 1..]
    ensures s[..m] == [s[0]] + s[1..][..m - 1]
  {
  }
}
