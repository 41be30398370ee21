/**
 Sequence helpers the line test relies on: Go's sort.Slice, which sorts by a
 "less" comparison and is not stable, is modelled by a sort specified only by
 sortedness and permutation; and element-wise maps, whose results are
 permutations of each other when their inputs are.
 */
module Sequences {

  /** Non-decreasing by `key`. */
  ghost predicate SortedBy<T>(s: seq<T>, key: T -> real)
  {
    forall i, j :: 0 <= i < j < |s| ==> key(s[i]) <= key(s[j])
  }

  /** Putting a least element in front of a sorted sequence keeps it sorted. */
  lemma ConsSorted<T>(y: T, t: seq<T>, key: T -> real)
    requires SortedBy(t, key)
    requires forall k :: 0 <= k < |t| ==> key(y) <= key(t[k])
    ensures SortedBy([y] + t, key)
  {
    var r := [y] + t;
    forall i, j | 0 <= i < j < |r|
      ensures key(r[i]) <= key(r[j])
    {
      assert r[j] == t[j - 1];
      if i > 0 {
        assert r[i] == t[i - 1];
      }
    }
  }

  /** A lower bound on the keys carries over to a permutation. */
  lemma BoundCarries<T>(t: seq<T>, u: seq<T>, lo: real, key: T -> real)
    requires multiset(t) == multiset(u)
    requires forall k :: 0 <= k < |u| ==> lo <= key(u[k])
    ensures forall k :: 0 <= k < |t| ==> lo <= key(t[k])
  {
    forall k | 0 <= k < |t|
      ensures lo <= key(t[k])
    {
      assert t[k] in multiset(u);
      var i :| 0 <= i < |u| && u[i] == t[k];
    }
  }

  /** The step of Insert that keeps the head: the head stays least. */
  lemma InsertBehind<T>(x: T, s: seq<T>, rest: seq<T>, key: T -> real)
    requires SortedBy(s, key) && |s| > 0 && key(s[0]) < key(x)
    requires SortedBy(rest, key) && multiset(rest) == multiset(s[1..]) + multiset{x}
    ensures SortedBy([s[0]] + rest, key)
    ensures multiset([s[0]] + rest) == multiset(s) + multiset{x}
  {
    var t := s[1..];
    assert s == [s[0]] + t;
    assert forall k :: 0 <= k < |[x] + t| ==> key(s[0]) <= key(([x] + t)[k]) by {
      forall k | 0 <= k < |[x] + t|
        ensures key(s[0]) <= key(([x] + t)[k])
      {
        if k > 0 {
          assert ([x] + t)[k] == s[k];
        }
      }
    }
    BoundCarries(rest, [x] + t, key(s[0]), key);
    ConsSorted(s[0], rest, key);
  }

  function Insert<T>(x: T, s: seq<T>, key: T -> real): (r: seq<T>)
    requires SortedBy(s, key)
    ensures SortedBy(r, key)
    ensures multiset(r) == multiset(s) + multiset{x}
  {
    if s == [] || key(x) <= key(s[0]) then
      ConsSorted(x, s, key);
      [x] + s
    else
      var rest := Insert(x, s[1..], key);
      InsertBehind(x, s, rest, key);
      [s[0]] + rest
  }

  /** Sorts by `key`; equal keys may come out in either order. */
  function SortBy<T>(s: seq<T>, key: T -> real): (r: seq<T>)
    ensures SortedBy(r, key)
    ensures multiset(r) == multiset(s)
  {
    if s == [] then []
    else
      assert s == [s[0]] + s[1..];
      Insert(s[0], SortBy(s[1..], key), key)
  }

  /** Applies `f` to every element. */
  function Map<T, U>(s: seq<T>, f: T -> U): (r: seq<U>)
    ensures |r| == |s|
  {
    if s == [] then [] else Map(s[..|s| - 1], f) + [f(s[|s| - 1])]
  }

  lemma {:induction false} MapPointwise<T, U>(s: seq<T>, f: T -> U)
    ensures forall k :: 0 <= k < |s| ==> Map(s, f)[k] == f(s[k])
    decreases |s|
  {
    if s != [] {
      var n := |s| - 1;
      MapPointwise(s[..n], f);
    }
  }

  lemma MapSnoc<T, U>(s: seq<T>, x: T, f: T -> U)
    ensures Map(s + [x], f) == Map(s, f) + [f(x)]
  {
    assert (s + [x])[..|s|] == s;
  }

  /** The elements satisfying `p`, in order. */
  function Filter<T>(s: seq<T>, p: T -> bool): seq<T>
  {
    if s == [] then []
    else
      var rest := Filter(s[..|s| - 1], p);
      if p(s[|s| - 1]) then rest + [s[|s| - 1]] else rest
  }

  lemma FilterSnoc<T>(s: seq<T>, x: T, p: T -> bool)
    ensures Filter(s + [x], p) == if p(x) then Filter(s, p) + [x] else Filter(s, p)
  {
    assert (s + [x])[..|s|] == s;
  }

  /** The filter keeps something exactly when some element satisfies `p`. */
  lemma {:induction false} FilterNonEmpty<T>(s: seq<T>, p: T -> bool)
    ensures |Filter(s, p)| > 0 <==> exists k :: 0 <= k < |s| && p(s[k])
    decreases |s|
  {
    if s != [] {
      var n := |s| - 1;
      FilterNonEmpty(s[..n], p);
      assert forall k :: 0 <= k < n ==> s[..n][k] == s[k];
    }
  }

  /** The last element of `a` occurs in its permutation `b`; removing it from
      both leaves permutations again. */
  lemma PermutationSplit<T>(a: seq<T>, b: seq<T>) returns (j: nat)
    requires |a| > 0 && multiset(a) == multiset(b)
    ensures j < |b| && b[j] == a[|a| - 1]
    ensures multiset(a[..|a| - 1]) == multiset(b[..j] + b[j + 1..])
  {
    var x := a[|a| - 1];
    assert a == a[..|a| - 1] + [x];
    assert multiset(a) == multiset(a[..|a| - 1]) + multiset{x};
    assert x in multiset(b);
    j :| 0 <= j < |b| && b[j] == x;
    assert b == b[..j] + [x] + b[j + 1..];
    assert multiset(b) == multiset(b[..j] + b[j + 1..]) + multiset{x};
    var m, m' := multiset(a[..|a| - 1]), multiset(b[..j] + b[j + 1..]);
    assert forall y :: m[y] == (m + multiset{x})[y] - multiset{x}[y] == m'[y];
  }

  lemma MapAppend<T, U>(a: seq<T>, b: seq<T>, f: T -> U)
    ensures Map(a + b, f) == Map(a, f) + Map(b, f)
  {
    MapPointwise(a + b, f);
    MapPointwise(a, f);
    MapPointwise(b, f);
    var l, r := Map(a + b, f), Map(a, f) + Map(b, f);
    assert |l| == |r|;
    forall k | 0 <= k < |l|
      ensures l[k] == r[k]
    {
      if k < |a| {
        assert (a + b)[k] == a[k];
      } else {
        assert (a + b)[k] == b[k - |a|];
      }
    }
  }

  /** Mapping around one element of a sequence. */
  lemma MapAt<T, U>(s: seq<T>, i: nat, f: T -> U)
    requires i < |s|
    ensures multiset(Map(s, f)) == multiset(Map(s[..i] + s[i + 1..], f)) + multiset{f(s[i])}
  {
    var l, m, r := s[..i], [s[i]], s[i + 1..];
    assert s[i..] == m + r;
    assert s == l + s[i..];
    MapAppend(l, m + r, f);
    MapAppend(m, r, f);
    MapAppend(l, r, f);
    var fl, fm, fr := Map(l, f), Map(m, f), Map(r, f);
    assert fm == [f(s[i])];
    assert multiset(Map(s, f)) == multiset(fl) + (multiset(fm) + multiset(fr));
    assert multiset(Map(l + r, f)) == multiset(fl) + multiset(fr);
  }

  /** Mapping a permutation gives a permutation. */
  lemma {:induction false} MapPermutation<T, U>(a: seq<T>, b: seq<T>, f: T -> U)
    requires multiset(a) == multiset(b)
    ensures multiset(Map(a, f)) == multiset(Map(b, f))
    decreases |a|
  {
    if |a| > 0 {
      var n := |a| - 1;
      var j := PermutationSplit(a, b);
      MapPermutation(a[..n], b[..j] + b[j + 1..], f);
      MapAt(a, n, f);
      assert a[..n] + a[n + 1..] == a[..n];
      MapAt(b, j, f);
    } else {
      assert b == [];
    }
  }
}
