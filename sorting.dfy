/** Python's sorted(): a stable sort of records by a real-valued key (as
    sorted(xs, key=lambda x: x["start"]) does), given as the order of the
    record indices, and a sort of str values. */
module Sorting {
  import opened Text

  // ---------------------------------------------------------------------------
  // Stable sort by a real key, as a permutation of the indices

  predicate IndicesBelow(o: seq<nat>, n: nat)
  {
    forall k :: 0 <= k < |o| ==> o[k] < n
  }

  /** Index i precedes index j in the stable order: a smaller key, or an equal
      key and an earlier position. */
  predicate Before(keys: seq<real>, i: nat, j: nat)
    requires i < |keys| && j < |keys|
  {
    keys[i] < keys[j] || (keys[i] == keys[j] && i < j)
  }

  predicate SortedByKey(keys: seq<real>, o: seq<nat>)
    requires IndicesBelow(o, |keys|)
  {
    forall a, b :: 0 <= a < b < |o| ==> Before(keys, o[a], o[b])
  }

  /** o lists every index below n exactly once. */
  predicate IsPermutation(o: seq<nat>, n: nat)
  {
    && |o| == n
    && IndicesBelow(o, n)
    && (forall a, b :: 0 <= a < b < |o| ==> o[a] != o[b])
    && (forall x :: 0 <= x < n ==> x in o)
  }

  /** Inserts index i, later than every index of o, after all indices whose key
      is not greater than keys[i]. */
  function InsertIndex(keys: seq<real>, o: seq<nat>, i: nat): (r: seq<nat>)
    requires i < |keys| && IndicesBelow(o, |keys|)
    ensures IndicesBelow(r, |keys|) && |r| == |o| + 1
    ensures forall x :: x in r <==> x in o || x == i
  {
    if o == [] then [i]
    else if keys[i] < keys[o[0]] then [i] + o
    else [o[0]] + InsertIndex(keys, o[1..], i)
  }

  lemma {:induction false} InsertIndexSorted(keys: seq<real>, o: seq<nat>, i: nat)
    requires i < |keys| && IndicesBelow(o, |keys|)
    requires SortedByKey(keys, o) && forall k :: 0 <= k < |o| ==> o[k] < i
    ensures SortedByKey(keys, InsertIndex(keys, o, i))
    decreases |o|
  {
    if o != [] && !(keys[i] < keys[o[0]]) {
      InsertIndexSorted(keys, o[1..], i);
      var r := InsertIndex(keys, o, i);
      var t := InsertIndex(keys, o[1..], i);
      assert r == [o[0]] + t;
      forall b | 0 < b < |r|
        ensures Before(keys, o[0], r[b])
      {
        assert r[b] == t[b - 1];
        assert r[b] in o[1..] || r[b] == i;
      }
    }
  }

  /** The stable order of the first n indices. */
  function StableOrderOf(keys: seq<real>, n: nat): (r: seq<nat>)
    requires n <= |keys|
    ensures |r| == n && IndicesBelow(r, |keys|) && IndicesBelow(r, n)
    ensures forall x: nat :: x in r <==> x < n
    ensures SortedByKey(keys, r)
  {
    if n == 0 then []
    else
      var o := StableOrderOf(keys, n - 1);
      InsertIndexSorted(keys, o, n - 1);
      var r := InsertIndex(keys, o, n - 1);
      assert forall k :: 0 <= k < |r| ==> r[k] in r;
      r
  }

  /** sorted(range(len(keys)), key=keys.__getitem__): the indices ordered by
      key, ties kept in their original order. */
  function StableOrder(keys: seq<real>): (o: seq<nat>)
    ensures IsPermutation(o, |keys|)
    ensures SortedByKey(keys, o)
  {
    var o := StableOrderOf(keys, |keys|);
    assert forall a, b :: 0 <= a < b < |o| ==> o[a] != o[b] by {
      forall a, b | 0 <= a < b < |o| ensures o[a] != o[b] { assert Before(keys, o[a], o[b]); }
    }
    o
  }

  /** The records taken in the given order of their indices. */
  function Gather<T>(s: seq<T>, o: seq<nat>): (r: seq<T>)
    requires IndicesBelow(o, |s|)
    ensures |r| == |o| && forall k :: 0 <= k < |o| ==> r[k] == s[o[k]]
  {
    seq(|o|, k requires 0 <= k < |o| => s[o[k]])
  }

  lemma {:induction false} GatherInsert<T>(s: seq<T>, keys: seq<real>, o: seq<nat>, i: nat)
    requires |keys| == |s| && i < |keys| && IndicesBelow(o, |keys|)
    ensures multiset(Gather(s, InsertIndex(keys, o, i))) == multiset(Gather(s, o)) + multiset{s[i]}
    decreases |o|
  {
    var r := InsertIndex(keys, o, i);
    if o == [] {
      assert Gather(s, r) == [s[i]];
    } else if keys[i] < keys[o[0]] {
      GatherCons(s, i, o);
    } else {
      var t := InsertIndex(keys, o[1..], i);
      GatherInsert(s, keys, o[1..], i);
      GatherCons(s, o[0], t);
      GatherCons(s, o[0], o[1..]);
      assert [o[0]] + o[1..] == o;
    }
  }

  lemma GatherCons<T>(s: seq<T>, x: nat, o: seq<nat>)
    requires x < |s| && IndicesBelow(o, |s|)
    ensures Gather(s, [x] + o) == [s[x]] + Gather(s, o)
  {
  }

  lemma {:induction false} GatherStableOrderOf<T>(s: seq<T>, keys: seq<real>, n: nat)
    requires |keys| == |s| && n <= |s|
    ensures multiset(Gather(s, StableOrderOf(keys, n))) == multiset(s[..n])
  {
    if n > 0 {
      var o := StableOrderOf(keys, n - 1);
      assert StableOrderOf(keys, n) == InsertIndex(keys, o, n - 1);
      GatherStableOrderOf(s, keys, n - 1);
      GatherInsert(s, keys, o, n - 1);
      PrefixSnoc(s, n);
    }
  }

  lemma PrefixSnoc<T>(s: seq<T>, n: nat)
    requires 0 < n <= |s|
    ensures multiset(s[..n]) == multiset(s[..n - 1]) + multiset{s[n - 1]}
  {
    assert s[..n] == s[..n - 1] + [s[n - 1]];
  }

  /** Sorting by key only reorders: the records are the same, with the same
      multiplicities. */
  lemma GatherStableOrderIsPermutation<T>(s: seq<T>, keys: seq<real>)
    requires |keys| == |s|
    ensures multiset(Gather(s, StableOrder(keys))) == multiset(s)
  {
    GatherStableOrderOf(s, keys, |s|);
    assert s[..|s|] == s;
  }

  predicate NonDecreasing(keys: seq<real>)
  {
    forall a, b :: 0 <= a < b < |keys| ==> keys[a] <= keys[b]
  }

  lemma {:induction false} InsertIndexLast(keys: seq<real>, o: seq<nat>, i: nat)
    requires i < |keys| && IndicesBelow(o, |keys|)
    requires forall k :: 0 <= k < |o| ==> keys[o[k]] <= keys[i]
    ensures InsertIndex(keys, o, i) == o + [i]
    decreases |o|
  {
    if o != [] {
      InsertIndexLast(keys, o[1..], i);
      assert o == [o[0]] + o[1..];
    }
  }

  lemma {:induction false} StableOrderOfSorted(keys: seq<real>, n: nat)
    requires n <= |keys| && NonDecreasing(keys)
    ensures StableOrderOf(keys, n) == seq(n, k => k)
  {
    if n > 0 {
      StableOrderOfSorted(keys, n - 1);
      var o := StableOrderOf(keys, n - 1);
      InsertIndexLast(keys, o, n - 1);
    }
  }

  /** Records already in key order stay where they are. */
  lemma StableOrderOfSortedIsIdentity(keys: seq<real>)
    requires NonDecreasing(keys)
    ensures StableOrder(keys) == seq(|keys|, k => k)
  {
    StableOrderOfSorted(keys, |keys|);
  }

  // ---------------------------------------------------------------------------
  // sorted() on a list of str

  /** Concatenation regroups; stated once so that callers need not reason
      about the elements. */
  lemma ConcatAssoc<T>(a: seq<T>, b: seq<T>, c: seq<T>)
    ensures a + b + c == a + (b + c)
  {
  }

  function Last<T>(s: seq<T>): T
    requires s != []
  {
    s[|s| - 1]
  }

  predicate Distinct<T(==)>(s: seq<T>)
  {
    forall i, j :: 0 <= i < j < |s| ==> s[i] != s[j]
  }

  /** The members of a set, each once, in whatever order iteration yields. */
  method Enumerate<T(==)>(s: set<T>) returns (xs: seq<T>)
    ensures Distinct(xs)
    ensures forall x :: x in xs <==> x in s
  {
    var rest := s;
    xs := [];
    while rest != {}
      invariant Distinct(xs)
      invariant forall x :: x in xs ==> x !in rest
      invariant forall x :: x in s <==> x in xs || x in rest
      decreases |rest|
    {
      var x :| x in rest;
      xs := xs + [x];
      rest := rest - {x};
    }
  }

  predicate StrictlySorted(s: seq<string>)
  {
    forall a, b :: 0 <= a < b < |s| ==> LexLess(s[a], s[b])
  }

  function InsertName(x: string, s: seq<string>): (r: seq<string>)
    ensures |r| == |s| + 1
    ensures forall y :: y in r <==> y in s || y == x
  {
    if s == [] then [x]
    else if LexLess(x, s[0]) then [x] + s
    else [s[0]] + InsertName(x, s[1..])
  }

  lemma {:induction false} InsertNameSorted(x: string, s: seq<string>)
    requires StrictlySorted(s) && x !in s
    ensures StrictlySorted(InsertName(x, s))
    decreases |s|
  {
    if s != [] {
      if LexLess(x, s[0]) {
        forall b | 0 <= b < |s| ensures LexLess(x, s[b]) {
          if b > 0 { LexTransitive(x, s[0], s[b]); }
        }
      } else {
        LexTotal(x, s[0]);
        InsertNameSorted(x, s[1..]);
        var r := InsertName(x, s);
        var t := InsertName(x, s[1..]);
        assert r == [s[0]] + t;
        forall b | 0 < b < |r| ensures LexLess(s[0], r[b]) {
          assert r[b] == t[b - 1];
          assert r[b] in s[1..] || r[b] == x;
        }
      }
    }
  }

  lemma StrictlySortedDistinct(s: seq<string>)
    requires StrictlySorted(s)
    ensures Distinct(s)
  {
    forall i, j | 0 <= i < j < |s| ensures s[i] != s[j] {
      LexIrreflexive(s[i]);
    }
  }

  /** sorted(names) for a list of distinct names, such as os.listdir returns. */
  function SortNames(s: seq<string>): (r: seq<string>)
    requires Distinct(s)
    ensures |r| == |s| && (forall y :: y in r <==> y in s)
    ensures StrictlySorted(r)
  {
    if s == [] then []
    else
      var t := SortNames(s[..|s| - 1]);
      assert s[|s| - 1] !in s[..|s| - 1];
      InsertNameSorted(s[|s| - 1], t);
      assert s == s[..|s| - 1] + [s[|s| - 1]];
      InsertName(s[|s| - 1], t)
  }

  /** A strictly sorted list is determined by its elements. */
  lemma {:induction false} StrictlySortedUnique(a: seq<string>, b: seq<string>)
    requires StrictlySorted(a) && StrictlySorted(b)
    requires forall x :: x in a <==> x in b
    ensures a == b
    decreases |a|
  {
    if a != [] { assert a[0] in b; }
    if b != [] { assert b[0] in a; }
    if a != [] && b != [] {
      if a[0] != b[0] {
        var i :| 0 <= i < |b| && b[i] == a[0];
        var j :| 0 <= j < |a| && a[j] == b[0];
        assert i > 0 && j > 0;
        assert LexLess(b[0], a[0]) && LexLess(a[0], b[0]);
        LexAsymmetric(a[0], b[0]);
      }
      assert a[0] == b[0];
      forall x ensures x in a[1..] <==> x in b[1..] {
        if x in a[1..] {
          var k :| 1 <= k < |a| && a[k] == x;
          LexIrreflexive(a[0]);
          assert x != b[0];
          assert x in a;
          var m :| 0 <= m < |b| && b[m] == x;
          assert b[1..][m - 1] == x;
        }
        if x in b[1..] {
          var k :| 1 <= k < |b| && b[k] == x;
          LexIrreflexive(b[0]);
          assert x != a[0];
          assert x in b;
          var m :| 0 <= m < |a| && a[m] == x;
          assert a[1..][m - 1] == x;
        }
      }
      StrictlySortedUnique(a[1..], b[1..]);
      assert a == [a[0]] + a[1..] && b == [b[0]] + b[1..];
    }
  }
}
