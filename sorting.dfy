/** The numpy ordering helpers the result assembly relies on: a stable
    ascending argsort, the ascending sort it induces, and flip. */
module Sorting {

  /** 0, 1, ..., n - 1. */
  function Range(n: nat): (r: seq<int>)
    ensures |r| == n && forall k :: 0 <= k < n ==> r[k] == k
  {
    seq(n, k => k)
  }

  lemma RangeSnoc(m: nat)
    requires m > 0
    ensures Range(m) == Range(m - 1) + [m - 1]
  {
    var a, b := Range(m), Range(m - 1) + [m - 1];
    assert |a| == |b| && forall k :: 0 <= k < m ==> a[k] == b[k];
  }

  predicate Indices(o: seq<int>, n: int)
  {
    forall k :: 0 <= k < |o| ==> 0 <= o[k] < n
  }

  /** o lists indices into d in ascending order of key. */
  predicate SortedBy(d: seq<real>, o: seq<int>)
  {
    forall a, b :: 0 <= a < b < |o| && 0 <= o[a] < |d| && 0 <= o[b] < |d| ==> d[o[a]] <= d[o[b]]
  }

  /** Insert index i into the key-sorted o, after every index with a key no
      larger than d[i] (so equal keys keep their order). */
  function Insert(d: seq<real>, o: seq<int>, i: int): (r: seq<int>)
    requires 0 <= i < |d| && Indices(o, |d|)
    ensures |r| == |o| + 1 && Indices(r, |d|)
  {
    if |o| == 0 then [i]
    else if d[i] < d[o[0]] then [i] + o
    else [o[0]] + Insert(d, o[1..], i)
  }

  /** Insert adds i and keeps every index already placed. */
  lemma {:induction false} InsertPermutes(d: seq<real>, o: seq<int>, i: int)
    requires 0 <= i < |d| && Indices(o, |d|)
    ensures multiset(Insert(d, o, i)) == multiset(o) + multiset{i}
  {
    if |o| != 0 && d[o[0]] <= d[i] {
      InsertPermutes(d, o[1..], i);
      assert o == [o[0]] + o[1..];
    }
  }

  /** Insert keeps o sorted by key. */
  lemma {:induction false} InsertSorted(d: seq<real>, o: seq<int>, i: int)
    requires 0 <= i < |d| && Indices(o, |d|) && SortedBy(d, o)
    ensures SortedBy(d, Insert(d, o, i))
  {
    if |o| > 0 && d[o[0]] <= d[i] {
      InsertSorted(d, o[1..], i);
      InsertPermutes(d, o[1..], i);
      var t := Insert(d, o[1..], i);
      assert forall k :: 0 <= k < |t| ==> d[o[0]] <= d[t[k]] by {
        forall k | 0 <= k < |t|
          ensures d[o[0]] <= d[t[k]]
        {
          assert t[k] in multiset(t);
          assert t[k] == i || t[k] in multiset(o[1..]);
          if t[k] != i {
            var m :| 0 <= m < |o[1..]| && o[1..][m] == t[k];
            assert o[m + 1] == t[k];
          }
        }
      }
    }
  }

  /** An index whose key is at least every key already placed goes last. */
  lemma {:induction false} InsertLargest(d: seq<real>, o: seq<int>, i: int)
    requires 0 <= i < |d| && Indices(o, |d|)
    requires forall k :: 0 <= k < |o| ==> d[o[k]] <= d[i]
    ensures Insert(d, o, i) == o + [i]
  {
    if |o| > 0 {
      InsertLargest(d, o[1..], i);
      assert o == [o[0]] + o[1..];
    }
  }

  /** Insertion argsort of the first n keys of d. */
  function ArgSortPrefix(d: seq<real>, n: int): (o: seq<int>)
    requires 0 <= n <= |d|
    ensures |o| == n && Indices(o, |d|)
  {
    if n == 0 then [] else Insert(d, ArgSortPrefix(d, n - 1), n - 1)
  }

  lemma {:induction false} ArgSortPrefixPermutation(d: seq<real>, n: int)
    requires 0 <= n <= |d|
    ensures multiset(ArgSortPrefix(d, n)) == multiset(Range(n))
  {
    if n != 0 {
      ArgSortPrefixPermutation(d, n - 1);
      ArgSortPrefixPermutationStep(d, n);
    } else {
      assert ArgSortPrefix(d, n) == [] == Range(n);
    }
  }

  /** Sorting one more key adds its index to the permutation. */
  lemma ArgSortPrefixPermutationStep(d: seq<real>, n: int)
    requires 0 < n <= |d| && multiset(ArgSortPrefix(d, n - 1)) == multiset(Range(n - 1))
    ensures multiset(ArgSortPrefix(d, n)) == multiset(Range(n))
  {
    ArgSortPrefixAdds(d, n);
    RangeMultisetSnoc(n);
  }

  /** The n-th key's index joins the indices of the first n - 1. */
  lemma ArgSortPrefixAdds(d: seq<real>, n: int)
    requires 0 < n <= |d|
    ensures multiset(ArgSortPrefix(d, n)) == multiset(ArgSortPrefix(d, n - 1)) + multiset{n - 1}
  {
    InsertPermutes(d, ArgSortPrefix(d, n - 1), n - 1);
    ArgSortPrefixUnfold(d, n);
  }

  lemma ArgSortPrefixUnfold(d: seq<real>, n: int)
    requires 0 < n <= |d|
    ensures ArgSortPrefix(d, n) == Insert(d, ArgSortPrefix(d, n - 1), n - 1)
  {
  }

  lemma RangeMultisetSnoc(m: nat)
    requires m > 0
    ensures multiset(Range(m)) == multiset(Range(m - 1)) + multiset{m - 1}
  {
    RangeSnoc(m);
  }

  /** np.argsort: the indices of d in stable ascending order of key. */
  function ArgSort(d: seq<real>): (o: seq<int>)
    ensures |o| == |d| && Indices(o, |d|)
  {
    ArgSortPrefix(d, |d|)
  }

  lemma {:induction false} ArgSortPrefixSorted(d: seq<real>, n: int)
    requires 0 <= n <= |d|
    ensures SortedBy(d, ArgSortPrefix(d, n))
  {
    if n > 0 {
      ArgSortPrefixSorted(d, n - 1);
      InsertSorted(d, ArgSortPrefix(d, n - 1), n - 1);
    }
  }

  /** np.argsort orders the keys ascending and lists each index exactly once. */
  lemma ArgSortIsSortedPermutation(d: seq<real>)
    ensures SortedBy(d, ArgSort(d))
    ensures multiset(ArgSort(d)) == multiset(Range(|d|))
  {
    ArgSortPrefixSorted(d, |d|);
    ArgSortPrefixPermutation(d, |d|);
  }

  /** The keys of d picked out by the index list o. */
  function Gather(d: seq<real>, o: seq<int>): (g: seq<real>)
    requires Indices(o, |d|)
    ensures |g| == |o| && forall k :: 0 <= k < |o| ==> g[k] == d[o[k]]
  {
    seq(|o|, k requires 0 <= k < |o| => d[o[k]])
  }

  lemma {:induction false} GatherInsert(d: seq<real>, o: seq<int>, i: int)
    requires 0 <= i < |d| && Indices(o, |d|)
    ensures multiset(Gather(d, Insert(d, o, i))) == multiset(Gather(d, o)) + multiset{d[i]}
  {
    if |o| != 0 && d[o[0]] <= d[i] {
      GatherInsert(d, o[1..], i);
      GatherInsertBehind(d, o, i);
    } else {
      GatherInsertFront(d, o, i);
    }
  }

  /** Inserting in front adds d[i] to the gathered keys. */
  lemma GatherInsertFront(d: seq<real>, o: seq<int>, i: int)
    requires 0 <= i < |d| && Indices(o, |d|) && (|o| == 0 || d[i] < d[o[0]])
    ensures multiset(Gather(d, Insert(d, o, i))) == multiset(Gather(d, o)) + multiset{d[i]}
  {
    assert Insert(d, o, i) == [i] + o;
    GatherCons(d, i, o);
  }

  /** Inserting behind the head adds d[i] to the gathered keys when inserting
      into the tail does. */
  lemma GatherInsertBehind(d: seq<real>, o: seq<int>, i: int)
    requires 0 <= i < |d| && Indices(o, |d|) && |o| != 0 && d[o[0]] <= d[i]
    requires multiset(Gather(d, Insert(d, o[1..], i))) == multiset(Gather(d, o[1..])) + multiset{d[i]}
    ensures multiset(Gather(d, Insert(d, o, i))) == multiset(Gather(d, o)) + multiset{d[i]}
  {
    var t := Insert(d, o[1..], i);
    assert Insert(d, o, i) == [o[0]] + t;
    assert o == [o[0]] + o[1..];
    GatherConsBoth(d, o[0], o[1..], t, i);
  }

  /** Putting the same index in front of two index lists keeps the
      difference of their gathered keys. */
  lemma GatherConsBoth(d: seq<real>, h: int, o: seq<int>, t: seq<int>, i: int)
    requires 0 <= h < |d| && 0 <= i < |d| && Indices(o, |d|) && Indices(t, |d|)
    requires multiset(Gather(d, t)) == multiset(Gather(d, o)) + multiset{d[i]}
    ensures multiset(Gather(d, [h] + t)) == multiset(Gather(d, [h] + o)) + multiset{d[i]}
  {
    GatherConsMultiset(d, h, t);
    GatherConsMultiset(d, h, o);
  }

  lemma GatherConsMultiset(d: seq<real>, i: int, o: seq<int>)
    requires 0 <= i < |d| && Indices(o, |d|)
    ensures multiset(Gather(d, [i] + o)) == multiset{d[i]} + multiset(Gather(d, o))
  {
    GatherCons(d, i, o);
    assert multiset([d[i]] + Gather(d, o)) == multiset{d[i]} + multiset(Gather(d, o));
  }

  lemma GatherCons(d: seq<real>, i: int, o: seq<int>)
    requires 0 <= i < |d| && Indices(o, |d|)
    ensures Gather(d, [i] + o) == [d[i]] + Gather(d, o)
  {
  }

  lemma {:induction false} GatherArgSortPrefix(d: seq<real>, n: int)
    requires 0 <= n <= |d|
    ensures multiset(Gather(d, ArgSortPrefix(d, n))) == multiset(d[..n])
  {
    if n > 0 {
      var o := ArgSortPrefix(d, n - 1);
      GatherArgSortPrefix(d, n - 1);
      GatherInsert(d, o, n - 1);
      ArgSortPrefixUnfold(d, n);
      PrefixSnoc(d, n);
    }
  }

  lemma PrefixSnoc(d: seq<real>, n: int)
    requires 0 < n <= |d|
    ensures multiset(d[..n]) == multiset(d[..n - 1]) + multiset{d[n - 1]}
  {
    assert d[..n] == d[..n - 1] + [d[n - 1]];
  }

  /** np.sort: the keys of d in ascending order. */
  function SortAsc(d: seq<real>): (s: seq<real>)
    ensures |s| == |d|
  {
    Gather(d, ArgSort(d))
  }

  /** np.sort returns an ascending rearrangement of its input. */
  lemma SortAscIsSortedPermutation(d: seq<real>)
    ensures forall a, b :: 0 <= a < b < |d| ==> SortAsc(d)[a] <= SortAsc(d)[b]
    ensures multiset(SortAsc(d)) == multiset(d)
  {
    ArgSortPrefixSorted(d, |d|);
    GatherArgSortPrefix(d, |d|);
    assert d[..|d|] == d;
  }

  /** np.flip. */
  function Reverse<T>(s: seq<T>): (r: seq<T>)
    ensures |r| == |s| && forall k :: 0 <= k < |s| ==> r[k] == s[|s| - 1 - k]
  {
    seq(|s|, k requires 0 <= k < |s| => s[|s| - 1 - k])
  }

  /** Flipping twice gives the sequence back, and flipping keeps the elements. */
  lemma ReverseFacts<T>(s: seq<T>)
    ensures Reverse(Reverse(s)) == s
    ensures multiset(Reverse(s)) == multiset(s)
  {
    var r := Reverse(Reverse(s));
    assert |r| == |s| && forall k :: 0 <= k < |s| ==> r[k] == s[k];
    ReverseMultiset(s);
  }

  lemma {:induction false} ReverseMultiset<T>(s: seq<T>)
    ensures multiset(Reverse(s)) == multiset(s)
  {
    if |s| != 0 {
      ReverseMultiset(s[1..]);
      ReverseCons(s);
      assert s == [s[0]] + s[1..];
    }
  }

  lemma ReverseCons<T>(s: seq<T>)
    requires |s| != 0
    ensures Reverse(s) == Reverse(s[1..]) + [s[0]]
  {
    var a, b := Reverse(s), Reverse(s[1..]) + [s[0]];
    assert |a| == |b| && forall k :: 0 <= k < |s| ==> a[k] == b[k];
  }

  /** The keys 0.0, 1.0, ..., (n - 1) as reals. */
  function Iota(n: nat): (r: seq<real>)
    ensures |r| == n && forall k :: 0 <= k < n ==> r[k] == k as real
  {
    seq(n, k => k as real)
  }

  /** Arg-sorting keys that already ascend gives the identity order. */
  lemma {:induction false} ArgSortIotaPrefix(n: nat, m: nat)
    requires m <= n
    ensures ArgSortPrefix(Iota(n), m) == Range(m)
  {
    if m != 0 {
      ArgSortIotaPrefix(n, m - 1);
      IotaInsert(n, m);
    }
  }

  /** The next key of 0, 1, ..., n - 1 goes after all those placed before it. */
  lemma IotaInsert(n: nat, m: nat)
    requires 0 < m <= n && ArgSortPrefix(Iota(n), m - 1) == Range(m - 1)
    ensures ArgSortPrefix(Iota(n), m) == Range(m)
  {
    var d, o := Iota(n), Range(m - 1);
    assert forall k :: 0 <= k < |o| ==> d[o[k]] <= d[m - 1];
    ArgSortPrefixLargest(d, m, o);
    RangeSnoc(m);
  }

  /** A key at least as large as every key before it is placed last. */
  lemma ArgSortPrefixLargest(d: seq<real>, m: int, o: seq<int>)
    requires 0 < m <= |d| && ArgSortPrefix(d, m - 1) == o
    requires forall k :: 0 <= k < |o| ==> d[o[k]] <= d[m - 1]
    ensures ArgSortPrefix(d, m) == o + [m - 1]
  {
    InsertLargest(d, o, m - 1);
  }

  /** The flipped argsort of 0, 1, ..., n - 1 is n - 1, ..., 1, 0, whatever any
      other keys are. */
  lemma ReversedArgSortIota(n: nat)
    ensures Reverse(ArgSort(Iota(n))) == seq(n, k => n - 1 - k)
  {
    ArgSortIotaPrefix(n, n);
    var a, b := Reverse(Range(n)), seq(n, k => n - 1 - k);
    assert |a| == |b| && forall k :: 0 <= k < n ==> a[k] == b[k];
  }
}
