/**
  The numpy operations the depth addon orders its objects with: `np.argsort`
  (a permutation of the indices that sorts the values ascending), the
  reversal `[::-1]`, and fancy indexing `np.array(xs)[p]`.  The argsort is an
  insertion sort that keeps equal values in index order, as numpy's scalar
  quicksort does on arrays of up to 16 elements; the reversal then puts the
  later of two equal values first.
 */
module ArgSort {

  /** The indices 0, 1, ..., n-1, as `range(n)`. */
  function Range(n: nat): (r: seq<nat>)
    ensures |r| == n
    ensures forall i :: 0 <= i < n ==> r[i] == i
  {
    seq(n, i => i)
  }

  /** p lists each index below n exactly once. */
  predicate IsPermutation(p: seq<nat>, n: nat)
  {
    multiset(p) == multiset(Range(n))
  }

  /** Every entry of p indexes a sequence of length n. */
  predicate Indexes(p: seq<nat>, n: nat)
  {
    forall k :: 0 <= k < |p| ==> p[k] < n
  }

  /** The values of ds read along p are non-decreasing. */
  predicate AscendingAlong(ds: seq<int>, p: seq<nat>)
    requires Indexes(p, |ds|)
  {
    forall a, b :: 0 <= a < b < |p| ==> ds[p[a]] <= ds[p[b]]
  }

  /** The values of ds read along p are non-increasing. */
  predicate DescendingAlong(ds: seq<int>, p: seq<nat>)
    requires Indexes(p, |ds|)
  {
    forall a, b :: 0 <= a < b < |p| ==> ds[p[a]] >= ds[p[b]]
  }

  lemma PermutationIndexes(p: seq<nat>, n: nat)
    requires IsPermutation(p, n)
    ensures |p| == n && Indexes(p, n)
  {
    assert |p| == |multiset(p)| == |multiset(Range(n))| == n;
    forall k | 0 <= k < |p|
      ensures p[k] < n
    {
      assert p[k] in multiset(p);
      assert p[k] in multiset(Range(n));
      var i :| 0 <= i < n && Range(n)[i] == p[k];
    }
  }

  /** Every value of ds read along p is at least v. */
  predicate AtLeast(ds: seq<int>, p: seq<nat>, v: int)
    requires Indexes(p, |ds|)
  {
    forall k :: 0 <= k < |p| ==> v <= ds[p[k]]
  }

  /** Inserts index i into p before the first entry whose value is larger. */
  function Insert(ds: seq<int>, p: seq<nat>, i: nat): (r: seq<nat>)
    requires i < |ds| && Indexes(p, |ds|)
    ensures multiset(r) == multiset(p) + multiset{i}
    ensures Indexes(r, |ds|)
  {
    if p == [] || ds[i] < ds[p[0]] then [i] + p
    else
      assert p == [p[0]] + p[1..];
      [p[0]] + Insert(ds, p[1..], i)
  }

  /** A lower bound of p's values that is also below ds[i] bounds the insertion. */
  lemma {:induction false} InsertAtLeast(ds: seq<int>, p: seq<nat>, i: nat, v: int)
    requires i < |ds| && Indexes(p, |ds|)
    requires AtLeast(ds, p, v) && v <= ds[i]
    ensures AtLeast(ds, Insert(ds, p, i), v)
  {
    if !(p == [] || ds[i] < ds[p[0]]) {
      InsertAtLeast(ds, p[1..], i, v);
    }
  }

  /** Inserting into a sorted index sequence keeps it sorted. */
  lemma {:induction false} InsertSorted(ds: seq<int>, p: seq<nat>, i: nat)
    requires i < |ds| && Indexes(p, |ds|) && AscendingAlong(ds, p)
    ensures AscendingAlong(ds, Insert(ds, p, i))
  {
    if !(p == [] || ds[i] < ds[p[0]]) {
      assert AscendingAlong(ds, p[1..]);
      assert AtLeast(ds, p[1..], ds[p[0]]);
      InsertSorted(ds, p[1..], i);
      InsertAtLeast(ds, p[1..], i, ds[p[0]]);
    }
  }

  /** The indices below k, sorted by ds: insertion sort over range(k). */
  function SortPrefix(ds: seq<int>, k: nat): (r: seq<nat>)
    requires k <= |ds|
    ensures multiset(r) == multiset(Range(k))
    ensures Indexes(r, |ds|) && AscendingAlong(ds, r)
  {
    if k == 0 then []
    else
      var prior := SortPrefix(ds, k - 1);
      InsertNext(ds, prior, k);
      Insert(ds, prior, k - 1)
  }

  /** Inserting index k - 1 into a sorted arrangement of the indices below k - 1
      gives a sorted arrangement of the indices below k. */
  lemma InsertNext(ds: seq<int>, prior: seq<nat>, k: nat)
    requires 0 < k <= |ds| && Indexes(prior, |ds|) && AscendingAlong(ds, prior)
    requires multiset(prior) == multiset(Range(k - 1))
    ensures multiset(Insert(ds, prior, k - 1)) == multiset(Range(k))
    ensures AscendingAlong(ds, Insert(ds, prior, k - 1))
  {
    InsertSorted(ds, prior, k - 1);
    RangeSnoc(k);
  }

  lemma RangeSnoc(k: nat)
    requires k > 0
    ensures multiset(Range(k)) == multiset(Range(k - 1)) + multiset{(k - 1) as nat}
  {
    var a, b := Range(k), Range(k - 1) + [(k - 1) as nat];
    forall i | 0 <= i < k
      ensures a[i] == b[i]
    {
      if i < k - 1 {
        assert b[i] == Range(k - 1)[i];
      }
    }
    assert a == b;
  }

  /** `np.argsort(ds)`: a permutation of the indices that reads ds in ascending order. */
  function ArgSort(ds: seq<int>): (p: seq<nat>)
    ensures IsPermutation(p, |ds|)
    ensures |p| == |ds| && Indexes(p, |ds|) && AscendingAlong(ds, p)
  {
    var p := SortPrefix(ds, |ds|);
    PermutationIndexes(p, |ds|);
    p
  }

  /** `s[::-1]`. */
  function Reverse<T>(s: seq<T>): (r: seq<T>)
    ensures |r| == |s|
    ensures forall k :: 0 <= k < |s| ==> r[k] == s[|s| - 1 - k]
  {
    if s == [] then [] else Reverse(s[1..]) + [s[0]]
  }

  lemma {:induction false} ReverseMultiset<T>(s: seq<T>)
    ensures multiset(Reverse(s)) == multiset(s)
  {
    if s != [] {
      ReverseMultiset(s[1..]);
      assert s == [s[0]] + s[1..];
    }
  }

  /** `np.argsort(ds)[::-1]`: the permutation that reads ds from its largest value down. */
  function DescendingOrder(ds: seq<int>): (p: seq<nat>)
    ensures IsPermutation(p, |ds|)
    ensures |p| == |ds| && Indexes(p, |ds|) && DescendingAlong(ds, p)
  {
    var asc := ArgSort(ds);
    var p := Reverse(asc);
    ReverseMultiset(asc);
    p
  }

  /** Equal values of ds appear along p in increasing index order. */
  predicate TiesInOrder(ds: seq<int>, p: seq<nat>)
    requires Indexes(p, |ds|)
  {
    forall a, b :: 0 <= a < b < |p| && ds[p[a]] == ds[p[b]] ==> p[a] < p[b]
  }

  /** Every entry of p is below i. */
  predicate Below(p: seq<nat>, i: nat)
  {
    forall k :: 0 <= k < |p| ==> p[k] < i
  }

  /** Every entry of r with the value of index x comes after x. */
  predicate TieAfter(ds: seq<int>, x: nat, r: seq<nat>)
    requires x < |ds| && Indexes(r, |ds|)
  {
    forall b :: 0 <= b < |r| && ds[r[b]] == ds[x] ==> x < r[b]
  }

  lemma ConsTies(ds: seq<int>, x: nat, r: seq<nat>)
    requires x < |ds| && Indexes(r, |ds|)
    requires TiesInOrder(ds, r) && TieAfter(ds, x, r)
    ensures Indexes([x] + r, |ds|) && TiesInOrder(ds, [x] + r)
  {
  }

  /** Inserting an index above x keeps x before its equal values. */
  lemma {:induction false} InsertTieAfter(ds: seq<int>, t: seq<nat>, i: nat, x: nat)
    requires i < |ds| && x < i && Indexes(t, |ds|) && TieAfter(ds, x, t)
    ensures TieAfter(ds, x, Insert(ds, t, i))
  {
    if !(t == [] || ds[i] < ds[t[0]]) {
      assert TieAfter(ds, x, t[1..]);
      InsertTieAfter(ds, t[1..], i, x);
    }
  }

  /** Inserting an index above all of p behind its equal values keeps ties in order. */
  lemma {:induction false} InsertKeepsTies(ds: seq<int>, p: seq<nat>, i: nat)
    requires i < |ds| && Indexes(p, |ds|) && AscendingAlong(ds, p)
    requires TiesInOrder(ds, p) && Below(p, i)
    ensures TiesInOrder(ds, Insert(ds, p, i))
  {
    if p == [] || ds[i] < ds[p[0]] {
      assert TieAfter(ds, i, p);
      ConsTies(ds, i, p);
    } else {
      var t := p[1..];
      assert AscendingAlong(ds, t) && TiesInOrder(ds, t) && Below(t, i);
      assert TieAfter(ds, p[0], t);
      InsertKeepsTies(ds, t, i);
      InsertTieAfter(ds, t, i, p[0]);
      ConsTies(ds, p[0], Insert(ds, t, i));
    }
  }

  /** The entries of a permutation of range(k) are below k. */
  lemma RangeBelow(p: seq<nat>, k: nat)
    requires multiset(p) == multiset(Range(k))
    ensures Below(p, k)
  {
    forall j | 0 <= j < |p|
      ensures p[j] < k
    {
      assert p[j] in multiset(Range(k));
    }
  }

  /** The insertion step of the sort keeps ties in order. */
  lemma InsertNextKeepsTies(ds: seq<int>, prior: seq<nat>, k: nat)
    requires 0 < k <= |ds| && Indexes(prior, |ds|) && AscendingAlong(ds, prior)
    requires multiset(prior) == multiset(Range(k - 1)) && TiesInOrder(ds, prior)
    ensures TiesInOrder(ds, Insert(ds, prior, k - 1))
  {
    RangeBelow(prior, k - 1);
    InsertKeepsTies(ds, prior, k - 1);
  }

  /** The insertion sort keeps equal values in index order. */
  lemma {:induction false} SortPrefixKeepsTies(ds: seq<int>, k: nat)
    requires k <= |ds|
    ensures TiesInOrder(ds, SortPrefix(ds, k))
  {
    if k > 0 {
      SortPrefixKeepsTies(ds, k - 1);
      InsertNextKeepsTies(ds, SortPrefix(ds, k - 1), k);
    }
  }

  /** `np.argsort(ds)` lists equal values in index order, and `[::-1]` therefore
      lists them from the highest index down. */
  lemma DescendingOrderTies(ds: seq<int>)
    ensures TiesInOrder(ds, ArgSort(ds))
    ensures var p := DescendingOrder(ds);
      forall a, b :: 0 <= a < b < |p| && ds[p[a]] == ds[p[b]] ==> p[a] > p[b]
  {
    SortPrefixKeepsTies(ds, |ds|);
  }

  /** Fancy indexing `np.array(xs)[p]`. */
  function Permute<T>(xs: seq<T>, p: seq<nat>): (r: seq<T>)
    requires Indexes(p, |xs|)
    ensures |r| == |p|
    ensures forall k :: 0 <= k < |p| ==> r[k] == xs[p[k]]
  {
    seq(|p|, k requires 0 <= k < |p| => xs[p[k]])
  }

  /** Reading ds along its descending order gives its values from the largest down. */
  lemma DescendingOrderSorts(ds: seq<int>)
    ensures var s := Permute(ds, DescendingOrder(ds));
      |s| == |ds| && forall a, b :: 0 <= a < b < |s| ==> s[a] >= s[b]
  {
    var p := DescendingOrder(ds);
    assert DescendingAlong(ds, p);
  }

  lemma PermuteConcat<T>(xs: seq<T>, p: seq<nat>, q: seq<nat>)
    requires Indexes(p, |xs|) && Indexes(q, |xs|)
    ensures Indexes(p + q, |xs|)
    ensures Permute(xs, p + q) == Permute(xs, p) + Permute(xs, q)
  {
  }

  /** Taking one index out of q takes its element out of what q selects. */
  lemma PermuteDropOne<T>(xs: seq<T>, q: seq<nat>, j: nat)
    requires Indexes(q, |xs|) && j < |q|
    ensures Indexes(q[..j] + q[j + 1..], |xs|)
    ensures multiset(Permute(xs, q)) == multiset(Permute(xs, q[..j] + q[j + 1..])) + multiset{xs[q[j]]}
  {
    var a, b := q[..j], q[j + 1..];
    assert q == a + [q[j]] + b;
    PermuteConcat(xs, a, [q[j]]);
    PermuteConcat(xs, a + [q[j]], b);
    PermuteConcat(xs, a, b);
  }

  lemma MultisetRemove<T>(q: seq<T>, j: nat)
    requires j < |q|
    ensures multiset(q[..j] + q[j + 1..]) == multiset(q) - multiset{q[j]}
  {
    assert q == q[..j] + [q[j]] + q[j + 1..];
  }

  /** Taking entry j out of the index sequence q takes xs[q[j]] out of what q selects. */
  lemma DropOne<T>(xs: seq<T>, q: seq<nat>, j: nat) returns (q': seq<nat>)
    requires Indexes(q, |xs|) && j < |q|
    ensures |q'| == |q| - 1 && Indexes(q', |xs|)
    ensures multiset(q') == multiset(q) - multiset{q[j]}
    ensures multiset(Permute(xs, q)) == multiset(Permute(xs, q')) + multiset{xs[q[j]]}
  {
    q' := q[..j] + q[j + 1..];
    MultisetRemove(q, j);
    PermuteDropOne(xs, q, j);
  }

  /** Index sequences with the same entries select the same multiset of elements. */
  lemma {:induction false} PermuteSameEntries<T>(xs: seq<T>, p: seq<nat>, q: seq<nat>)
    requires Indexes(p, |xs|) && Indexes(q, |xs|)
    requires multiset(p) == multiset(q)
    ensures multiset(Permute(xs, p)) == multiset(Permute(xs, q))
    decreases |p|
  {
    if p == [] {
      assert |q| == |multiset(q)| == 0;
    } else {
      assert p[0] in multiset(q);
      var j :| 0 <= j < |q| && q[j] == p[0];
      var p' := DropOne(xs, p, 0);
      var q' := DropOne(xs, q, j);
      PermuteSameEntries(xs, p', q');
    }
  }

  /** Applying a permutation of the first n indices reorders the first n elements and keeps them all. */
  lemma PermutePrefixMultiset<T>(xs: seq<T>, p: seq<nat>, n: nat)
    requires n <= |xs| && IsPermutation(p, n)
    ensures Indexes(p, |xs|)
    ensures multiset(Permute(xs, p)) == multiset(xs[..n])
  {
    PermutationIndexes(p, n);
    PermuteSameEntries(xs, p, Range(n));
    assert Permute(xs, Range(n)) == xs[..n];
  }
}
