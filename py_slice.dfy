/**
  Python's slice `s[start:stop]` (step 1) on a sequence, as numpy applies it
  to each axis of an array: a negative bound counts from the end, and a bound
  that is still out of range afterwards is clipped to the sequence.
 */
module PySlice {

  /** The position a slice bound denotes in a sequence of length n. */
  function Bound(i: int, n: nat): (r: nat)
    ensures r <= n
  {
    if i < 0 then (if i + n < 0 then 0 else i + n)
    else if i > n then n
    else i
  }

  /** `s[start:stop]`: empty when the normalised start is not before the normalised stop. */
  function Slice<T>(s: seq<T>, start: int, stop: int): (r: seq<T>)
    ensures |r| == if Bound(start, |s|) < Bound(stop, |s|) then Bound(stop, |s|) - Bound(start, |s|) else 0
    ensures forall k :: 0 <= k < |r| ==> Bound(start, |s|) + k < |s| && r[k] == s[Bound(start, |s|) + k]
  {
    var lo, hi := Bound(start, |s|), Bound(stop, |s|);
    if lo < hi then seq(hi - lo, k requires 0 <= k < hi - lo => s[lo + k]) else []
  }

  /** The k-th element of a slice, as one fact. */
  lemma SliceAt<T>(s: seq<T>, start: int, stop: int, k: int)
    requires 0 <= k < |Slice(s, start, stop)|
    ensures Bound(start, |s|) + k < |s| && Slice(s, start, stop)[k] == s[Bound(start, |s|) + k]
  {
  }

  /** Bounds that lie inside the sequence select exactly `stop - start` elements. */
  lemma SliceWithin<T>(s: seq<T>, start: int, stop: int)
    requires 0 <= start <= stop <= |s|
    ensures Slice(s, start, stop) == s[start..stop]
    ensures |Slice(s, start, stop)| == stop - start
  {
  }

  /** A stop past the end is clipped to the length of the sequence. */
  lemma SliceClipsStop<T>(s: seq<T>, start: int, stop: int)
    requires 0 <= start <= |s| <= stop
    ensures Slice(s, start, stop) == s[start..]
  {
  }

  /** A negative start counts from the end of the sequence, so with a stop inside
      the sequence the slice is usually empty rather than clipped to the front. */
  lemma SliceNegativeStart<T>(s: seq<T>, start: int, stop: int)
    requires -|s| <= start < 0 <= stop <= |s|
    ensures Slice(s, start, stop) == if |s| + start < stop then s[|s| + start..stop] else []
  {
  }

  /** A slice is empty exactly when the normalised bounds do not enclose anything. */
  lemma SliceEmpty<T>(s: seq<T>, start: int, stop: int)
    ensures Slice(s, start, stop) == [] <==> Bound(stop, |s|) <= Bound(start, |s|)
  {
  }
}
