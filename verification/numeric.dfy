/**
 * The Python and numpy numeric built-ins the detectors rely on, over exact
 * reals and unbounded integers.
 */
module Numeric {

  /** `i` is `v` rounded toward zero: within 1 of `v`, on the same side of 0, and never farther from 0. */
  predicate TruncatesTo(v: real, i: int)
  {
    (v >= 0.0 ==> 0 <= i && i as real <= v < i as real + 1.0) &&
    (v < 0.0 ==> i <= 0 && i as real - 1.0 < v <= i as real)
  }

  /** Python's `int(r)` on a float: truncation toward zero (not the floor). */
  function Trunc(r: real): (i: int)
    ensures TruncatesTo(r, i)
  {
    if r >= 0.0 then r.Floor else -((-r).Floor)
  }

  /** `int()` has one answer: at most one integer truncates a given value. */
  lemma TruncUnique(v: real, i: int, j: int)
    requires TruncatesTo(v, i) && TruncatesTo(v, j)
    ensures i == j
  {
  }

  /** numpy's `argmax` on a non-empty vector: the first index that holds the maximum. */
  function ArgMax(s: seq<real>): (k: nat)
    requires |s| > 0
    ensures k < |s|
    ensures forall j :: 0 <= j < |s| ==> s[j] <= s[k]
    ensures forall j :: 0 <= j < k ==> s[j] < s[k]
    decreases |s|
  {
    if |s| == 1 then 0
    else
      var k := ArgMax(s[..|s| - 1]);
      if s[|s| - 1] > s[k] then |s| - 1 else k
  }

  /** Where a slice bound lands on an axis of length `n` (negative bounds count from the end). */
  function SliceBound(i: int, n: nat): (b: nat)
    ensures b <= n
    ensures 0 <= i <= n ==> b == i
    ensures i > n ==> b == n
    ensures -(n as int) <= i < 0 ==> b == i + n
    ensures i < -(n as int) ==> b == 0
  {
    if i < 0 then (if i + n < 0 then 0 else i + n)
    else if i > n then n
    else i
  }

  /** Number of elements `a[start:stop]` selects along an axis of length `n` (Python slicing, step 1). */
  function SliceLen(start: int, stop: int, n: nat): (len: nat)
    ensures len <= n
    ensures 0 <= start <= stop <= n ==> len == stop - start
    ensures 0 <= stop <= start ==> len == 0
    // A negative stop counts from the end of the axis.
    ensures 0 <= start <= n && -(n as int) <= stop < 0 ==>
              len == (if n + stop > start then n + stop - start else 0)
    ensures stop < -(n as int) ==> len == 0
  {
    var a := SliceBound(start, n);
    var b := SliceBound(stop, n);
    if b > a then b - a else 0
  }
}
