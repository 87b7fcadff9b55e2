/**
 * Exact-arithmetic counterparts of the numpy reductions and the Python conversions
 * the monitor relies on. Every number is a `real`: rounding is not modelled.
 */
module Numeric {

  /** np.sum, folded from the front. */
  function Sum(s: seq<real>): real
  {
    if |s| == 0 then 0.0 else s[0] + Sum(s[1..])
  }

  /** np.mean; numpy answers nan for an empty array, which is excluded here. */
  function Mean(s: seq<real>): real
    requires |s| > 0
  {
    Sum(s) / |s| as real
  }

  /** Element-wise `s - c`, numpy's broadcast subtraction of a scalar. */
  function Shift(s: seq<real>, c: real): seq<real>
  {
    seq(|s|, i requires 0 <= i < |s| => s[i] - c)
  }

  /** Subtracting c from every element lowers the sum by n * c. */
  lemma {:induction false} SumShift(s: seq<real>, c: real)
    ensures Sum(Shift(s, c)) == Sum(s) - |s| as real * c
  {
    if |s| > 0 {
      assert Shift(s, c)[1..] == Shift(s[1..], c);
      SumShift(s[1..], c);
    }
  }

  /** Subtracting the mean leaves a sequence that sums to zero. */
  lemma CentredSumIsZero(s: seq<real>)
    requires |s| > 0
    ensures Sum(Shift(s, Mean(s))) == 0.0
  {
    SumShift(s, Mean(s));
    var n := |s| as real;
    assert n * (Sum(s) / n) == Sum(s);
  }

  /** np.amin: the least element, which occurs in the sequence. */
  function Min(s: seq<real>): (m: real)
    requires |s| > 0
    ensures m in s
    ensures forall i :: 0 <= i < |s| ==> m <= s[i]
  {
    if |s| == 1 then s[0]
    else
      var rest := Min(s[1..]);
      if s[0] <= rest then s[0] else rest
  }

  /** np.amax: the greatest element, which occurs in the sequence. */
  function Max(s: seq<real>): (m: real)
    requires |s| > 0
    ensures m in s
    ensures forall i :: 0 <= i < |s| ==> s[i] <= m
  {
    if |s| == 1 then s[0]
    else
      var rest := Max(s[1..]);
      if s[0] >= rest then s[0] else rest
  }

  /** Inner product of two sequences of equal length, summed from the back. */
  function Dot(a: seq<real>, b: seq<real>): real
    requires |a| == |b|
  {
    if |a| == 0 then 0.0 else Dot(a[..|a| - 1], b[..|b| - 1]) + a[|a| - 1] * b[|b| - 1]
  }

  /** Python's int() on a float: truncation toward zero. */
  function Trunc(x: real): (r: int)
    ensures 0.0 <= x ==> r as real <= x < r as real + 1.0
    ensures x < 0.0 ==> r as real - 1.0 < x <= r as real
  {
    if x >= 0.0 then x.Floor else -((-x).Floor)
  }

  /** Python's slice rule: index i comes before the stop, a negative stop counting from the end. */
  predicate BeforeStop(n: nat, stop: int, i: int)
  {
    i < (if stop < 0 then n + stop else stop)
  }

  /**
   * Length of the Python slice `s[0:stop]` of a sequence of length n. The slice keeps
   * exactly the indices below the stop, where a negative stop counts from the end.
   */
  function SliceLength(n: nat, stop: int): (r: nat)
    ensures r <= n
    ensures forall i :: 0 <= i < n ==> (i < r <==> BeforeStop(n, stop, i))
  {
    if stop >= 0 then (if stop <= n then stop else n)
    else if n + stop >= 0 then n + stop
    else 0
  }

  /** np.arange(lo, hi) over integers. */
  function Arange(lo: int, hi: int): (r: seq<int>)
    ensures |r| == (if lo <= hi then hi - lo else 0)
    ensures forall i :: 0 <= i < |r| ==> r[i] == lo + i
    decreases hi - lo
  {
    if lo < hi then [lo] + Arange(lo + 1, hi) else []
  }
}
