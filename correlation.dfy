/**
 * correlate_signal: the filtered signal is correlated, in numpy's 'full' mode, against
 * a template made of its first int(fs) mean-centred samples.
 */
module Correlation {
  import opened Numeric

  /**
   * One product of the full-mode correlation at output index k: signal sample
   * j + k - (|v| - 1) against template sample j, or zero where that signal index
   * falls outside the signal (numpy's zero padding).
   */
  function Term(a: seq<real>, v: seq<real>, k: int, j: nat): real
    requires j < |v|
  {
    var i := j + k - (|v| - 1);
    if 0 <= i < |a| then a[i] * v[j] else 0.0
  }

  /** Sum of Term over the template positions 0 .. upto - 1. */
  function LagSum(a: seq<real>, v: seq<real>, k: int, upto: nat): real
    requires upto <= |v|
  {
    if upto == 0 then 0.0 else LagSum(a, v, k, upto - 1) + Term(a, v, k, upto - 1)
  }

  /** np.correlate(a, v, 'full'); numpy raises ValueError when either argument is empty. */
  function Correlate(a: seq<real>, v: seq<real>): (c: seq<real>)
    requires |a| >= 1 && |v| >= 1
  {
    seq(|a| + |v| - 1, k requires 0 <= k < |a| + |v| - 1 => LagSum(a, v, k, |v|))
  }

  /** First template index whose partner signal index at output index k is in range. */
  function Lo(m: nat, k: int): int
  {
    if m - 1 - k > 0 then m - 1 - k else 0
  }

  /** One past the last template index whose partner signal index is in range. */
  function Hi(n: nat, m: nat, k: int): int
  {
    if n + m - 1 - k < m then n + m - 1 - k else m
  }

  /** Sum of a[j + k - (|v| - 1)] * v[j] over j in lo .. hi - 1, every index in range. */
  function InRangeSum(a: seq<real>, v: seq<real>, k: int, lo: nat, hi: nat): real
    requires lo <= hi <= |v|
    requires 0 <= lo + k - (|v| - 1) && hi + k - (|v| - 1) <= |a|
    decreases hi - lo
  {
    if hi == lo then 0.0
    else InRangeSum(a, v, k, lo, hi - 1) + a[hi - 1 + k - (|v| - 1)] * v[hi - 1]
  }

  /** Terms outside lo .. hi - 1 are zero, so a partial LagSum is a partial InRangeSum. */
  lemma {:induction false} LagSumIsInRangeSum(a: seq<real>, v: seq<real>, k: int, upto: nat)
    requires |a| >= 1 && |v| >= 1 && 0 <= k < |a| + |v| - 1 && upto <= |v|
    ensures var lo, hi := Lo(|v|, k), Hi(|a|, |v|, k);
            var top := if upto <= lo then lo else if upto <= hi then upto else hi;
            LagSum(a, v, k, upto) == InRangeSum(a, v, k, lo, top)
  {
    if upto > 0 {
      LagSumIsInRangeSum(a, v, k, upto - 1);
    }
  }

  /**
   * Entry k of the full-mode correlation is the sum of signal[j + k - (m - 1)] * template[j]
   * over exactly the template indices j whose signal index is in range; the output has
   * n + m - 1 entries.
   */
  lemma CorrelateIsInRangeSum(a: seq<real>, v: seq<real>, k: int)
    requires |a| >= 1 && |v| >= 1 && 0 <= k < |a| + |v| - 1
    ensures |Correlate(a, v)| == |a| + |v| - 1
    ensures Correlate(a, v)[k] == InRangeSum(a, v, k, Lo(|v|, k), Hi(|a|, |v|, k))
  {
    LagSumIsInRangeSum(a, v, k, |v|);
  }

  /** The first entry pairs the first signal sample with the last template sample. */
  lemma CorrelateFirst(a: seq<real>, v: seq<real>)
    requires |a| >= 1 && |v| >= 1
    ensures Correlate(a, v)[0] == a[0] * v[|v| - 1]
  {
    CorrelateIsInRangeSum(a, v, 0);
  }

  /** The last entry pairs the last signal sample with the first template sample. */
  lemma CorrelateLast(a: seq<real>, v: seq<real>)
    requires |a| >= 1 && |v| >= 1
    ensures Correlate(a, v)[|a| + |v| - 2] == a[|a| - 1] * v[0]
  {
    CorrelateIsInRangeSum(a, v, |a| + |v| - 2);
  }

  /** At zero lag every template index is in range and signal index equals template index. */
  lemma {:induction false} AlignedSumIsDot(a: seq<real>, v: seq<real>, h: nat)
    requires 1 <= |v| <= |a| && h <= |v|
    ensures InRangeSum(a, v, |v| - 1, 0, h) == Dot(a[..h], v[..h])
  {
    if h > 0 {
      AlignedSumIsDot(a, v, h - 1);
      assert a[..h][..h - 1] == a[..h - 1];
      assert v[..h][..h - 1] == v[..h - 1];
    }
  }

  /**
   * At zero lag (output index m - 1) a template no longer than the signal lies over the
   * signal's first m samples: the entry is their inner product with the template.
   */
  lemma CorrelateZeroLag(a: seq<real>, v: seq<real>)
    requires 1 <= |v| <= |a|
    ensures Correlate(a, v)[|v| - 1] == Dot(a[..|v|], v)
  {
    CorrelateIsInRangeSum(a, v, |v| - 1);
    AlignedSumIsDot(a, v, |v|);
    assert v[..|v|] == v;
  }

  /** Correlating against the one-sample template [1] returns the signal unchanged. */
  lemma CorrelateUnitImpulse(a: seq<real>)
    requires |a| >= 1
    ensures Correlate(a, [1.0]) == a
  {
    var c := Correlate(a, [1.0]);
    forall k | 0 <= k < |a|
      ensures c[k] == a[k]
    {
      CorrelateIsInRangeSum(a, [1.0], k);
    }
  }

  /** Number of samples in normalize[0:int(fs)] for a signal of n samples. */
  function TemplateLength(n: nat, fs: real): (m: nat)
    ensures m <= n
  {
    SliceLength(n, Trunc(fs))
  }

  /**
   * For a non-negative frequency the template holds min(floor(fs), n) samples; so it is
   * empty exactly when fs < 1 or the signal is empty, and has the two samples
   * correlate_signal needs exactly when fs >= 2 and the signal has two samples.
   */
  lemma TemplateLengthNonNegative(n: nat, fs: real)
    requires 0.0 <= fs
    ensures TemplateLength(n, fs) == (if fs.Floor <= n then fs.Floor else n)
    ensures TemplateLength(n, fs) == 0 <==> fs < 1.0 || n == 0
    ensures TemplateLength(n, fs) >= 2 <==> 2.0 <= fs && n >= 2
  {
  }

  /**
   * For a frequency of -1 or below int(fs) is a negative slice stop: the template is
   * the signal's centred samples up to |int(fs)| before its end. Between -1 and 0,
   * int(fs) is 0 and the template is empty.
   */
  lemma TemplateLengthNegative(n: nat, fs: real)
    requires fs < 0.0
    ensures -1.0 < fs ==> TemplateLength(n, fs) == 0
    ensures fs <= -1.0 ==> Trunc(fs) < 0
    ensures fs <= -1.0 ==> TemplateLength(n, fs) == (if Trunc(fs) + n >= 0 then Trunc(fs) + n else 0)
  {
  }

  /** normalize[0:int(fs)] with normalize = filtered_volt - np.mean(filtered_volt). */
  function Template(filtered: seq<real>, fs: real): seq<real>
    requires |filtered| > 0
  {
    Shift(filtered, Mean(filtered))[..TemplateLength(|filtered|, fs)]
  }

  /**
   * The template is a prefix of the mean-centred signal; when it spans the whole signal
   * its samples sum to zero.
   */
  lemma TemplateIsCentredPrefix(filtered: seq<real>, fs: real)
    requires |filtered| > 0
    ensures |Template(filtered, fs)| == TemplateLength(|filtered|, fs)
    ensures forall j :: 0 <= j < |Template(filtered, fs)| ==>
              Template(filtered, fs)[j] == filtered[j] - Mean(filtered)
    ensures TemplateLength(|filtered|, fs) == |filtered| ==> Sum(Template(filtered, fs)) == 0.0
  {
    if TemplateLength(|filtered|, fs) == |filtered| {
      var centred := Shift(filtered, Mean(filtered));
      assert centred[..|filtered|] == centred;
      CentredSumIsZero(filtered);
    }
  }

  /**
   * correlate_signal: the raw (not centred) filtered signal is correlated against the
   * centred template, giving n + m - 1 entries; entry k sums
   * filtered[j + k - (m - 1)] * (filtered[j] - mean) over the in-range template indices j.
   * The `time` argument is not used.
   */
  function CorrelateSignal(time: seq<real>, filtered: seq<real>, fs: real): (corr: seq<real>)
    requires TemplateLength(|filtered|, fs) >= 2
    ensures |corr| == |filtered| + TemplateLength(|filtered|, fs) - 1
    ensures var m := TemplateLength(|filtered|, fs);
            forall k :: 0 <= k < |corr| ==>
              corr[k] == InRangeSum(filtered, Template(filtered, fs), k, Lo(m, k), Hi(|filtered|, m, k))
  {
    var corr := Correlate(filtered, Template(filtered, fs));
    assert forall k :: 0 <= k < |corr| ==>
      corr[k] == InRangeSum(filtered, Template(filtered, fs), k,
                            Lo(TemplateLength(|filtered|, fs), k),
                            Hi(|filtered|, TemplateLength(|filtered|, fs), k)) by {
      forall k | 0 <= k < |corr|
        ensures corr[k] == InRangeSum(filtered, Template(filtered, fs), k,
                                      Lo(TemplateLength(|filtered|, fs), k),
                                      Hi(|filtered|, TemplateLength(|filtered|, fs), k))
      {
        CorrelateIsInRangeSum(filtered, Template(filtered, fs), k);
      }
    }
    corr
  }

  /** The time axis passed to correlate_signal has no effect on the result. */
  lemma CorrelateSignalIgnoresTime(t1: seq<real>, t2: seq<real>, filtered: seq<real>, fs: real)
    requires TemplateLength(|filtered|, fs) >= 2
    ensures CorrelateSignal(t1, filtered, fs) == CorrelateSignal(t2, filtered, fs)
  {
  }

  /**
   * When the template has two or more samples the correlation is longer than the
   * signal: its last m - 1 indices name no sample of a time axis as long as the signal.
   */
  lemma CorrelationOutrunsSignal(time: seq<real>, filtered: seq<real>, fs: real)
    requires |time| == |filtered| && TemplateLength(|filtered|, fs) >= 2
    ensures |CorrelateSignal(time, filtered, fs)| > |time|
  {
  }
}
