/**
 * Signal statistics of hrm_code.py: calc_duration, find_max_min_volt and
 * calc_sample_freq. The Savitzky-Golay filter_signal is not part of this module; the
 * pipeline receives it as a parameter.
 */
module Conditioner {
  import opened Numeric

  /**
   * calc_duration: max(time) - min(time), i.e. the largest difference between two
   * sample times. It is never negative and is zero exactly when all times coincide.
   */
  function CalcDuration(time: seq<real>): (dur: real)
    requires |time| > 0
    ensures 0.0 <= dur
    ensures forall i, j :: 0 <= i < |time| && 0 <= j < |time| ==> time[i] - time[j] <= dur
    ensures exists i, j :: 0 <= i < |time| && 0 <= j < |time| && time[i] - time[j] == dur
    ensures dur == 0.0 <==> forall i :: 0 <= i < |time| ==> time[i] == time[0]
  {
    Max(time) - Min(time)
  }

  /** For a strictly increasing time axis the duration is last time minus first time. */
  lemma DurationOfIncreasing(time: seq<real>)
    requires |time| > 0
    requires forall i, j :: 0 <= i < j < |time| ==> time[i] < time[j]
    ensures CalcDuration(time) == time[|time| - 1] - time[0]
  {
    var dur := CalcDuration(time);
    var i, j :| 0 <= i < |time| && 0 <= j < |time| && time[i] - time[j] == dur;
    assert time[i] <= time[|time| - 1] && time[0] <= time[j];
  }

  /** test_calc_duration */
  lemma DurationExample()
    ensures CalcDuration([0.0, 1.0, 2.0, 3.0, 4.3, 5.0, 6.0, 7.2]) == 7.2
  {
    DurationOfIncreasing([0.0, 1.0, 2.0, 3.0, 4.3, 5.0, 6.0, 7.2]);
  }

  /**
   * find_max_min_volt: the list [min, max] of the voltages. Both entries occur in the
   * voltages and every voltage lies between them.
   */
  function FindMaxMinVolt(voltage: seq<real>): (both: seq<real>)
    requires |voltage| > 0
    ensures |both| == 2
    ensures both[0] in voltage && both[1] in voltage
    ensures forall i :: 0 <= i < |voltage| ==> both[0] <= voltage[i] <= both[1]
  {
    [Min(voltage), Max(voltage)]
  }

  /** The two properties of FindMaxMinVolt determine the pair: no other pair has them. */
  lemma ExtremesAreUnique(voltage: seq<real>, lo: real, hi: real)
    requires |voltage| > 0
    requires lo in voltage && hi in voltage
    requires forall i :: 0 <= i < |voltage| ==> lo <= voltage[i] <= hi
    ensures FindMaxMinVolt(voltage) == [lo, hi]
  {
    var both := FindMaxMinVolt(voltage);
    var a :| 0 <= a < |voltage| && voltage[a] == both[0];
    var b :| 0 <= b < |voltage| && voltage[b] == both[1];
    var c :| 0 <= c < |voltage| && voltage[c] == lo;
    var d :| 0 <= d < |voltage| && voltage[d] == hi;
    assert lo <= voltage[a] && both[0] <= voltage[c];
    assert voltage[b] <= hi && voltage[d] <= both[1];
  }

  /** test_find_min_max_volt */
  lemma ExtremesExample()
    ensures FindMaxMinVolt([1.2, -0.3, 4.8, 0.0, -3.0]) == [-3.0, 4.8]
  {
    var v := [1.2, -0.3, 4.8, 0.0, -3.0];
    assert v[4] == -3.0 && v[2] == 4.8;
    ExtremesAreUnique(v, -3.0, 4.8);
  }

  /**
   * calc_sample_freq: the reciprocal of the first time step. It needs two samples
   * whose times differ.
   */
  function CalcSampleFreq(time: seq<real>): (fs: real)
    requires |time| >= 2 && time[1] != time[0]
    ensures fs * (time[1] - time[0]) == 1.0
    ensures fs != 0.0
    ensures time[0] < time[1] <==> 0.0 < fs
  {
    1.0 / (time[1] - time[0])
  }

  /** Only the first two samples matter: the rest of the time axis is never looked at. */
  lemma SampleFreqUsesFirstStepOnly(time: seq<real>, other: seq<real>)
    requires |time| >= 2 && |other| >= 2
    requires time[0] == other[0] && time[1] == other[1] && time[1] != time[0]
    ensures CalcSampleFreq(time) == CalcSampleFreq(other)
  {
  }

  /** test_calc_freq */
  lemma SampleFreqExample()
    ensures CalcSampleFreq([0.0, 0.5, 1.0, 1.5, 2.0]) == 2.0
  {
  }
}
