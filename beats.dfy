/**
 * From correlation peaks to beats: the index-to-time step of where_peaks, num_beat and
 * calc_bpm. The wavelet peak finder (signal.find_peaks_cwt) is a parameter.
 */
module Beats {
  import opened Numeric

  /** Every peak index names a sample of a time axis of n samples. */
  predicate InRange(peaks: seq<nat>, n: nat)
  {
    forall k :: 0 <= k < |peaks| ==> peaks[k] < n
  }

  /** numpy's fancy indexing time[peaks]: the time of each peak, in the order given. */
  function BeatTimes(time: seq<real>, peaks: seq<nat>): (r: seq<real>)
    requires InRange(peaks, |time|)
    ensures |r| == |peaks|
    ensures forall k :: 0 <= k < |peaks| ==> r[k] == time[peaks[k]]
  {
    if |peaks| == 0 then [] else [time[peaks[0]]] + BeatTimes(time, peaks[1..])
  }

  /** The mapping preserves order: increasing peaks on an increasing time axis give increasing times. */
  lemma BeatTimesPreservesOrder(time: seq<real>, peaks: seq<nat>)
    requires InRange(peaks, |time|)
    requires forall i, j :: 0 <= i < j < |time| ==> time[i] < time[j]
    requires forall i, j :: 0 <= i < j < |peaks| ==> peaks[i] < peaks[j]
    ensures var r := BeatTimes(time, peaks);
            forall i, j :: 0 <= i < j < |r| ==> r[i] < r[j]
  {
  }

  /** Mapping a concatenation of peak lists is the concatenation of the mappings. */
  lemma BeatTimesAppend(time: seq<real>, p: seq<nat>, q: seq<nat>)
    requires InRange(p, |time|) && InRange(q, |time|)
    ensures InRange(p + q, |time|)
    ensures BeatTimes(time, p + q) == BeatTimes(time, p) + BeatTimes(time, q)
  {
    assert InRange(p + q, |time|) by {
      forall k | 0 <= k < |p + q|
        ensures (p + q)[k] < |time|
      {
        if k >= |p| {
          assert (p + q)[k] == q[k - |p|];
        }
      }
    }
  }

  /** test_num_beat, read as the mapping step: peaks [1, 3, 4] give times [0.5, 1.5, 2]. */
  lemma BeatTimesExample()
    ensures BeatTimes([0.0, 0.5, 1.0, 1.5, 2.0, 2.5, 3.0], [1, 3, 4]) == [0.5, 1.5, 2.0]
  {
  }

  /** The peaks find_peaks_cwt reports for corr when scanning widths np.arange(1, int(fs)). */
  function Peaks(corr: seq<real>, fs: real, findPeaks: (seq<real>, seq<int>) -> seq<nat>): seq<nat>
  {
    findPeaks(corr, Arange(1, Trunc(fs)))
  }

  /**
   * where_peaks: the time of every reported peak, in the finder's order. time[peaks]
   * raises IndexError unless every peak index is below len(time), although the indices
   * come from the longer correlation sequence.
   */
  function WherePeaks(time: seq<real>, corr: seq<real>, fs: real,
                      findPeaks: (seq<real>, seq<int>) -> seq<nat>): (beatTimes: seq<real>)
    requires InRange(Peaks(corr, fs, findPeaks), |time|)
    ensures |beatTimes| == |Peaks(corr, fs, findPeaks)|
    ensures forall k :: 0 <= k < |beatTimes| ==> beatTimes[k] == time[Peaks(corr, fs, findPeaks)[k]]
    ensures forall k :: 0 <= k < |beatTimes| ==> beatTimes[k] in time
  {
    BeatTimes(time, Peaks(corr, fs, findPeaks))
  }

  /** num_beat: the number of beats is the length of the beat list. */
  function NumBeat(beatTimes: seq<real>): (numBeats: nat)
  {
    |beatTimes|
  }

  /**
   * calc_bpm: num_beats / (dur / 60). The rate times the duration is sixty times the
   * beat count; the duration must not be zero.
   */
  function CalcBpm(numBeats: int, dur: real): (bpm: real)
    requires dur != 0.0
    ensures bpm * dur == 60.0 * numBeats as real
    ensures 0 <= numBeats && 0.0 < dur ==> 0.0 <= bpm
  {
    numBeats as real / (dur / 60.0)
  }

  /** The rate is the only number that satisfies bpm * dur == 60 * num_beats. */
  lemma BpmIsUnique(numBeats: int, dur: real, bpm: real)
    requires dur != 0.0 && bpm * dur == 60.0 * numBeats as real
    ensures CalcBpm(numBeats, dur) == bpm
  {
    var r := CalcBpm(numBeats, dur);
    assert (r - bpm) * dur == 0.0;
  }

  /** test_calc_bpm */
  lemma BpmExample()
    ensures CalcBpm(20, 40.0) == 30.0
  {
  }
}
