/** create_metrics: the result dictionary of one run, keyed by the five field names. */
module Metrics {
  import opened Results

  /** A value stored in the dictionary: a float, an int, or a list of floats. */
  datatype MetricValue = Number(x: real) | Count(n: int) | Numbers(xs: seq<real>)

  const MeanHrBpmKey: string := "mean_hr_bpm"
  const VoltageExtremesKey: string := "voltage extremes"
  const DurationKey: string := "duration"
  const NumBeatsKey: string := "num_beats"
  const BeatsKey: string := "beats"

  /** The field names of the dictionary. */
  function MetricKeys(): (keys: set<string>)
    ensures |keys| == 5
  {
    var keys := {MeanHrBpmKey, VoltageExtremesKey, DurationKey, NumBeatsKey, BeatsKey};
    assert |{MeanHrBpmKey, VoltageExtremesKey}| == 2;
    assert |{MeanHrBpmKey, VoltageExtremesKey, DurationKey}| == 3;
    assert |{MeanHrBpmKey, VoltageExtremesKey, DurationKey, NumBeatsKey}| == 4;
    keys
  }

  /**
   * create_metrics: a dictionary with exactly the five field names, each holding its
   * argument unchanged.
   */
  function CreateMetrics(bpm: real, beatTimes: seq<real>, both: seq<real>, dur: real,
                         numBeats: int): (metrics: map<string, MetricValue>)
    ensures metrics.Keys == MetricKeys()
    ensures metrics[MeanHrBpmKey] == Number(bpm)
    ensures metrics[VoltageExtremesKey] == Numbers(both)
    ensures metrics[DurationKey] == Number(dur)
    ensures metrics[NumBeatsKey] == Count(numBeats)
    ensures metrics[BeatsKey] == Numbers(beatTimes)
  {
    map[MeanHrBpmKey := Number(bpm), VoltageExtremesKey := Numbers(both),
        DurationKey := Number(dur), NumBeatsKey := Count(numBeats),
        BeatsKey := Numbers(beatTimes)]
  }

  /** The fields of a metrics dictionary, as a consumer of the record reads them. */
  datatype Fields = Fields(meanHrBpm: real, voltageExtremes: seq<real>, duration: real,
                           numBeats: int, beats: seq<real>)

  /** Reads the five fields back, or None when a field is missing or of the wrong kind. */
  function ReadMetrics(metrics: map<string, MetricValue>): Option<Fields>
  {
    if && MeanHrBpmKey in metrics && metrics[MeanHrBpmKey].Number?
       && VoltageExtremesKey in metrics && metrics[VoltageExtremesKey].Numbers?
       && DurationKey in metrics && metrics[DurationKey].Number?
       && NumBeatsKey in metrics && metrics[NumBeatsKey].Count?
       && BeatsKey in metrics && metrics[BeatsKey].Numbers?
    then Some(Fields(metrics[MeanHrBpmKey].x, metrics[VoltageExtremesKey].xs,
                     metrics[DurationKey].x, metrics[NumBeatsKey].n, metrics[BeatsKey].xs))
    else None
  }

  /** Reading a created dictionary gives back exactly the arguments. */
  lemma ReadCreatedMetrics(bpm: real, beatTimes: seq<real>, both: seq<real>, dur: real, numBeats: int)
    ensures ReadMetrics(CreateMetrics(bpm, beatTimes, both, dur, numBeats))
            == Some(Fields(bpm, both, dur, numBeats, beatTimes))
  {
  }

  /**
   * A dictionary with just the five keys, each of the right kind, is the one
   * create_metrics builds from its fields: the record carries nothing else.
   */
  lemma CreateFromReadMetrics(metrics: map<string, MetricValue>, f: Fields)
    requires metrics.Keys == MetricKeys() && ReadMetrics(metrics) == Some(f)
    ensures CreateMetrics(f.meanHrBpm, f.beats, f.voltageExtremes, f.duration, f.numBeats) == metrics
  {
    var created := CreateMetrics(f.meanHrBpm, f.beats, f.voltageExtremes, f.duration, f.numBeats);
    forall key | key in metrics
      ensures created[key] == metrics[key]
    {
    }
  }
}
