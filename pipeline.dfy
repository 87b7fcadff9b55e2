/**
 * main(): import, duration, sampling frequency, smoothing, voltage extremes,
 * correlation, peak times, beat count, rate and the metrics dictionary, as one
 * composition. The Savitzky-Golay filter (`smooth`) and the wavelet peak finder
 * (`findPeaks`) are given functions; the parsed file is the `table` parameter.
 * The exceptions the modelled steps raise become Err values, checked in the order
 * the steps run; what the opaque routines might raise is not modelled.
 */
module Pipeline {
  import opened Results
  import opened Numeric
  import opened Loader
  import opened Conditioner
  import opened Correlation
  import opened Beats
  import opened Metrics

  /** What a consumer may rely on in a successful run's record. */
  predicate Consistent(f: Fields)
  {
    && f.numBeats == |f.beats|
    && 0.0 < f.duration
    && f.meanHrBpm * f.duration == 60.0 * f.numBeats as real
    && 0.0 <= f.meanHrBpm
    && |f.voltageExtremes| == 2
    && f.voltageExtremes[0] <= f.voltageExtremes[1]
  }

  /** The table's time column is not constant: the first two times differ. */
  predicate FirstStepNonZero(table: seq<(real, real)>)
  {
    |table| >= 2 && table[1].0 != table[0].0
  }

  /**
   * The last three steps of main(): count the beats, compute the rate and build the
   * dictionary. Its fields read back as the given beats, extremes and duration, with
   * the count and rate a consumer can check against them.
   */
  function Report(beatTimes: seq<real>, both: seq<real>, dur: real): (metrics: map<string, MetricValue>)
    requires 0.0 < dur && |both| == 2 && both[0] <= both[1]
    ensures metrics.Keys == MetricKeys()
    ensures ReadMetrics(metrics).Some?
    ensures var f := ReadMetrics(metrics).value;
            f.beats == beatTimes && f.voltageExtremes == both && f.duration == dur && Consistent(f)
  {
    var numBeats := NumBeat(beatTimes);
    var bpm := CalcBpm(numBeats, dur);
    ReadCreatedMetrics(bpm, beatTimes, both, dur, numBeats);
    CreateMetrics(bpm, beatTimes, both, dur, numBeats)
  }

  /**
   * The template int(fs) selects from the smoothed voltages has at least two samples:
   * np.squeeze turns a one-sample template into a 0-d array, which np.correlate refuses
   * like an empty one.
   */
  predicate TemplateUsable(table: seq<(real, real)>, smooth: seq<real> -> seq<real>)
    requires FirstStepNonZero(table)
  {
    TemplateLength(|smooth(VoltageColumn(table))|, CalcSampleFreq(TimeColumn(table))) >= 2
  }

  /**
   * where_peaks scans the widths np.arange(1, int(fs)); find_peaks_cwt needs at least
   * one of them.
   */
  predicate PeakWidthsNonEmpty(table: seq<(real, real)>)
    requires FirstStepNonZero(table)
  {
    Arange(1, Trunc(CalcSampleFreq(TimeColumn(table)))) != []
  }

  /**
   * Once the template has two samples, the width list is empty exactly when time runs
   * backwards over the first step: fs is then negative, and so is int(fs).
   */
  lemma PeakWidthsNeedIncreasingTime(table: seq<(real, real)>, smooth: seq<real> -> seq<real>)
    requires FirstStepNonZero(table)
    ensures TemplateUsable(table, smooth) ==> (PeakWidthsNonEmpty(table) <==> table[0].0 < table[1].0)
  {
  }

  /**
   * The peak indices main() maps to beat times: the finder's peaks on the correlation
   * of the smoothed voltages against their own centred template.
   */
  function SignalPeaks(table: seq<(real, real)>, smooth: seq<real> -> seq<real>,
                       findPeaks: (seq<real>, seq<int>) -> seq<nat>): seq<nat>
    requires FirstStepNonZero(table) && TemplateUsable(table, smooth)
  {
    var time := TimeColumn(table);
    var fs := CalcSampleFreq(time);
    Peaks(CorrelateSignal(time, smooth(VoltageColumn(table)), fs), fs, findPeaks)
  }

  /**
   * main(): for a ".csv" path each failure is the one the first failing step raises,
   * in the order the steps run. A successful run yields the five-field dictionary whose
   * beats are the times of the finder's peaks on the correlation of the smoothed
   * voltages, whose count is the length of that list, whose rate times duration is
   * sixty times that count, and whose extremes and duration are those of the table's
   * columns.
   */
  function Run(filepath: string, table: seq<(real, real)>, smooth: seq<real> -> seq<real>,
               findPeaks: (seq<real>, seq<int>) -> seq<nat>): (r: Result<map<string, MetricValue>>)
    ensures !EndsWith(filepath, CsvSuffix) ==> r == Err(NotCsvFile)
    ensures EndsWith(filepath, CsvSuffix) && |table| == 0 ==> r == Err(EmptyRecording)
    ensures EndsWith(filepath, CsvSuffix) && |table| == 1 ==> r == Err(TooFewSamples)
    ensures EndsWith(filepath, CsvSuffix) && |table| >= 2 && table[1].0 == table[0].0 ==>
              r == Err(ZeroTimeStep)
    ensures EndsWith(filepath, CsvSuffix) && FirstStepNonZero(table) && !TemplateUsable(table, smooth) ==>
              r == Err(ShortTemplate)
    ensures EndsWith(filepath, CsvSuffix) && FirstStepNonZero(table) && TemplateUsable(table, smooth) &&
            !PeakWidthsNonEmpty(table) ==>
              r == Err(NoPeakWidths)
    ensures EndsWith(filepath, CsvSuffix) && FirstStepNonZero(table) && TemplateUsable(table, smooth) &&
            PeakWidthsNonEmpty(table) && !InRange(SignalPeaks(table, smooth, findPeaks), |table|) ==>
              r == Err(PeakOutOfRange)
    ensures r.Ok? ==> r.value.Keys == MetricKeys()
    ensures r.Ok? ==> ReadMetrics(r.value).Some? && Consistent(ReadMetrics(r.value).value)
    ensures r.Ok? ==> FirstStepNonZero(table) && TemplateUsable(table, smooth) && PeakWidthsNonEmpty(table)
    ensures r.Ok? ==> InRange(SignalPeaks(table, smooth, findPeaks), |table|) &&
                      ReadMetrics(r.value).value.beats == BeatTimes(TimeColumn(table), SignalPeaks(table, smooth, findPeaks))
    ensures r.Ok? ==> var f := ReadMetrics(r.value).value;
                      && f.voltageExtremes == FindMaxMinVolt(VoltageColumn(table))
                      && f.duration == CalcDuration(TimeColumn(table))
                      && forall k :: 0 <= k < |f.beats| ==> f.beats[k] in TimeColumn(table)
  {
    match ImportData(filepath, table)
    case Err(e) => Err(e)
    case Ok(samples) =>
      var time, voltage := samples.time, samples.voltage;
      if time[1] == time[0] then Err(ZeroTimeStep)
      else
        var dur := CalcDuration(time);
        assert 0.0 < dur by {
          assert time[1] - time[0] <= dur && time[0] - time[1] <= dur;
        }
        var fs := CalcSampleFreq(time);
        var filtered := smooth(voltage);
        var both := FindMaxMinVolt(voltage);
        if TemplateLength(|filtered|, fs) <= 1 then Err(ShortTemplate)
        else if Arange(1, Trunc(fs)) == [] then Err(NoPeakWidths)
        else
          var corr := CorrelateSignal(time, filtered, fs);
          if !InRange(Peaks(corr, fs, findPeaks), |time|) then Err(PeakOutOfRange)
          else
            Ok(Report(WherePeaks(time, corr, fs, findPeaks), both, dur))
  }

  /**
   * A run succeeds exactly when the path ends in ".csv", the table has two rows with
   * distinct first times, the template int(fs) selects has two samples or more, the
   * width list np.arange(1, int(fs)) is not empty, and every peak
   * the finder reports on the correlation is an index of the time column.
   */
  lemma RunSucceedsIff(filepath: string, table: seq<(real, real)>, smooth: seq<real> -> seq<real>,
                       findPeaks: (seq<real>, seq<int>) -> seq<nat>)
    ensures Run(filepath, table, smooth, findPeaks).Ok? <==>
      && EndsWith(filepath, CsvSuffix)
      && FirstStepNonZero(table)
      && TemplateUsable(table, smooth)
      && PeakWidthsNonEmpty(table)
      && InRange(SignalPeaks(table, smooth, findPeaks), |table|)
  {
  }

  /**
   * Times that run backwards, 2, 1, 0: fs is -1 and the template keeps two of the three
   * samples, but no peak widths are left for the finder.
   */
  lemma RunBackwardsTimeExample()
    ensures Run("a.csv", [(2.0, 1.0), (1.0, 5.0), (0.0, 2.0)], v => v, (c, w) => []) == Err(NoPeakWidths)
  {
  }

  /** Some row of the table has voltage v. */
  predicate IsSampleVoltage(table: seq<(real, real)>, v: real)
  {
    exists i :: 0 <= i < |table| && table[i].1 == v
  }

  /** In a successful run the voltage extremes are the least and greatest voltage of the table. */
  lemma RunExtremesBracketVoltages(filepath: string, table: seq<(real, real)>,
                                   smooth: seq<real> -> seq<real>,
                                   findPeaks: (seq<real>, seq<int>) -> seq<nat>)
    ensures var r := Run(filepath, table, smooth, findPeaks);
            r.Ok? ==>
              var both := ReadMetrics(r.value).value.voltageExtremes;
              && |both| == 2
              && IsSampleVoltage(table, both[0]) && IsSampleVoltage(table, both[1])
              && forall i :: 0 <= i < |table| ==> both[0] <= table[i].1 <= both[1]
  {
    var r := Run(filepath, table, smooth, findPeaks);
    if r.Ok? {
      VoltageBracket(table);
    }
  }

  /** FindMaxMinVolt's characterisation, restated over the rows of the table. */
  lemma VoltageBracket(table: seq<(real, real)>)
    requires |table| > 0
    ensures var both := FindMaxMinVolt(VoltageColumn(table));
            && IsSampleVoltage(table, both[0]) && IsSampleVoltage(table, both[1])
            && forall i :: 0 <= i < |table| ==> both[0] <= table[i].1 <= both[1]
  {
    var voltage := VoltageColumn(table);
    var both := FindMaxMinVolt(voltage);
    var a :| 0 <= a < |voltage| && voltage[a] == both[0];
    var b :| 0 <= b < |voltage| && voltage[b] == both[1];
    assert table[a].1 == both[0] && table[b].1 == both[1];
    forall i | 0 <= i < |table|
      ensures both[0] <= table[i].1 <= both[1]
    {
      assert voltage[i] == table[i].1;
    }
  }

  /** Some row of the table has time t. */
  predicate IsSampleTime(table: seq<(real, real)>, t: real)
  {
    exists i :: 0 <= i < |table| && table[i].0 == t
  }

  /** In a successful run every beat time is the time of some row of the table. */
  lemma RunBeatsAreSampleTimes(filepath: string, table: seq<(real, real)>,
                               smooth: seq<real> -> seq<real>,
                               findPeaks: (seq<real>, seq<int>) -> seq<nat>)
    ensures var r := Run(filepath, table, smooth, findPeaks);
            r.Ok? ==>
              var beats := ReadMetrics(r.value).value.beats;
              forall k :: 0 <= k < |beats| ==> IsSampleTime(table, beats[k])
  {
    var r := Run(filepath, table, smooth, findPeaks);
    if r.Ok? {
      ColumnMembers(table, ReadMetrics(r.value).value.beats);
    }
  }

  /** Membership in the time column means being the time of some table row. */
  lemma ColumnMembers(table: seq<(real, real)>, beats: seq<real>)
    requires forall k :: 0 <= k < |beats| ==> beats[k] in TimeColumn(table)
    ensures forall k :: 0 <= k < |beats| ==> IsSampleTime(table, beats[k])
  {
    var time := TimeColumn(table);
    forall k | 0 <= k < |beats|
      ensures IsSampleTime(table, beats[k])
    {
      var i :| 0 <= i < |time| && time[i] == beats[k];
      assert table[i].0 == beats[k];
    }
  }

  /** In a successful run the duration is the largest difference between two table times. */
  lemma RunDurationIsTimeSpread(filepath: string, table: seq<(real, real)>,
                                smooth: seq<real> -> seq<real>,
                                findPeaks: (seq<real>, seq<int>) -> seq<nat>)
    ensures var r := Run(filepath, table, smooth, findPeaks);
            r.Ok? ==>
              var dur := ReadMetrics(r.value).value.duration;
              && (forall i, j :: 0 <= i < |table| && 0 <= j < |table| ==> table[i].0 - table[j].0 <= dur)
              && (exists i, j :: 0 <= i < |table| && 0 <= j < |table| && table[i].0 - table[j].0 == dur)
  {
    var r := Run(filepath, table, smooth, findPeaks);
    if r.Ok? {
      TimeSpread(table);
    }
  }

  /** CalcDuration's characterisation, restated over the rows of the table. */
  lemma TimeSpread(table: seq<(real, real)>)
    requires |table| > 0
    ensures var dur := CalcDuration(TimeColumn(table));
            && (forall i, j :: 0 <= i < |table| && 0 <= j < |table| ==> table[i].0 - table[j].0 <= dur)
            && (exists i, j :: 0 <= i < |table| && 0 <= j < |table| && table[i].0 - table[j].0 == dur)
  {
    var time := TimeColumn(table);
    var dur := CalcDuration(time);
    forall i, j | 0 <= i < |table| && 0 <= j < |table|
      ensures table[i].0 - table[j].0 <= dur
    {
      assert time[i] == table[i].0 && time[j] == table[j].0;
    }
    var i, j :| 0 <= i < |time| && 0 <= j < |time| && time[i] - time[j] == dur;
    assert table[i].0 - table[j].0 == dur;
  }
}
