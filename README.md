# Heart-rate monitor core, modelled in Dafny

This project models `hrm_code.py`, a script that turns an ECG recording into summary
metrics. The recording is a two-column time/voltage CSV file. The script checks the
file's extension, computes the recording's duration, sampling frequency and voltage
extremes, and smooths the voltages. It then correlates the smoothed signal with a
one-second template (`int(fs)` samples) taken from its own start and finds the correlation's peaks. Each
peak becomes a beat time, and the script derives the beat count and the mean heart
rate. Last, it collects these into a dictionary with five fields.

Every function of the script is straight-line code with no loops that builds new
values and updates nothing in place, so every part of the model is a pure Dafny
function. Lemmas state what the script promises. Numbers are `real`, so the
arithmetic is exact. The two library routines are parameters of the pipeline: the
smoothing filter is `smooth` and the peak finder is `findPeaks`. The file's parsed
contents are the `table` parameter.

Modules, in pipeline order:

- `Results`: the errors the script raises, and the `Result` / `Option` types.
- `Numeric`: numpy's sum, mean, min and max. Also Python's `int()` on a float
  (truncation toward zero), the length of a `[0:stop]` slice, and `np.arange`.
- `Loader`: the `.csv` check of `import_data` and the split of the table into columns.
- `Conditioner`: `calc_duration`, `find_max_min_volt` and `calc_sample_freq`.
- `Correlation`: `correlate_signal`, and numpy's full-mode `np.correlate` written as a
  finite sum.
- `Beats`: the index-to-time step of `where_peaks`, plus `num_beat` and `calc_bpm`.
- `Metrics`: the dictionary built by `create_metrics`.
- `Pipeline`: `main` as one composition, `Run`.

`ImportData` and `Run` turn the exceptions of the modelled steps into `Err` values.
`Run`'s contract ties each one to its condition, checked in the order the steps run.
The failures of file reading and of the smoothing filter are not among them, and of
the peak finder's failures only the one caused by an empty width list is (see
"## Left out"). The modelled failures are:

- `NotCsvFile`: the path does not end in `.csv`.
- `EmptyRecording`: the table is empty, so `data[:, 0]` fails in `import_data`.
- `TooFewSamples`: the table has one row, so `data[:, 0]` fails in `import_data` on
  the 1-D array `np.loadtxt` returns for it.
- `ZeroTimeStep`: the first two times are equal. numpy then gives an infinite `fs`, and
  `int(fs)` fails in `correlate_signal`.
- `ShortTemplate`: `int(fs)` selects fewer than two samples for the template. An empty
  template makes `np.correlate` fail; a one-sample template is turned into a 0-d array
  by `np.squeeze`, which `np.correlate` refuses as well.
- `NoPeakWidths`: `int(fs)` is 1 or less, so the widths `np.arange(1, int(fs))` are
  empty and `find_peaks_cwt` fails reading the first one. Once the template has two
  samples, this happens exactly when time runs backwards over the first step.
- `PeakOutOfRange`: the finder reports a peak index past the time axis.

Notes on the code's behaviour:

- The only error the code raises itself is the `IOError` for a path without the
  `.csv` suffix. The other failures are raised by numpy or by Python indexing.
- The template length is `int(fs)`, which truncates toward zero, used as a Python slice
  stop. A stop of -1 or below therefore counts from the end of the signal.
- Beats are the peaks the wavelet finder reports on the correlation, mapped to times.
  The code has no threshold detector and logs no warnings about the computed values.

## Model

| member | source | states |
|---|---|---|
| `Loader.ImportData` | hrm_code.py:21-29 | the result is the IOError case exactly when the path does not end in ".csv"; for a ".csv" path an empty table and a one-row table give their IndexError cases; it succeeds exactly for a ".csv" path and two rows or more, and then the time and voltage columns have one entry per table row, in row order |
| `Loader.RejectionIgnoresContents` | hrm_code.py:21-24 | whether a path fails the suffix check does not depend on the file's contents, so that rejection happens before the file is read |
| `Loader.EndsWithCsvIff` | hrm_code.py:21 | a path passes the check if and only if it is some string followed by ".csv" |
| `Loader.ImportDataZipsBack` | hrm_code.py:26-29 | pairing the columns of a successful import back up gives the parsed table again |
| `Loader.ImportDataExamples` | hrm_code.py:188 | main's path "test_data/test_data1.csv" and ".csv" pass the suffix check; ".txt", upper-case ".CSV" and a bare "csv" are rejected |
| `Numeric.Min` | hrm_code.py:55 | np.amin: the result occurs in the sequence and no element is smaller |
| `Numeric.Max` | hrm_code.py:54 | np.amax: the result occurs in the sequence and no element is larger |
| `Numeric.CentredSumIsZero` | hrm_code.py:97 | the signal minus its mean sums to zero |
| `Numeric.Trunc` | hrm_code.py:98 | int(fs) truncates toward zero: the result lies within one of fs, on the side toward zero |
| `Numeric.SliceLength` | hrm_code.py:98 | a `[0:stop]` slice of n elements keeps exactly the indices before the stop, a negative stop counting from the end, and never more than n |
| `Numeric.Arange` | hrm_code.py:114 | np.arange(lo, hi) holds lo, lo + 1, ..., hi - 1, and is empty when hi <= lo |
| `Conditioner.CalcDuration` | hrm_code.py:41 | the duration is the largest difference between two sample times: it bounds every difference and is attained; it is never negative and is zero exactly when all times are equal |
| `Conditioner.DurationOfIncreasing` | hrm_code.py:41 | on a strictly increasing time axis the duration is last time minus first time |
| `Conditioner.DurationExample` | test_hrm_code.py:8-12 | the duration of [0, 1, 2, 3, 4.3, 5, 6, 7.2] is 7.2 |
| `Conditioner.FindMaxMinVolt` | hrm_code.py:54-57 | the result is a two-element list [min, max]; both entries occur among the voltages and every voltage lies between them |
| `Conditioner.ExtremesAreUnique` | hrm_code.py:54-57 | any pair with the properties of FindMaxMinVolt is the result, so those properties determine it |
| `Conditioner.ExtremesExample` | test_hrm_code.py:15-19 | [1.2, -0.3, 4.8, 0, -3] gives [-3, 4.8] |
| `Conditioner.CalcSampleFreq` | hrm_code.py:69 | fs times the first time step is 1, given two samples with distinct first times; fs is positive exactly when time increases over the first step |
| `Conditioner.SampleFreqUsesFirstStepOnly` | hrm_code.py:69 | two time axes that agree on their first two samples have the same sampling frequency |
| `Conditioner.SampleFreqExample` | test_hrm_code.py:22-26 | [0, 0.5, 1, 1.5, 2] gives 2 |
| `Correlation.LagSumIsInRangeSum` | hrm_code.py:99 | a zero-padded partial correlation sum equals the sum over only the in-range template indices |
| `Correlation.CorrelateIsInRangeSum` | hrm_code.py:99 | np.correlate 'full' has n + m - 1 entries; entry k is the sum of signal[j + k - (m - 1)] * template[j] over exactly the template indices j whose signal index is in range |
| `Correlation.CorrelateFirst` | hrm_code.py:99 | the first correlation entry is signal[0] * template[m - 1] |
| `Correlation.CorrelateLast` | hrm_code.py:99 | the last correlation entry is signal[n - 1] * template[0] |
| `Correlation.CorrelateZeroLag` | hrm_code.py:99 | entry m - 1 is the inner product of the template with the signal's first m samples |
| `Correlation.CorrelateUnitImpulse` | hrm_code.py:99 | np.correlate in full mode with the 1-D array [1] as second argument returns the first argument unchanged (a property of np.correlate itself; correlate_signal never passes a one-sample template, see ShortTemplate) |
| `Correlation.TemplateLength` | hrm_code.py:98 | the template is never longer than the signal |
| `Correlation.TemplateLengthNonNegative` | hrm_code.py:98 | for fs >= 0 the template has min(floor(fs), n) samples, it is empty exactly when fs < 1 or the signal is empty, and it has two samples or more exactly when fs >= 2 and the signal has two samples or more |
| `Correlation.TemplateLengthNegative` | hrm_code.py:98 | for -1 < fs < 0 the template is empty; for fs <= -1, int(fs) is a negative slice stop and the template ends that many samples before the end of the signal |
| `Correlation.TemplateIsCentredPrefix` | hrm_code.py:97-98 | template sample j is filtered[j] minus the mean of the whole filtered signal; a template spanning the whole signal sums to zero |
| `Correlation.CorrelateSignal` | hrm_code.py:97-100 | given a template of two samples or more, the result has n + m - 1 entries; entry k sums the raw filtered signal times the centred template over the in-range indices |
| `Correlation.CorrelateSignalIgnoresTime` | hrm_code.py:87-100 | the time argument has no effect on the correlation |
| `Correlation.CorrelationOutrunsSignal` | hrm_code.py:99 | with a template of two or more samples the correlation is longer than the time axis, so some correlation indices name no sample |
| `Beats.BeatTimes` | hrm_code.py:116 | time[peaks] has one entry per peak, in order, and entry k is the time at peak index k |
| `Beats.BeatTimesPreservesOrder` | hrm_code.py:116 | strictly increasing peaks on a strictly increasing time axis give strictly increasing beat times |
| `Beats.BeatTimesAppend` | hrm_code.py:116 | mapping a concatenation of peak lists gives the concatenation of the mapped lists |
| `Beats.BeatTimesExample` | test_hrm_code.py:31-35 | peaks [1, 3, 4] over [0, 0.5, ..., 3] give [0.5, 1.5, 2] |
| `Beats.WherePeaks` | hrm_code.py:114-118 | if every peak the finder reports for the widths np.arange(1, int(fs)) is below len(time), the beat times are the times of those peaks, in the same number and order |
| `Beats.CalcBpm` | hrm_code.py:144 | for a non-zero duration, rate times duration is 60 times the beat count; the rate is non-negative for a non-negative count and a positive duration |
| `Beats.BpmIsUnique` | hrm_code.py:144 | the rate is the only number whose product with the duration is 60 times the beat count |
| `Beats.BpmExample` | test_hrm_code.py:38-43 | 20 beats over a duration of 40 give 30 |
| `Metrics.MetricKeys` | hrm_code.py:162-168 | the dictionary's five field names are distinct |
| `Metrics.CreateMetrics` | hrm_code.py:162-169 | the dictionary has exactly the keys mean_hr_bpm, "voltage extremes", duration, num_beats and beats, each holding its argument unchanged |
| `Metrics.ReadCreatedMetrics` | hrm_code.py:162-169 | reading the five fields of a created dictionary gives back exactly the arguments |
| `Metrics.CreateFromReadMetrics` | hrm_code.py:162-169 | a dictionary with just the five keys, each of the right kind, is the one create_metrics builds from its fields |
| `Pipeline.Report` | hrm_code.py:196-198 | the record holds the given beats, extremes and duration; its count (num_beat, hrm_code.py:130) is the length of the beat list and its rate times its duration is 60 times the count |
| `Pipeline.Run` | hrm_code.py:187-198 | a non-csv path fails with the IOError case, and for a csv path each error is tied to its condition in step order (no rows, one row, equal first times, a template of fewer than two samples, an empty width list for the finder, out-of-range peak); a successful run yields a record with the five keys whose beats are the times of the finder's peaks on the correlation of the smoothed voltages, with count equal to the beat list's length, positive duration, rate times duration equal to 60 times the count, and the extremes and duration of the table's columns |
| `Pipeline.RunSucceedsIff` | hrm_code.py:189-195 | a run succeeds exactly when the path ends in ".csv", the first two sample times differ, int(fs) selects a template of two samples or more, the width list np.arange(1, int(fs)) is not empty, and every reported peak indexes the time axis |
| `Pipeline.PeakWidthsNeedIncreasingTime` | hrm_code.py:97-114 | once the template has two samples or more, the finder's width list is non-empty exactly when the first time step is positive |
| `Pipeline.RunBackwardsTimeExample` | hrm_code.py:187-198 | times 2, 1, 0 give fs = -1 and a two-sample template, and the run fails with the empty-width-list error |
| `Pipeline.RunExtremesBracketVoltages` | hrm_code.py:193 | the extremes of a successful run are voltages of the table, and every voltage lies between them |
| `Pipeline.RunBeatsAreSampleTimes` | hrm_code.py:195 | every beat of a successful run is the time of some table row |
| `Pipeline.RunDurationIsTimeSpread` | hrm_code.py:190 | the duration of a successful run is the largest difference between two table times, and it is attained |

## Left out

- File reading: `np.loadtxt` (hrm_code.py:26) is I/O. Its parsed table is the `table`
  parameter. Its failures are left out with it: FileNotFoundError for a missing file
  and ValueError for a non-numeric cell. The IndexError of `data[:, 0]`
  (hrm_code.py:27) for an empty or one-row file is modelled as `EmptyRecording` and
  `TooFewSamples`.
- `filter_signal` (hrm_code.py:83) is scipy's Savitzky-Golay filter, a floating-point
  library routine. It is the `smooth` parameter. Its own failure on fewer than 17
  samples is not modelled. The docstring says order 3 while the call passes 8; the
  model is not affected, because the filter is a parameter.
- `signal.find_peaks_cwt` (hrm_code.py:114) is scipy's wavelet peak finder. It is the
  `findPeaks` parameter. Its output is not assumed to be sorted or duplicate-free.
- `Pipeline.Run`: of the peak finder's own failures, only the empty width list is
  modelled (`NoPeakWidths`). Whatever else `find_peaks_cwt` might raise is not. An empty
  peak list also stays a success with zero beats and a rate of 0: scipy returns it as an
  empty float array, which `time[beats]` (hrm_code.py:116) may refuse as an index, and
  that depends on the scipy and numpy versions, which are not part of this model.
- `Pipeline.RunSucceedsIff`: its success condition carries the same gap. A run whose
  finder fails in some other way, or returns no peaks, counts as a success here.
- Logging setup (hrm_code.py:7-8), the `print` in `calc_bpm` (hrm_code.py:145) and the
  commented-out JSON writer (hrm_code.py:172-184) are output side effects.
- Floating point: rounding, inf and nan are not modelled. With numpy, `1/0.0` is inf
  and the failure surfaces later, at `int(fs)`; the model stops with `ZeroTimeStep`.
  A zero duration gives inf or nan from numpy; the model's `CalcBpm` requires a
  non-zero duration. `Run` never reaches a zero duration, because the first two
  times differ.
- `Conditioner.CalcDuration` and `Conditioner.FindMaxMinVolt` require a non-empty
  sequence, because numpy raises ValueError on an empty one. In `main` an empty file
  fails earlier, at `data[:, 0]`; `ImportData` reports it as `EmptyRecording`.
- `Conditioner.CalcSampleFreq` requires two samples with distinct first times, because
  `time[1]` raises IndexError on one sample. A one-row file already fails in
  `import_data` (`TooFewSamples`); `Run` reports equal first times as `ZeroTimeStep`.
- `test_num_beat` (test_hrm_code.py:29-35) calls a two-argument `num_beat` that no
  longer exists. The model follows the code's one-argument `num_beat`, and uses the
  test only as the example for the index-to-time step.
- Re-running the pipeline on identical input gives an identical record. This holds by
  construction, because every member is a function; no lemma states it.
