/** Failure values of the heart-rate monitor: the exceptions its functions raise. */
module Results {

  /** Why a run of the monitor stops early. */
  datatype Error =
    | NotCsvFile      // import_data raises IOError for a path without the .csv suffix
    | EmptyRecording  // no rows: data[:, 0] raises IndexError in import_data
    | TooFewSamples   // one row: data[:, 0] raises IndexError in import_data on the 1-D
                      // array np.loadtxt returns for it
    | ZeroTimeStep    // equal first two times: 1/(time[1]-time[0]) is inf under numpy,
                      // and int(fs) then raises OverflowError in correlate_signal
    | ShortTemplate   // the template slice has fewer than two samples: np.correlate
                      // raises ValueError on an empty one, and on a one-sample one, which
                      // np.squeeze has turned into a 0-d array
    | NoPeakWidths    // int(fs) <= 1 leaves np.arange(1, int(fs)) empty, and
                      // find_peaks_cwt raises IndexError reading its first width
    | PeakOutOfRange  // time[peaks] raises IndexError for a peak index past the last sample

  datatype Result<T> = Ok(value: T) | Err(error: Error)

  datatype Option<T> = None | Some(value: T)
}
