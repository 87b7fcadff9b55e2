/**
 * The part of import_data that is logic rather than I/O: the .csv suffix check, and the
 * split of the parsed two-column table into its time and voltage columns. Reading and
 * parsing the file (np.loadtxt) is not modelled; its result is the `table` parameter.
 */
module Loader {
  import opened Results

  /** The two index-aligned columns of a recording. */
  datatype Samples = Samples(time: seq<real>, voltage: seq<real>)

  const CsvSuffix: string := ".csv"

  /** Python's str.endswith: case-sensitive comparison of the tail. */
  predicate EndsWith(s: string, suffix: string)
  {
    |suffix| <= |s| && s[|s| - |suffix|..] == suffix
  }

  /** data[:, 0] */
  function TimeColumn(table: seq<(real, real)>): seq<real>
  {
    seq(|table|, i requires 0 <= i < |table| => table[i].0)
  }

  /** data[:, 1] */
  function VoltageColumn(table: seq<(real, real)>): seq<real>
  {
    seq(|table|, i requires 0 <= i < |table| => table[i].1)
  }

  /**
   * import_data: a path not ending in ".csv" is rejected whatever the file holds. A
   * table of no rows or one row fails at data[:, 0], because np.loadtxt returns a 1-D
   * array for it. Otherwise the columns of the parsed table are returned, row order kept.
   */
  function ImportData(filepath: string, table: seq<(real, real)>): (r: Result<Samples>)
    ensures r == Err(NotCsvFile) <==> !EndsWith(filepath, CsvSuffix)
    ensures EndsWith(filepath, CsvSuffix) && |table| == 0 ==> r == Err(EmptyRecording)
    ensures EndsWith(filepath, CsvSuffix) && |table| == 1 ==> r == Err(TooFewSamples)
    ensures r.Ok? <==> EndsWith(filepath, CsvSuffix) && |table| >= 2
    ensures r.Ok? ==> |r.value.time| == |r.value.voltage| == |table|
    ensures r.Ok? ==> forall i :: 0 <= i < |table| ==>
                        r.value.time[i] == table[i].0 && r.value.voltage[i] == table[i].1
  {
    if !EndsWith(filepath, CsvSuffix) then Err(NotCsvFile)
    else if |table| == 0 then Err(EmptyRecording)
    else if |table| == 1 then Err(TooFewSamples)
    else Ok(Samples(TimeColumn(table), VoltageColumn(table)))
  }

  /** Pairing the two returned columns back up gives the parsed table again. */
  lemma ImportDataZipsBack(filepath: string, table: seq<(real, real)>)
    ensures ImportData(filepath, table).Ok? ==>
            var s := ImportData(filepath, table).value;
            seq(|table|, i requires 0 <= i < |table| => (s.time[i], s.voltage[i])) == table
  {
  }

  /** The suffix check looks at the path only: it rejects before the table matters. */
  lemma RejectionIgnoresContents(filepath: string, table1: seq<(real, real)>, table2: seq<(real, real)>)
    ensures (ImportData(filepath, table1) == Err(NotCsvFile)) == (ImportData(filepath, table2) == Err(NotCsvFile))
  {
  }

  /** A path passes the check exactly when it is some string followed by ".csv". */
  lemma EndsWithCsvIff(filepath: string)
    ensures EndsWith(filepath, CsvSuffix) <==> exists stem :: filepath == stem + CsvSuffix
  {
    if EndsWith(filepath, CsvSuffix) {
      var stem := filepath[..|filepath| - 4];
      assert filepath == stem + CsvSuffix;
    }
    forall stem | filepath == stem + CsvSuffix
      ensures EndsWith(filepath, CsvSuffix)
    {
      assert filepath[|stem|..] == CsvSuffix;
    }
  }

  /**
   * The path used by main() passes the suffix check; other suffixes, upper case and a
   * bare "csv" do not.
   */
  lemma ImportDataExamples(table: seq<(real, real)>)
    ensures ImportData("test_data/test_data1.csv", table) != Err(NotCsvFile)
    ensures ImportData(".csv", table) != Err(NotCsvFile)
    ensures ImportData("test_data/test_data1.txt", table) == Err(NotCsvFile)
    ensures ImportData("test_data/test_data1.CSV", table) == Err(NotCsvFile)
    ensures ImportData("csv", table) == Err(NotCsvFile)
  {
    var p := "test_data/test_data1.csv";
    assert p[|p| - 4..] == CsvSuffix;
    var q := "test_data/test_data1.txt";
    assert q[|q| - 4..][1] != CsvSuffix[1];
    var u := "test_data/test_data1.CSV";
    assert u[|u| - 4..][1] != CsvSuffix[1];
  }
}
