/** The records the loaders read out of the discovered log files: each file
    is split into lines, empty lines are dropped, each line is parsed and
    validated, and a line that fails either step is skipped. */
module LogRecords {
  import opened Wrappers
  import opened Strings
  import opened Json
  import opened Validation
  import opened Types

  /** A discovered `.jsonl` file: its path relative to the `projects`
      directory, already split into segments, and its lines. */
  datatype LogFile = LogFile(parts: seq<string>, lines: seq<string>)

  /** `.filter((line) => line.length > 0)`. */
  function NonEmptyLines(lines: seq<string>): (r: seq<string>)
    ensures forall i | 0 <= i < |r| :: r[i] != ""
    ensures forall l :: l in r <==> l in lines && l != ""
    decreases |lines|
  {
    if lines == [] then []
    else NonEmptyLines(lines[..|lines| - 1]) + (if lines[|lines| - 1] == "" then [] else [lines[|lines| - 1]])
  }

  lemma {:induction false} NonEmptyLinesAppend(a: seq<string>, b: seq<string>)
    ensures NonEmptyLines(a + b) == NonEmptyLines(a) + NonEmptyLines(b)
    decreases |b|
  {
    if b == [] {
      assert a + b == a;
    } else {
      var b' := b[..|b| - 1];
      assert (a + b)[..|a + b| - 1] == a + b';
      NonEmptyLinesAppend(a, b');
    }
  }

  /** Lines that are all non-empty pass the filter unchanged, in order;
      with `NonEmptyLinesAppend` this fixes the filter on every input. */
  lemma {:induction false} NonEmptyLinesKeepsNonEmpty(lines: seq<string>)
    requires forall i | 0 <= i < |lines| :: lines[i] != ""
    ensures NonEmptyLines(lines) == lines
    decreases |lines|
  {
    if lines != [] {
      NonEmptyLinesKeepsNonEmpty(lines[..|lines| - 1]);
      assert lines == lines[..|lines| - 1] + [lines[|lines| - 1]];
    }
  }

  /** The record on one line: `JSON.parse` (the parameter `parse`, `None`
      where it throws) followed by `validateUsageData`. */
  function LineRecord(line: string, parse: string -> Option<Json>): Option<UsageData> {
    match parse(line)
    case None => None
    case Some(v) => ValidateUsageData(v)
  }

  /** The valid records of a sequence of (non-empty) lines, in line order. */
  function LineRecords(lines: seq<string>, parse: string -> Option<Json>): seq<UsageData>
    decreases |lines|
  {
    if lines == [] then []
    else
      var last := LineRecord(lines[|lines| - 1], parse);
      LineRecords(lines[..|lines| - 1], parse) + (if last.Some? then [last.value] else [])
  }

  lemma {:induction false} LineRecordsAppend(a: seq<string>, b: seq<string>, parse: string -> Option<Json>)
    ensures LineRecords(a + b, parse) == LineRecords(a, parse) + LineRecords(b, parse)
    decreases |b|
  {
    if b == [] {
      assert a + b == a;
    } else {
      var b' := b[..|b| - 1];
      assert (a + b)[..|a + b| - 1] == a + b';
      LineRecordsAppend(a, b', parse);
    }
  }

  /** All valid records of one file, in line order. */
  function FileRecords(file: LogFile, parse: string -> Option<Json>): seq<UsageData> {
    LineRecords(NonEmptyLines(file.lines), parse)
  }

  /** A line that is empty, is not JSON, or fails validation contributes
      nothing, wherever it stands in its file, and the lines after it are
      still read. An empty line never even reaches the parser. */
  lemma SkippedLineContributesNothing(parts: seq<string>, before: seq<string>, line: string, after: seq<string>,
                                      parse: string -> Option<Json>)
    requires line == "" || LineRecord(line, parse).None?
    ensures FileRecords(LogFile(parts, before + [line] + after), parse)
            == FileRecords(LogFile(parts, before + after), parse)
  {
    NonEmptyLinesAppend(before + [line], after);
    NonEmptyLinesAppend(before, [line]);
    NonEmptyLinesAppend(before, after);
    assert [line][..0] == [];
    var kept := NonEmptyLines([line]);
    LineRecordsAppend(NonEmptyLines(before) + kept, NonEmptyLines(after), parse);
    LineRecordsAppend(NonEmptyLines(before), kept, parse);
    LineRecordsAppend(NonEmptyLines(before), NonEmptyLines(after), parse);
    SkippedLineNoRecords(line, parse);
  }

  /** A skipped line, taken on its own, yields no record. */
  lemma SkippedLineNoRecords(line: string, parse: string -> Option<Json>)
    requires line == "" || LineRecord(line, parse).None?
    ensures LineRecords(NonEmptyLines([line]), parse) == []
  {
    assert [line][..0] == [];
    if line != "" {
      assert NonEmptyLines([line]) == [line];
    }
  }

  /** The valid records of one file together with its path segments. */
  datatype Batch = Batch(parts: seq<string>, records: seq<UsageData>)

  /** The files as batches, in the order they were discovered. */
  function Batches(files: seq<LogFile>, parse: string -> Option<Json>): (r: seq<Batch>)
    ensures |r| == |files|
    decreases |files|
  {
    if files == [] then []
    else
      var f := files[|files| - 1];
      Batches(files[..|files| - 1], parse) + [Batch(f.parts, FileRecords(f, parse))]
  }

  /** Every valid record of every file, file after file. */
  function AllRecords(batches: seq<Batch>): seq<UsageData>
    decreases |batches|
  {
    if batches == [] then []
    else AllRecords(batches[..|batches| - 1]) + batches[|batches| - 1].records
  }

  /** The field-wise sum of the contributions of some records. */
  function RecordsTotals(records: seq<UsageData>): TokenTotals
    decreases |records|
  {
    if records == [] then ZeroTotals
    else Add(RecordsTotals(records[..|records| - 1]), Contribution(records[|records| - 1]))
  }

  lemma {:induction false} RecordsTotalsAppend(a: seq<UsageData>, b: seq<UsageData>)
    ensures RecordsTotals(a + b) == Add(RecordsTotals(a), RecordsTotals(b))
    decreases |b|
  {
    if b == [] {
      assert a + b == a;
      AddZero(RecordsTotals(a));
    } else {
      var b', x := b[..|b| - 1], b[|b| - 1];
      assert (a + b)[..|a + b| - 1] == a + b';
      assert (a + b)[|a + b| - 1] == x;
      RecordsTotalsAppend(a, b');
      AddSwap(RecordsTotals(a), RecordsTotals(b'), Contribution(x));
    }
  }

  /** The largest timestamp of a sequence of records by JavaScript string
      comparison, starting from "": what `lastTimestamp` holds after a file's
      records have been read. */
  function MaxTimestamp(records: seq<UsageData>): string
    decreases |records|
  {
    if records == [] then ""
    else
      var m := MaxTimestamp(records[..|records| - 1]);
      var t := records[|records| - 1].timestamp;
      if Less(m, t) then t else m
  }

  /** `MaxTimestamp` is the lexical maximum of the timestamps: no timestamp is
      above it, and unless it is "" it is one of them. Records with an empty
      timestamp never raise it. */
  lemma {:induction false} MaxTimestampIsMaximum(records: seq<UsageData>)
    ensures forall i | 0 <= i < |records| :: !Less(MaxTimestamp(records), records[i].timestamp)
    ensures MaxTimestamp(records) == "" || exists i | 0 <= i < |records| :: records[i].timestamp == MaxTimestamp(records)
    decreases |records|
  {
    if records != [] {
      var init := records[..|records| - 1];
      MaxTimestampIsMaximum(init);
      var m := MaxTimestamp(init);
      var t := records[|records| - 1].timestamp;
      var m' := MaxTimestamp(records);
      forall i | 0 <= i < |records|
        ensures !Less(m', records[i].timestamp)
      {
        if i < |records| - 1 {
          assert records[i] == init[i];
          if Less(m, t) {
            if Less(t, records[i].timestamp) {
              LessTransitive(m, t, records[i].timestamp);
            }
          }
        } else if Less(m, t) {
          LessIrreflexive(t);
        } else {
          LessTotalOrEqual(m, t);
        }
      }
      if m' != "" && m' == m {
        var i :| 0 <= i < |init| && init[i].timestamp == m;
        assert records[i] == init[i];
      }
    }
  }

  /** Not below and not above means equal. */
  lemma LessTotalOrEqual(a: string, b: string)
    requires !Less(a, b)
    ensures !Less(a, b) && (a == b || Less(b, a))
  {
    if a != b {
      LessTotal(a, b);
    }
  }
}
