/** `loadUsageData`: every valid record of every file is added into one
    entry per formatted date, the entries are filtered by the date range and
    sorted newest first. */
module DailyLoader {
  import opened Wrappers
  import opened Strings
  import opened Json
  import opened Types
  import opened Validation
  import opened LogRecords
  import opened RangeFilter
  import opened Sorting
  import opened Seqs
  import CalculateCost

  /** The distinct dates of the records, in order of first appearance: the
      keys of `dailyMap` in insertion order. */
  function Dates(records: seq<UsageData>, formatDate: string -> string): seq<string>
    decreases |records|
  {
    if records == [] then []
    else
      var ds := Dates(records[..|records| - 1], formatDate);
      var d := formatDate(records[|records| - 1].timestamp);
      if d in ds then ds else ds + [d]
  }

  /** The field-wise sum of the contributions of the records whose formatted
      timestamp is `date`. */
  function DateTotals(records: seq<UsageData>, date: string, formatDate: string -> string): TokenTotals
    decreases |records|
  {
    if records == [] then ZeroTotals
    else
      Add(DateTotals(records[..|records| - 1], date, formatDate), Share(records[|records| - 1], date, formatDate))
  }

  /** What one record adds to the entry of `date`: its contribution if its
      timestamp formats to `date`, nothing otherwise. */
  function Share(rec: UsageData, date: string, formatDate: string -> string): TokenTotals {
    if formatDate(rec.timestamp) == date then Contribution(rec) else ZeroTotals
  }

  /** Unfolds `DateTotals` at its last record. */
  lemma DateTotalsSnoc(records: seq<UsageData>, rec: UsageData, date: string, formatDate: string -> string)
    ensures DateTotals(records + [rec], date, formatDate) == Add(DateTotals(records, date, formatDate), Share(rec, date, formatDate))
  {
    assert (records + [rec])[..|records|] == records;
  }

  /** The entry the loader should hold for `date`. */
  function DailyEntry(records: seq<UsageData>, date: string, formatDate: string -> string): DailyUsage {
    DailyOf(date, DateTotals(records, date, formatDate))
  }

  /** `Array.from(dailyMap.values())` as it should be: one entry per date, in
      order of first appearance. */
  function DailyEntries(records: seq<UsageData>, formatDate: string -> string): seq<DailyUsage> {
    var ds := Dates(records, formatDate);
    seq(|ds|, i requires 0 <= i < |ds| => DailyEntry(records, ds[i], formatDate))
  }

  function DailyDate(d: DailyUsage): string {
    d.date
  }

  /** The sort key `new Date(item.date).getTime()`, with `Date` parsing given
      as the parameter `dateTime`. */
  function ByDate(dateTime: string -> real): DailyUsage -> real {
    (d: DailyUsage) => dateTime(d.date)
  }

  /** What `loadUsageData` returns for the discovered files: nothing when no
      file was found, otherwise the per-date entries of all valid records,
      filtered by the options' date range and sorted by date, newest first. */
  function DailyReport(files: seq<LogFile>, options: DateFilter, parse: string -> Option<Json>,
                       formatDate: string -> string, dateTime: string -> real): seq<DailyUsage>
  {
    if files == [] then []
    else
      var entries := DailyEntries(AllRecords(Batches(files, parse)), formatDate);
      SortDescBy(ApplyDateFilter(entries, DailyDate, options), ByDate(dateTime))
  }

  /** The state of `dailyMap` (with its insertion order) after `records`. */
  ghost predicate Accumulated(order: seq<string>, dailyMap: map<string, DailyUsage>,
                              records: seq<UsageData>, formatDate: string -> string)
  {
    && order == Dates(records, formatDate)
    && (forall d :: d in dailyMap <==> d in order)
    && (forall d | d in dailyMap :: dailyMap[d] == DailyEntry(records, d, formatDate))
  }

  /** `loadUsageData(options)`. The discovered files, `JSON.parse`,
      `formatDate` and the `Date` parsing of the sort key are parameters. */
  method LoadUsageData(files: seq<LogFile>, options: DateFilter, parse: string -> Option<Json>,
                       formatDate: string -> string, dateTime: string -> real)
    returns (result: seq<DailyUsage>)
    ensures result == DailyReport(files, options, parse, formatDate, dateTime)
  {
    if |files| == 0 {
      return [];
    }
    var order, dailyMap := AccumulateDaily(files, parse, formatDate);
    var results := seq(|order|, i requires 0 <= i < |order| => dailyMap[order[i]]);
    MapValuesAreEntries(order, dailyMap, AllRecords(Batches(files, parse)), formatDate);
    if Filtering(options) {
      results := KeepInRange(results, DailyDate, options);
    }
    result := SortDescBy(results, ByDate(dateTime));
  }

  /** The loop of `loadUsageData` over every line of every file: one pass
      that keeps `dailyMap`, with its insertion order, equal to the per-date
      sums of the valid records read so far. */
  method AccumulateDaily(files: seq<LogFile>, parse: string -> Option<Json>, formatDate: string -> string)
    returns (order: seq<string>, dailyMap: map<string, DailyUsage>)
    ensures Accumulated(order, dailyMap, AllRecords(Batches(files, parse)), formatDate)
  {
    order, dailyMap := [], map[];
    for fi := 0 to |files|
      invariant Accumulated(order, dailyMap, AllRecords(Batches(files[..fi], parse)), formatDate)
    {
      BatchesStep(files, fi, parse);
      order, dailyMap := AccumulateLines(order, dailyMap, NonEmptyLines(files[fi].lines), parse, formatDate,
                                         AllRecords(Batches(files[..fi], parse)));
    }
    assert files[..|files|] == files;
  }

  /** The inner loop over the non-empty lines of one file: a line that does
      not parse or does not validate is skipped, any other is added in. */
  method AccumulateLines(order0: seq<string>, dailyMap0: map<string, DailyUsage>, lines: seq<string>,
                         parse: string -> Option<Json>, formatDate: string -> string, ghost records: seq<UsageData>)
    returns (order: seq<string>, dailyMap: map<string, DailyUsage>)
    requires Accumulated(order0, dailyMap0, records, formatDate)
    ensures Accumulated(order, dailyMap, records + LineRecords(lines, parse), formatDate)
  {
    order, dailyMap := order0, dailyMap0;
    ghost var seen := records;  // the valid records read so far
    for li := 0 to |lines|
      invariant seen == records + LineRecords(lines[..li], parse)
      invariant Accumulated(order, dailyMap, seen, formatDate)
    {
      LineRecordsStep(lines, li, parse);
      var parsed := parse(lines[li]);
      if parsed.None? {
        continue;  // JSON.parse threw: skip the line
      }
      var data := ValidateUsageData(parsed.value);
      if data.None? {
        continue;
      }
      order, dailyMap := AddToDaily(order, dailyMap, data.value, formatDate, seen);
      seen := seen + [data.value];
    }
    assert lines[..|lines|] == lines;
  }

  /** The body of the line loop once a line validated: the entry of the
      record's date is created (appended to the insertion order) or updated,
      field by field, with the record's contribution. */
  method AddToDaily(order: seq<string>, dailyMap: map<string, DailyUsage>, data: UsageData,
                    formatDate: string -> string, ghost records: seq<UsageData>)
    returns (order': seq<string>, dailyMap': map<string, DailyUsage>)
    requires Accumulated(order, dailyMap, records, formatDate)
    ensures Accumulated(order', dailyMap', records + [data], formatDate)
  {
    var date := formatDate(data.timestamp);
    var existing := if date in dailyMap then dailyMap[date] else DailyUsage(date, 0.0, 0.0, 0.0, 0.0, 0.0);
    ghost var prev := existing;
    var c := Contribution(data);
    existing := existing.(
      inputTokens := existing.inputTokens + c.inputTokens,
      outputTokens := existing.outputTokens + c.outputTokens,
      cacheCreationTokens := existing.cacheCreationTokens + c.cacheCreationTokens,
      cacheReadTokens := existing.cacheReadTokens + c.cacheReadTokens,
      totalCost := existing.totalCost + c.totalCost);
    assert existing == DailyOf(date, Add(prev.Totals(), c));
    AccumulateStep(order, dailyMap, records, data, formatDate);
    order' := if date in dailyMap then order else order + [date];
    dailyMap' := dailyMap[date := existing];
  }

  /** One file read: its valid records follow those of the files before. */
  lemma BatchesStep(files: seq<LogFile>, fi: nat, parse: string -> Option<Json>)
    requires fi < |files|
    ensures AllRecords(Batches(files[..fi + 1], parse))
      == AllRecords(Batches(files[..fi], parse)) + FileRecords(files[fi], parse)
  {
    assert files[..fi + 1][..fi] == files[..fi];
  }

  /** The map's values in insertion order are the daily entries. */
  lemma MapValuesAreEntries(order: seq<string>, dailyMap: map<string, DailyUsage>, records: seq<UsageData>,
                            formatDate: string -> string)
    requires Accumulated(order, dailyMap, records, formatDate)
    ensures seq(|order|, i requires 0 <= i < |order| => dailyMap[order[i]]) == DailyEntries(records, formatDate)
  {
  }

  /** One line read: the records so far grow by the line's record, if it
      has one. */
  lemma LineRecordsStep(lines: seq<string>, li: nat, parse: string -> Option<Json>)
    requires li < |lines|
    ensures LineRecords(lines[..li + 1], parse)
      == LineRecords(lines[..li], parse)
         + (if LineRecord(lines[li], parse).Some? then [LineRecord(lines[li], parse).value] else [])
  {
    assert lines[..li + 1][..li] == lines[..li];
  }

  /** Adding one valid record to `dailyMap` as the loop does (a new date
      starts from zero and is appended to the insertion order, a known one is
      updated in place) keeps the map equal to the per-date sums. */
  lemma AccumulateStep(order: seq<string>, dailyMap: map<string, DailyUsage>, records: seq<UsageData>,
                       rec: UsageData, formatDate: string -> string)
    requires Accumulated(order, dailyMap, records, formatDate)
    ensures var d := formatDate(rec.timestamp);
      var prev := if d in dailyMap then dailyMap[d] else DailyOf(d, ZeroTotals);
      Accumulated(if d in dailyMap then order else order + [d],
                  dailyMap[d := DailyOf(d, Add(prev.Totals(), Contribution(rec)))],
                  records + [rec], formatDate)
  {
    AddRecord(records, rec, formatDate);
  }

  /** Adding one record: its date joins the keys if it is new, and only that
      date's sums grow, by the record's contribution. */
  lemma AddRecord(records: seq<UsageData>, rec: UsageData, formatDate: string -> string)
    ensures var d := formatDate(rec.timestamp);
      Dates(records + [rec], formatDate)
        == if d in Dates(records, formatDate) then Dates(records, formatDate) else Dates(records, formatDate) + [d]
    ensures forall d ::
      DateTotals(records + [rec], d, formatDate) == Add(DateTotals(records, d, formatDate), Share(rec, d, formatDate))
    ensures formatDate(rec.timestamp) !in Dates(records, formatDate)
      ==> DateTotals(records, formatDate(rec.timestamp), formatDate) == ZeroTotals
  {
    assert (records + [rec])[..|records|] == records;
    if formatDate(rec.timestamp) !in Dates(records, formatDate) {
      UnseenDateIsZero(records, formatDate(rec.timestamp), formatDate);
    }
  }

  /** A date no record maps to has all-zero sums. */
  lemma {:induction false} UnseenDateIsZero(records: seq<UsageData>, date: string, formatDate: string -> string)
    requires date !in Dates(records, formatDate)
    ensures DateTotals(records, date, formatDate) == ZeroTotals
    decreases |records|
  {
    if records != [] {
      UnseenDateIsZero(records[..|records| - 1], date, formatDate);
    }
  }

  /** A date is a key exactly when some valid record's timestamp formats to
      it. */
  lemma {:induction false} DatesAreRecordDates(records: seq<UsageData>, formatDate: string -> string)
    ensures forall d :: (d in Dates(records, formatDate)
      <==> exists i | 0 <= i < |records| :: formatDate(records[i].timestamp) == d)
    decreases |records|
  {
    if records != [] {
      var init := records[..|records| - 1];
      DatesAreRecordDates(init, formatDate);
      forall d
        ensures d in Dates(records, formatDate)
          <==> exists i | 0 <= i < |records| :: formatDate(records[i].timestamp) == d
      {
        if exists i | 0 <= i < |records| :: formatDate(records[i].timestamp) == d {
          var i :| 0 <= i < |records| && formatDate(records[i].timestamp) == d;
          if i < |init| {
            assert init[i] == records[i];
          }
        }
        if d in Dates(init, formatDate) {
          var i :| 0 <= i < |init| && formatDate(init[i].timestamp) == d;
          assert records[i] == init[i];
        }
      }
    }
  }

  /** No date is a key twice. */
  lemma {:induction false} DatesDistinct(records: seq<UsageData>, formatDate: string -> string)
    ensures Distinct(Dates(records, formatDate))
    decreases |records|
  {
    if records != [] {
      DatesDistinct(records[..|records| - 1], formatDate);
    }
  }

  /** The entries are exactly one per key date, each holding that date's
      sums, and no two are alike. */
  lemma DailyEntriesAreDateSums(records: seq<UsageData>, formatDate: string -> string)
    ensures forall e :: (e in DailyEntries(records, formatDate)
      <==> e.date in Dates(records, formatDate) && e == DailyEntry(records, e.date, formatDate))
    ensures |DailyEntries(records, formatDate)| == |Dates(records, formatDate)|
    ensures forall e :: multiset(DailyEntries(records, formatDate))[e] <= 1
  {
    var ds := Dates(records, formatDate);
    var es := DailyEntries(records, formatDate);
    DatesDistinct(records, formatDate);
    forall e
      ensures e in es <==> e.date in ds && e == DailyEntry(records, e.date, formatDate)
    {
      if e.date in ds && e == DailyEntry(records, e.date, formatDate) {
        var i :| 0 <= i < |ds| && ds[i] == e.date;
        assert es[i] == e;
      }
    }
    assert Distinct(es) by {
      forall i, j | 0 <= i < j < |es| ensures es[i] != es[j] {
        assert es[i].date == ds[i] && es[j].date == ds[j];
      }
    }
    DistinctCountsAtMostOne(es);
  }

  lemma {:induction false} DateTotalsAppend(a: seq<UsageData>, b: seq<UsageData>, date: string,
                                            formatDate: string -> string)
    ensures DateTotals(a + b, date, formatDate) == Add(DateTotals(a, date, formatDate), DateTotals(b, date, formatDate))
    decreases |b|
  {
    if b == [] {
      assert a + b == a;
    } else {
      var b', x := b[..|b| - 1], b[|b| - 1];
      assert b == b' + [x];
      assert a + b == (a + b') + [x];
      DateTotalsAppend(a, b', date, formatDate);
      DateTotalsSnoc(a + b', x, date, formatDate);
      DateTotalsSnoc(b', x, date, formatDate);
      var A, B, X := DateTotals(a, date, formatDate), DateTotals(b', date, formatDate), Share(x, date, formatDate);
      AddSwap(A, B, X);
    }
  }

  /** The sums do not depend on the order in which files and lines were
      read: any rearrangement of the same valid records gives the same sums
      for every date. */
  lemma {:induction false} DateTotalsOrderIndependent(a: seq<UsageData>, b: seq<UsageData>, date: string,
                                                     formatDate: string -> string)
    requires multiset(a) == multiset(b)
    ensures DateTotals(a, date, formatDate) == DateTotals(b, date, formatDate)
    decreases |a|
  {
    if a == [] {
      assert |b| == |multiset(b)| == 0;
    } else {
      var x := a[|a| - 1];
      var a' := a[..|a| - 1];
      RemoveAt(a, |a| - 1);
      assert a'+ a[|a|..] == a';
      assert x in multiset(b);
      var i :| 0 <= i < |b| && b[i] == x;
      var left, right := b[..i], b[i + 1..];
      RemoveAt(b, i);
      DateTotalsOrderIndependent(a', left + right, date, formatDate);
      assert a == a' + [x];
      DateTotalsSnoc(a', x, date, formatDate);
      DateTotalsAppend(left, right, date, formatDate);
      assert b == (left + [x]) + right;
      DateTotalsAppend(left + [x], right, date, formatDate);
      DateTotalsSnoc(left, x, date, formatDate);
      var L, R, X := DateTotals(left, date, formatDate), DateTotals(right, date, formatDate), Share(x, date, formatDate);
      AddSwap(L, R, X);
    }
  }

  /** Hence the whole set of daily entries is the same for any two readings
      of the same valid records: same dates, same sums. */
  lemma DailyEntriesOrderIndependent(a: seq<UsageData>, b: seq<UsageData>, formatDate: string -> string)
    requires multiset(a) == multiset(b)
    ensures forall e :: e in DailyEntries(a, formatDate) <==> e in DailyEntries(b, formatDate)
  {
    DailyEntriesAreDateSums(a, formatDate);
    DailyEntriesAreDateSums(b, formatDate);
    DatesAreRecordDates(a, formatDate);
    DatesAreRecordDates(b, formatDate);
    forall d
      ensures d in Dates(a, formatDate) <==> d in Dates(b, formatDate)
    {
      if exists i | 0 <= i < |a| :: formatDate(a[i].timestamp) == d {
        var i :| 0 <= i < |a| && formatDate(a[i].timestamp) == d;
        assert a[i] in multiset(b);
        var j :| 0 <= j < |b| && b[j] == a[i];
      }
      if exists j | 0 <= j < |b| :: formatDate(b[j].timestamp) == d {
        var j :| 0 <= j < |b| && formatDate(b[j].timestamp) == d;
        assert b[j] in multiset(a);
        var i :| 0 <= i < |a| && a[i] == b[j];
      }
    }
    forall d {
      DateTotalsOrderIndependent(a, b, d, formatDate);
    }
  }

  /** The sums only grow as records are added, when the records are
      non-negative (the source does not check that they are). */
  lemma DateTotalsGrow(records: seq<UsageData>, rec: UsageData, date: string, formatDate: string -> string)
    requires NonNegative(rec)
    ensures var before, after := DateTotals(records, date, formatDate), DateTotals(records + [rec], date, formatDate);
      && before.inputTokens <= after.inputTokens && before.outputTokens <= after.outputTokens
      && before.cacheCreationTokens <= after.cacheCreationTokens
      && before.cacheReadTokens <= after.cacheReadTokens && before.totalCost <= after.totalCost
  {
    AddRecord(records, rec, formatDate);
  }

  /** Filtering and then sorting keeps exactly the in-range entries, and
      keeps them apart when they were all different. */
  lemma SortedFilterMembership(entries: seq<DailyUsage>, options: DateFilter, key: DailyUsage -> real)
    ensures var r := SortDescBy(ApplyDateFilter(entries, DailyDate, options), key);
      && (forall e :: e in r <==> e in entries && InRange(e.date, options))
      && (Distinct(entries) ==> Distinct(r))
  {
    var filtered := ApplyDateFilter(entries, DailyDate, options);
    var r := SortDescBy(filtered, key);
    FilterMembership(entries, DailyDate, options);
    FilterCounts(entries, DailyDate, options);
    forall e
      ensures e in r <==> e in filtered
    {
      assert e in r <==> multiset(r)[e] > 0;
      assert e in filtered <==> multiset(filtered)[e] > 0;
    }
    if Distinct(entries) {
      DistinctCountsAtMostOne(entries);
      CountsAtMostOneDistinct(r);
    }
  }

  /** What the report holds: exactly the entries of the key dates that pass
      the range filter, each with its date's sums, no date twice, ordered by
      the sort key with the newest first. No file, or no valid line, gives an
      empty report. */
  lemma DailyReportContents(files: seq<LogFile>, options: DateFilter, parse: string -> Option<Json>,
                            formatDate: string -> string, dateTime: string -> real)
    ensures var records := AllRecords(Batches(files, parse));
      var r := DailyReport(files, options, parse, formatDate, dateTime);
      && (forall e :: e in r <==>
            && e.date in Dates(records, formatDate)
            && e == DailyEntry(records, e.date, formatDate)
            && InRange(e.date, options))
      && (forall i, j | 0 <= i < j < |r| :: r[i].date != r[j].date)
      && NonIncreasing(r, ByDate(dateTime))
      && (records == [] ==> r == [])
  {
    var records := AllRecords(Batches(files, parse));
    var entries := DailyEntries(records, formatDate);
    var r := DailyReport(files, options, parse, formatDate, dateTime);
    DailyEntriesAreDateSums(records, formatDate);
    if files == [] {
      assert Batches(files, parse) == [];
    } else {
      CountsAtMostOneDistinct(entries);
      SortedFilterMembership(entries, options, ByDate(dateTime));
      forall i, j | 0 <= i < j < |r|
        ensures r[i].date != r[j].date
      {
        assert r[i] in r && r[j] in r;
        assert r[i] == DailyEntry(records, r[i].date, formatDate);
        assert r[j] == DailyEntry(records, r[j].date, formatDate);
      }
      if records == [] {
        assert Dates(records, formatDate) == [];
        assert entries == [];
        assert ApplyDateFilter(entries, DailyDate, options) == [];
      }
    }
  }

  /** `new Date(d).getTime()` orders the dates of `days` chronologically,
      which for valid zero-padded dates is their string order. Only these
      dates are constrained: a `YYYY-MM-DD` string that names no calendar
      day (month 13, say) parses to NaN, which orders nothing. */
  ghost predicate ChronologicalOn(dateTime: string -> real, days: seq<DailyUsage>) {
    forall e, f | e in days && f in days && Less(e.date, f.date) :: dateTime(e.date) < dateTime(f.date)
  }

  /** When every formatted date is a well-formed `YYYY-MM-DD` (an
      unparseable timestamp formats to "NaN-NaN-NaN" instead), the report is
      in strictly descending date order. */
  lemma DailyReportNewestFirst(files: seq<LogFile>, options: DateFilter, parse: string -> Option<Json>,
                               formatDate: string -> string, dateTime: string -> real)
    requires ChronologicalOn(dateTime, DailyReport(files, options, parse, formatDate, dateTime))
    requires forall e | e in DailyReport(files, options, parse, formatDate, dateTime) :: IsIsoDate(e.date)
    ensures var r := DailyReport(files, options, parse, formatDate, dateTime);
      forall i, j | 0 <= i < j < |r| :: Less(r[j].date, r[i].date)
  {
    var r := DailyReport(files, options, parse, formatDate, dateTime);
    DailyReportContents(files, options, parse, formatDate, dateTime);
    forall i, j | 0 <= i < j < |r|
      ensures Less(r[j].date, r[i].date)
    {
      assert r[i] in r && r[j] in r;
      assert ByDate(dateTime)(r[i]) >= ByDate(dateTime)(r[j]);
      var di, dj := r[i].date, r[j].date;
      assert Less(di, dj) ==> dateTime(di) < dateTime(dj);
      LessTotal(di, dj);
    }
  }

  /** The per-date sums over some of the dates, added up. */
  function DateSum(records: seq<UsageData>, ds: seq<string>, formatDate: string -> string): TokenTotals {
    CalculateCost.SumBy(ds, d => DateTotals(records, d, formatDate))
  }

  /** One more record adds its contribution to the sum over any list of
      distinct dates that contains its date, and nothing otherwise. */
  lemma {:induction false} DateSumStep(records: seq<UsageData>, rec: UsageData, ds: seq<string>,
                                       formatDate: string -> string)
    requires Distinct(ds)
    ensures DateSum(records + [rec], ds, formatDate)
      == Add(DateSum(records, ds, formatDate), if formatDate(rec.timestamp) in ds then Contribution(rec) else ZeroTotals)
    decreases |ds|
  {
    if ds == [] {
      AddZero(ZeroTotals);
    } else {
      var init, d := ds[..|ds| - 1], ds[|ds| - 1];
      assert ds == init + [d];
      assert Distinct(init) by {
        forall i, j | 0 <= i < j < |init| ensures init[i] != init[j] {
          assert init[i] == ds[i] && init[j] == ds[j];
        }
      }
      assert d !in init by {
        forall i | 0 <= i < |init| ensures init[i] != d {
          assert init[i] == ds[i];
        }
      }
      DateSumStep(records, rec, init, formatDate);
      DateTotalsSnoc(records, rec, d, formatDate);
      var x := if formatDate(rec.timestamp) in init then Contribution(rec) else ZeroTotals;
      AddInterchange(DateSum(records, init, formatDate), DateTotals(records, d, formatDate), x, Share(rec, d, formatDate));
      AddZero(Contribution(rec));
      AddZero(ZeroTotals);
    }
  }

  /** No valid record is lost or counted twice: the per-date sums over all
      the dates add up to the sum over all the records. */
  lemma {:induction false} DateSumIsRecordsTotals(records: seq<UsageData>, formatDate: string -> string)
    ensures DateSum(records, Dates(records, formatDate), formatDate) == RecordsTotals(records)
    decreases |records|
  {
    if records != [] {
      var init, rec := records[..|records| - 1], records[|records| - 1];
      assert records == init + [rec];
      var ds, d := Dates(init, formatDate), formatDate(rec.timestamp);
      DateSumIsRecordsTotals(init, formatDate);
      DatesDistinct(init, formatDate);
      DateSumStep(init, rec, ds, formatDate);
      AddRecord(init, rec, formatDate);
      if d !in ds {
        assert (ds + [d])[..|ds|] == ds;
        AddZero(DateSum(records, ds, formatDate));
        AddZero(Contribution(rec));
      }
    }
  }

  /** Hence the totals row over the daily entries (`calculateTotals` of the
      loaded days, before the date filter) equals the sum of every valid
      record. */
  lemma DailyTotalsConserved(records: seq<UsageData>, formatDate: string -> string)
    ensures CalculateCost.DailyTotals(DailyEntries(records, formatDate)) == RecordsTotals(records)
  {
    var es, ds := DailyEntries(records, formatDate), Dates(records, formatDate);
    var f := (d: string) => DateTotals(records, d, formatDate);
    assert seq(|es|, i requires 0 <= i < |es| => es[i].Totals())
        == seq(|ds|, i requires 0 <= i < |ds| => f(ds[i]));
    CalculateCost.CalculateTotalsOfKeys(ds, f);
    DateSumIsRecordsTotals(records, formatDate);
  }

  /** With no active bound, `calculateTotals` over the returned report equals
      the sum of every valid record: the sort only rearranges the entries. */
  lemma DailyReportTotalsConserved(files: seq<LogFile>, options: DateFilter, parse: string -> Option<Json>,
                                   formatDate: string -> string, dateTime: string -> real)
    requires !Filtering(options)
    ensures CalculateCost.DailyTotals(DailyReport(files, options, parse, formatDate, dateTime))
      == RecordsTotals(AllRecords(Batches(files, parse)))
  {
    var records := AllRecords(Batches(files, parse));
    var report := DailyReport(files, options, parse, formatDate, dateTime);
    if files != [] {
      var entries := DailyEntries(records, formatDate);
      NoBoundKeepsAll(entries, DailyDate, options);
      assert multiset(report) == multiset(entries);
      CalculateCost.DailyTotalsOfPermutation(report, entries);
      DailyTotalsConserved(records, formatDate);
    }
  }
}
