/** `loadSessionData`: the valid records of every file are added into one
    entry per session key (the file's directory), each entry remembers the
    date of the latest timestamp of the last file read for it, and the
    entries are filtered by that date and sorted by cost, largest first. */
module SessionLoader {
  import opened Wrappers
  import opened Strings
  import opened Json
  import opened Types
  import opened Validation
  import opened LogRecords
  import opened RangeFilter
  import opened Sorting
  import opened Seqs
  import CalculateCost

  /** The path separator of the platform the tool runs on (POSIX). */
  const Sep := "/"

  /** `parts[parts.length - 2]`: the directory holding the file, `None`
      where JavaScript yields `undefined` (fewer than two segments). */
  function RawSessionId(parts: seq<string>): Option<string> {
    if |parts| >= 2 then Some(parts[|parts| - 2]) else None
  }

  /** `parts.slice(0, -2).join(sep)`: every segment before the session
      directory; "" when there is none. */
  function RawProjectPath(parts: seq<string>): string {
    if |parts| >= 2 then Join(parts[..|parts| - 2], Sep) else ""
  }

  /** The map key `${projectPath}/${sessionId}`, built from the raw values:
      a missing session id is spelled "undefined" by the template. */
  function SessionKey(parts: seq<string>): string {
    RawProjectPath(parts) + "/" + (match RawSessionId(parts) case None => "undefined" case Some(s) => s)
  }

  /** `sessionId || "unknown"`: what a new entry stores. */
  function StoredSessionId(parts: seq<string>): (r: string)
    ensures r != ""
    ensures RawSessionId(parts).Some? && RawSessionId(parts).value != "" ==> r == RawSessionId(parts).value
    ensures RawSessionId(parts).None? || RawSessionId(parts).value == "" ==> r == "unknown"
  {
    match RawSessionId(parts)
    case Some(s) => if s != "" then s else "unknown"
    case None => "unknown"
  }

  /** `projectPath || "Unknown Project"`: what a new entry stores. */
  function StoredProjectPath(parts: seq<string>): (r: string)
    ensures r != ""
    ensures RawProjectPath(parts) != "" ==> r == RawProjectPath(parts)
    ensures RawProjectPath(parts) == "" ==> r == "Unknown Project"
  {
    if RawProjectPath(parts) != "" then RawProjectPath(parts) else "Unknown Project"
  }

  function BatchKey(b: Batch): string {
    SessionKey(b.parts)
  }

  /** The session keys, in order of the first file that has a valid record
      for them: the keys of `sessionMap` in insertion order. */
  function Keys(bs: seq<Batch>): seq<string>
    decreases |bs|
  {
    if bs == [] then []
    else
      var ks := Keys(bs[..|bs| - 1]);
      var b := bs[|bs| - 1];
      if b.records == [] || BatchKey(b) in ks then ks else ks + [BatchKey(b)]
  }

  /** The path segments of the first file that created the entry of `key`:
      its names are the ones stored. */
  function FirstParts(bs: seq<Batch>, key: string): Option<seq<string>>
    decreases |bs|
  {
    if bs == [] then None
    else
      var p := FirstParts(bs[..|bs| - 1], key);
      var b := bs[|bs| - 1];
      if p.Some? then p
      else if BatchKey(b) == key && b.records != [] then Some(b.parts)
      else None
  }

  /** The sums over every valid record of every file with key `key`. */
  function KeyTotals(bs: seq<Batch>, key: string): TokenTotals
    decreases |bs|
  {
    if bs == [] then ZeroTotals
    else
      var b := bs[|bs| - 1];
      Add(KeyTotals(bs[..|bs| - 1], key), if BatchKey(b) == key then RecordsTotals(b.records) else ZeroTotals)
  }

  /** `lastActivity`: the formatted largest timestamp of the last file with
      key `key` whose largest timestamp is not "" (only such a file ever
      raises its own `lastTimestamp`); "" when there is none. */
  function Activity(bs: seq<Batch>, key: string, formatDate: string -> string): string
    decreases |bs|
  {
    if bs == [] then ""
    else
      var b := bs[|bs| - 1];
      if BatchKey(b) == key && MaxTimestamp(b.records) != "" then formatDate(MaxTimestamp(b.records))
      else Activity(bs[..|bs| - 1], key, formatDate)
  }

  /** The entry `sessionMap` should hold for `key`. */
  function SessionEntry(bs: seq<Batch>, key: string, formatDate: string -> string): SessionUsage {
    var p := FirstParts(bs, key);
    SessionOf(if p.Some? then StoredSessionId(p.value) else "unknown",
              if p.Some? then StoredProjectPath(p.value) else "Unknown Project",
              KeyTotals(bs, key), Activity(bs, key, formatDate))
  }

  /** `Array.from(sessionMap.values())` as it should be. */
  function SessionEntries(bs: seq<Batch>, formatDate: string -> string): seq<SessionUsage> {
    var ks := Keys(bs);
    seq(|ks|, i requires 0 <= i < |ks| => SessionEntry(bs, ks[i], formatDate))
  }

  function LastActivity(s: SessionUsage): string {
    s.lastActivity
  }

  /** The sort key `item.totalCost`. */
  function ByCost(s: SessionUsage): real {
    s.totalCost
  }

  /** What `loadSessionData` returns for the discovered files: nothing when
      no file was found, otherwise the per-session entries filtered by the
      date of their last activity and sorted by cost, largest first. */
  function SessionReport(files: seq<LogFile>, options: DateFilter, parse: string -> Option<Json>,
                         formatDate: string -> string): seq<SessionUsage>
  {
    if files == [] then []
    else
      var entries := SessionEntries(Batches(files, parse), formatDate);
      SortDescBy(ApplyDateFilter(entries, LastActivity, options), ByCost)
  }

  /** The state of `sessionMap` (with its insertion order) after the files
      `bs`. */
  ghost predicate Accumulated(order: seq<string>, sessionMap: map<string, SessionUsage>,
                              bs: seq<Batch>, formatDate: string -> string)
  {
    && order == Keys(bs)
    && (forall k :: k in sessionMap <==> k in order)
    && (forall k | k in sessionMap :: sessionMap[k] == SessionEntry(bs, k, formatDate))
  }

  /** `loadSessionData(options)`. The discovered files (as path segments
      relative to the `projects` directory, and lines), `JSON.parse` and
      `formatDate` are parameters. */
  method LoadSessionData(files: seq<LogFile>, options: DateFilter, parse: string -> Option<Json>,
                         formatDate: string -> string)
    returns (result: seq<SessionUsage>)
    ensures result == SessionReport(files, options, parse, formatDate)
  {
    if |files| == 0 {
      return [];
    }
    var order, sessionMap := AccumulateSessions(files, parse, formatDate);
    var results := seq(|order|, i requires 0 <= i < |order| => sessionMap[order[i]]);
    MapValuesAreEntries(order, sessionMap, Batches(files, parse), formatDate);
    if Filtering(options) {
      results := KeepInRange(results, LastActivity, options);
    }
    result := SortDescBy(results, ByCost);
  }

  /** The loop of `loadSessionData` over the files. */
  method AccumulateSessions(files: seq<LogFile>, parse: string -> Option<Json>, formatDate: string -> string)
    returns (order: seq<string>, sessionMap: map<string, SessionUsage>)
    ensures Accumulated(order, sessionMap, Batches(files, parse), formatDate)
  {
    order, sessionMap := [], map[];
    for fi := 0 to |files|
      invariant Accumulated(order, sessionMap, Batches(files[..fi], parse), formatDate)
    {
      assert files[..fi + 1][..fi] == files[..fi];
      order, sessionMap := AccumulateFile(order, sessionMap, files[fi], parse, formatDate, Batches(files[..fi], parse));
    }
    assert files[..|files|] == files;
  }

  /** The body of the file loop: the key parts come from the path, and
      `lastTimestamp` starts again from "" before the file's lines are read;
      a line that does not parse or does not validate is skipped. */
  method AccumulateFile(order0: seq<string>, sessionMap0: map<string, SessionUsage>, file: LogFile,
                        parse: string -> Option<Json>, formatDate: string -> string, ghost bs: seq<Batch>)
    returns (order: seq<string>, sessionMap: map<string, SessionUsage>)
    requires Accumulated(order0, sessionMap0, bs, formatDate)
    ensures Accumulated(order, sessionMap, bs + [Batch(file.parts, FileRecords(file, parse))], formatDate)
  {
    order, sessionMap := order0, sessionMap0;
    var parts := file.parts;
    var lines := NonEmptyLines(file.lines);
    var lastTimestamp := "";
    ghost var seen: seq<UsageData> := [];  // the file's valid records read so far
    EmptyBatchNeutral(order, sessionMap, bs, parts, formatDate);
    for li := 0 to |lines|
      invariant seen == LineRecords(lines[..li], parse)
      invariant lastTimestamp == MaxTimestamp(seen)
      invariant Accumulated(order, sessionMap, bs + [Batch(parts, seen)], formatDate)
    {
      assert lines[..li + 1][..li] == lines[..li];
      var parsed := parse(lines[li]);
      if parsed.None? {
        continue;  // JSON.parse threw: skip the line
      }
      var data := ValidateUsageData(parsed.value);
      if data.None? {
        continue;
      }
      order, sessionMap, lastTimestamp := AddToSession(order, sessionMap, parts, data.value, lastTimestamp,
                                                       formatDate, bs, seen);
      seen := seen + [data.value];
    }
    assert lines[..|lines|] == lines;
  }

  /** The body of the line loop once a line validated: the entry of the
      file's key is created with the stored names, or updated in place; the
      record is added in field by field, and when its timestamp is above the
      file's `lastTimestamp` it becomes the new `lastTimestamp` and its date
      the entry's `lastActivity`. */
  method AddToSession(order: seq<string>, sessionMap: map<string, SessionUsage>, parts: seq<string>,
                      data: UsageData, lastTimestamp: string, formatDate: string -> string,
                      ghost bs: seq<Batch>, ghost seen: seq<UsageData>)
    returns (order': seq<string>, sessionMap': map<string, SessionUsage>, lastTimestamp': string)
    requires lastTimestamp == MaxTimestamp(seen)
    requires Accumulated(order, sessionMap, bs + [Batch(parts, seen)], formatDate)
    ensures lastTimestamp' == MaxTimestamp(seen + [data])
    ensures Accumulated(order', sessionMap', bs + [Batch(parts, seen + [data])], formatDate)
  {
    var sessionId := RawSessionId(parts);
    var projectPath := RawProjectPath(parts);
    var key := projectPath + "/" + (match sessionId case None => "undefined" case Some(s) => s);
    var existing :=
      if key in sessionMap then sessionMap[key]
      else SessionUsage(StoredSessionId(parts), StoredProjectPath(parts), 0.0, 0.0, 0.0, 0.0, 0.0, "");
    existing, lastTimestamp' := UpdateSession(existing, data, lastTimestamp, formatDate);
    assert existing == NewEntry(sessionMap, parts, seen, data, formatDate);
    assert (seen + [data])[..|seen|] == seen;
    AccumulateStep(order, sessionMap, bs, parts, seen, data, formatDate);
    order' := if key in sessionMap then order else order + [key];
    sessionMap' := sessionMap[key := existing];
  }

  /** The in-place update of one entry by one record: the record's
      contribution is added, and a timestamp above the file's largest so far
      becomes the new largest and moves the entry's activity to its date. */
  method UpdateSession(existing: SessionUsage, data: UsageData, lastTimestamp: string, formatDate: string -> string)
    returns (updated: SessionUsage, lastTimestamp': string)
    ensures updated == SessionOf(existing.sessionId, existing.projectPath, Add(existing.Totals(), Contribution(data)),
                                 if Less(lastTimestamp, data.timestamp) then formatDate(data.timestamp)
                                 else existing.lastActivity)
    ensures lastTimestamp' == if Less(lastTimestamp, data.timestamp) then data.timestamp else lastTimestamp
  {
    var c := Contribution(data);
    updated := existing.(
      inputTokens := existing.inputTokens + c.inputTokens,
      outputTokens := existing.outputTokens + c.outputTokens,
      cacheCreationTokens := existing.cacheCreationTokens + c.cacheCreationTokens,
      cacheReadTokens := existing.cacheReadTokens + c.cacheReadTokens,
      totalCost := existing.totalCost + c.totalCost);
    lastTimestamp' := lastTimestamp;
    if Less(lastTimestamp, data.timestamp) {
      lastTimestamp' := data.timestamp;
      updated := updated.(lastActivity := formatDate(data.timestamp));
    }
  }

  /** Unfolds the spec functions at a last batch. */
  lemma SpecSnoc(bs: seq<Batch>, b: Batch, key: string, formatDate: string -> string)
    ensures Keys(bs + [b]) == if b.records == [] || BatchKey(b) in Keys(bs) then Keys(bs) else Keys(bs) + [BatchKey(b)]
    ensures FirstParts(bs + [b], key)
      == if FirstParts(bs, key).Some? then FirstParts(bs, key)
         else if BatchKey(b) == key && b.records != [] then Some(b.parts) else None
    ensures KeyTotals(bs + [b], key)
      == Add(KeyTotals(bs, key), if BatchKey(b) == key then RecordsTotals(b.records) else ZeroTotals)
    ensures Activity(bs + [b], key, formatDate)
      == if BatchKey(b) == key && MaxTimestamp(b.records) != "" then formatDate(MaxTimestamp(b.records))
         else Activity(bs, key, formatDate)
  {
    assert (bs + [b])[..|bs|] == bs;
  }

  lemma KeyTotalsSnoc(bs: seq<Batch>, b: Batch, key: string)
    ensures KeyTotals(bs + [b], key)
      == Add(KeyTotals(bs, key), if BatchKey(b) == key then RecordsTotals(b.records) else ZeroTotals)
  {
    assert (bs + [b])[..|bs|] == bs;
  }

  lemma KeysSnoc(bs: seq<Batch>, b: Batch)
    ensures Keys(bs + [b]) == if b.records == [] || BatchKey(b) in Keys(bs) then Keys(bs) else Keys(bs) + [BatchKey(b)]
    ensures AllRecords(bs + [b]) == AllRecords(bs) + b.records
  {
    assert (bs + [b])[..|bs|] == bs;
  }

  /** A key no file with a valid record maps to has no entry: no names, zero
      sums and no activity. */
  lemma UnseenKey(bs: seq<Batch>, key: string, formatDate: string -> string)
    requires key !in Keys(bs)
    ensures FirstParts(bs, key).None?
    ensures KeyTotals(bs, key) == ZeroTotals
    ensures Activity(bs, key, formatDate) == ""
  {
    KeysHaveFirstParts(bs, key);
    UnseenKeyTotals(bs, key);
    UnseenKeyActivity(bs, key, formatDate);
  }

  lemma {:induction false} UnseenKeyTotals(bs: seq<Batch>, key: string)
    requires key !in Keys(bs)
    ensures KeyTotals(bs, key) == ZeroTotals
    decreases |bs|
  {
    if bs != [] {
      UnseenKeyTotals(bs[..|bs| - 1], key);
    }
  }

  lemma {:induction false} UnseenKeyActivity(bs: seq<Batch>, key: string, formatDate: string -> string)
    requires key !in Keys(bs)
    ensures Activity(bs, key, formatDate) == ""
    decreases |bs|
  {
    if bs != [] {
      UnseenKeyActivity(bs[..|bs| - 1], key, formatDate);
    }
  }

  /** A key is in the order exactly when the first file for it is known. */
  lemma {:induction false} KeysHaveFirstParts(bs: seq<Batch>, key: string)
    ensures key in Keys(bs) <==> FirstParts(bs, key).Some?
    ensures FirstParts(bs, key).Some? ==> SessionKey(FirstParts(bs, key).value) == key
    decreases |bs|
  {
    if bs != [] {
      KeysHaveFirstParts(bs[..|bs| - 1], key);
    }
  }

  /** A file whose lines have not been read yet changes nothing. */
  lemma EmptyBatchNeutral(order: seq<string>, sessionMap: map<string, SessionUsage>, bs: seq<Batch>,
                          parts: seq<string>, formatDate: string -> string)
    requires Accumulated(order, sessionMap, bs, formatDate)
    ensures Accumulated(order, sessionMap, bs + [Batch(parts, [])], formatDate)
  {
    forall k
      ensures SessionEntry(bs + [Batch(parts, [])], k, formatDate) == SessionEntry(bs, k, formatDate)
    {
      SpecSnoc(bs, Batch(parts, []), k, formatDate);
      AddSwap(KeyTotals(bs, k), ZeroTotals, ZeroTotals);
    }
    SpecSnoc(bs, Batch(parts, []), "", formatDate);
  }

  /** Adding a record to the current file: the key joins the order if it
      is new. */
  lemma StepKeys(bs: seq<Batch>, parts: seq<string>, seen: seq<UsageData>, data: UsageData)
    ensures var key, before := SessionKey(parts), Keys(bs + [Batch(parts, seen)]);
      Keys(bs + [Batch(parts, seen + [data])]) == if key in before then before else before + [key]
  {
    SpecSnoc(bs, Batch(parts, seen), "", x => x);
    SpecSnoc(bs, Batch(parts, seen + [data]), "", x => x);
  }

  /** ... and the names of an entry never change once it exists; a new entry
      takes the current file's. */
  lemma StepNames(bs: seq<Batch>, parts: seq<string>, seen: seq<UsageData>, data: UsageData, k: string)
    ensures var before := FirstParts(bs + [Batch(parts, seen)], k);
      FirstParts(bs + [Batch(parts, seen + [data])], k)
        == if before.Some? || k != SessionKey(parts) then before else Some(parts)
  {
    SpecSnoc(bs, Batch(parts, seen), k, x => x);
    SpecSnoc(bs, Batch(parts, seen + [data]), k, x => x);
  }

  /** ... only the file's key gains the record's contribution ... */
  lemma StepTotals(bs: seq<Batch>, parts: seq<string>, seen: seq<UsageData>, data: UsageData, k: string)
    ensures KeyTotals(bs + [Batch(parts, seen + [data])], k)
      == Add(KeyTotals(bs + [Batch(parts, seen)], k), if k == SessionKey(parts) then Contribution(data) else ZeroTotals)
  {
    SpecSnoc(bs, Batch(parts, seen), k, x => x);
    SpecSnoc(bs, Batch(parts, seen + [data]), k, x => x);
    assert (seen + [data])[..|seen|] == seen;
    AddSwap(KeyTotals(bs, k), RecordsTotals(seen), Contribution(data));
    AddSwap(KeyTotals(bs, k), ZeroTotals, ZeroTotals);
  }

  /** ... and its activity moves to the record's date exactly when the
      record's timestamp is above the file's largest so far. */
  lemma StepActivity(bs: seq<Batch>, parts: seq<string>, seen: seq<UsageData>, data: UsageData, k: string,
                     formatDate: string -> string)
    ensures var before := Activity(bs + [Batch(parts, seen)], k, formatDate);
      Activity(bs + [Batch(parts, seen + [data])], k, formatDate)
        == if k == SessionKey(parts) && Less(MaxTimestamp(seen), data.timestamp) then formatDate(data.timestamp)
           else before
  {
    SpecSnoc(bs, Batch(parts, seen), k, formatDate);
    SpecSnoc(bs, Batch(parts, seen + [data]), k, formatDate);
    assert (seen + [data])[..|seen|] == seen;
  }

  /** The entry of the current file's key after one more valid record: the
      existing entry, or a new one with the stored names, with the record's
      contribution added and the activity moved to the record's date when its
      timestamp is above the file's largest so far. */
  function NewEntry(sessionMap: map<string, SessionUsage>, parts: seq<string>, seen: seq<UsageData>,
                    data: UsageData, formatDate: string -> string): SessionUsage
  {
    var key := SessionKey(parts);
    var prev := if key in sessionMap then sessionMap[key]
                else SessionUsage(StoredSessionId(parts), StoredProjectPath(parts), 0.0, 0.0, 0.0, 0.0, 0.0, "");
    SessionOf(prev.sessionId, prev.projectPath, Add(prev.Totals(), Contribution(data)),
              if Less(MaxTimestamp(seen), data.timestamp) then formatDate(data.timestamp)
              else prev.lastActivity)
  }

  /** The loop's new entry for the file's key is the spec's entry for it. */
  lemma StepOwnEntry(order: seq<string>, sessionMap: map<string, SessionUsage>, bs: seq<Batch>,
                     parts: seq<string>, seen: seq<UsageData>, data: UsageData, formatDate: string -> string)
    requires Accumulated(order, sessionMap, bs + [Batch(parts, seen)], formatDate)
    ensures SessionEntry(bs + [Batch(parts, seen + [data])], SessionKey(parts), formatDate)
      == NewEntry(sessionMap, parts, seen, data, formatDate)
  {
    var key := SessionKey(parts);
    if key in sessionMap {
      StepKnownEntry(bs, parts, seen, data, formatDate);
    } else {
      StepFirstEntry(bs, parts, seen, data, formatDate);
    }
  }

  /** A key already in the map keeps its names and gains the record. */
  lemma StepKnownEntry(bs: seq<Batch>, parts: seq<string>, seen: seq<UsageData>, data: UsageData,
                       formatDate: string -> string)
    requires SessionKey(parts) in Keys(bs + [Batch(parts, seen)])
    ensures var key, before := SessionKey(parts), bs + [Batch(parts, seen)];
      var prev := SessionEntry(before, key, formatDate);
      SessionEntry(bs + [Batch(parts, seen + [data])], key, formatDate)
        == SessionOf(prev.sessionId, prev.projectPath, Add(prev.Totals(), Contribution(data)),
                     if Less(MaxTimestamp(seen), data.timestamp) then formatDate(data.timestamp)
                     else prev.lastActivity)
  {
    var key, before := SessionKey(parts), bs + [Batch(parts, seen)];
    StepNames(bs, parts, seen, data, key);
    StepTotals(bs, parts, seen, data, key);
    StepActivity(bs, parts, seen, data, key, formatDate);
    KeysHaveFirstParts(before, key);
  }

  /** A key not yet in the map starts from the current file's names, zero
      sums and empty activity. */
  lemma StepFirstEntry(bs: seq<Batch>, parts: seq<string>, seen: seq<UsageData>, data: UsageData,
                       formatDate: string -> string)
    requires SessionKey(parts) !in Keys(bs + [Batch(parts, seen)])
    ensures SessionEntry(bs + [Batch(parts, seen + [data])], SessionKey(parts), formatDate)
      == SessionOf(StoredSessionId(parts), StoredProjectPath(parts), Contribution(data),
                   if Less(MaxTimestamp(seen), data.timestamp) then formatDate(data.timestamp) else "")
  {
    var key, before := SessionKey(parts), bs + [Batch(parts, seen)];
    StepNames(bs, parts, seen, data, key);
    StepTotals(bs, parts, seen, data, key);
    StepActivity(bs, parts, seen, data, key, formatDate);
    UnseenKey(before, key, formatDate);
    AddZero(Contribution(data));
  }

  /** Every other key's entry is unchanged by a record of the current file. */
  lemma StepOtherEntries(bs: seq<Batch>, parts: seq<string>, seen: seq<UsageData>, data: UsageData,
                         formatDate: string -> string)
    ensures forall k | k != SessionKey(parts) ::
      SessionEntry(bs + [Batch(parts, seen + [data])], k, formatDate)
        == SessionEntry(bs + [Batch(parts, seen)], k, formatDate)
  {
    forall k | k != SessionKey(parts)
      ensures SessionEntry(bs + [Batch(parts, seen + [data])], k, formatDate)
        == SessionEntry(bs + [Batch(parts, seen)], k, formatDate)
    {
      StepNames(bs, parts, seen, data, k);
      StepTotals(bs, parts, seen, data, k);
      StepActivity(bs, parts, seen, data, k, formatDate);
      AddSwap(KeyTotals(bs + [Batch(parts, seen)], k), ZeroTotals, ZeroTotals);
    }
  }

  /** After the update every entry of the map is the spec's entry. */
  lemma StepValues(order: seq<string>, sessionMap: map<string, SessionUsage>, bs: seq<Batch>,
                   parts: seq<string>, seen: seq<UsageData>, data: UsageData, formatDate: string -> string)
    requires Accumulated(order, sessionMap, bs + [Batch(parts, seen)], formatDate)
    ensures var m := sessionMap[SessionKey(parts) := NewEntry(sessionMap, parts, seen, data, formatDate)];
      forall k | k in m :: m[k] == SessionEntry(bs + [Batch(parts, seen + [data])], k, formatDate)
  {
    StepOtherEntries(bs, parts, seen, data, formatDate);
    StepOwnEntry(order, sessionMap, bs, parts, seen, data, formatDate);
  }

  /** One valid record of the current file added as the loop does keeps the
      map equal to the spec of the files read so far. */
  lemma AccumulateStep(order: seq<string>, sessionMap: map<string, SessionUsage>, bs: seq<Batch>,
                       parts: seq<string>, seen: seq<UsageData>, data: UsageData, formatDate: string -> string)
    requires Accumulated(order, sessionMap, bs + [Batch(parts, seen)], formatDate)
    ensures var key := SessionKey(parts);
      Accumulated(if key in sessionMap then order else order + [key],
                  sessionMap[key := NewEntry(sessionMap, parts, seen, data, formatDate)],
                  bs + [Batch(parts, seen + [data])], formatDate)
  {
    StepKeys(bs, parts, seen, data);
    StepValues(order, sessionMap, bs, parts, seen, data, formatDate);
  }

  /** The map's values in insertion order are the session entries. */
  lemma MapValuesAreEntries(order: seq<string>, sessionMap: map<string, SessionUsage>, bs: seq<Batch>,
                            formatDate: string -> string)
    requires Accumulated(order, sessionMap, bs, formatDate)
    ensures seq(|order|, i requires 0 <= i < |order| => sessionMap[order[i]]) == SessionEntries(bs, formatDate)
  {
  }

  /** No key is in the order twice. */
  lemma {:induction false} KeysDistinct(bs: seq<Batch>)
    ensures Distinct(Keys(bs))
    decreases |bs|
  {
    if bs != [] {
      KeysDistinct(bs[..|bs| - 1]);
    }
  }

  /** Some file with key `key` has a valid record. */
  predicate KeyHasFile(bs: seq<Batch>, key: string) {
    Any(bs, (b: Batch) => BatchKey(b) == key && b.records != [])
  }

  /** A key is in the order exactly when some file with that key has a
      valid record. */
  lemma {:induction false} KeysAreFileKeys(bs: seq<Batch>, key: string)
    ensures key in Keys(bs) <==> KeyHasFile(bs, key)
    decreases |bs|
  {
    if bs != [] {
      KeysAreFileKeys(bs[..|bs| - 1], key);
      AnySnoc(bs, (b: Batch) => BatchKey(b) == key && b.records != []);
    }
  }

  /** The entries are exactly one per key. */
  lemma SessionEntriesAreKeyEntries(bs: seq<Batch>, formatDate: string -> string)
    ensures |SessionEntries(bs, formatDate)| == |Keys(bs)|
    ensures forall e :: (e in SessionEntries(bs, formatDate)
      <==> exists k | k in Keys(bs) :: e == SessionEntry(bs, k, formatDate))
  {
    var entries := SessionEntries(bs, formatDate);
    forall e
      ensures e in entries <==> exists k | k in Keys(bs) :: e == SessionEntry(bs, k, formatDate)
    {
      if exists k | k in Keys(bs) :: e == SessionEntry(bs, k, formatDate) {
        var k :| k in Keys(bs) && e == SessionEntry(bs, k, formatDate);
        var i :| 0 <= i < |Keys(bs)| && Keys(bs)[i] == k;
        assert entries[i] == e;
      }
    }
  }

  /** Filtering and then sorting keeps each in-range entry as often as it
      occurs, and no other. */
  lemma SortedFilterCounts(entries: seq<SessionUsage>, options: DateFilter)
    ensures var r := SortDescBy(ApplyDateFilter(entries, LastActivity, options), ByCost);
      && (forall e :: multiset(r)[e] == if InRange(e.lastActivity, options) then multiset(entries)[e] else 0)
      && (forall e :: e in r <==> e in entries && InRange(e.lastActivity, options))
  {
    var r := SortDescBy(ApplyDateFilter(entries, LastActivity, options), ByCost);
    FilterCounts(entries, LastActivity, options);
    forall e
      ensures e in r <==> e in entries && InRange(e.lastActivity, options)
    {
      assert e in r <==> multiset(r)[e] > 0;
      assert e in entries <==> multiset(entries)[e] > 0;
    }
  }

  /** What the report holds: each session entry whose last activity passes
      the range filter, as often as it occurs among the entries (one entry per
      key), in non-increasing cost order. No file, or no valid line, gives an
      empty report. */
  lemma SessionReportContents(files: seq<LogFile>, options: DateFilter, parse: string -> Option<Json>,
                              formatDate: string -> string)
    ensures var bs := Batches(files, parse);
      var r := SessionReport(files, options, parse, formatDate);
      && (forall e :: e in r <==>
            (exists k | k in Keys(bs) :: e == SessionEntry(bs, k, formatDate)) && InRange(e.lastActivity, options))
      && (files != [] ==> forall e ::
            multiset(r)[e] == if InRange(e.lastActivity, options) then multiset(SessionEntries(bs, formatDate))[e] else 0)
      && NonIncreasing(r, ByCost)
      && (AllRecords(bs) == [] ==> r == [])
  {
    var bs := Batches(files, parse);
    SessionReportMembership(files, options, parse, formatDate);
    if files != [] {
      SortedFilterCounts(SessionEntries(bs, formatDate), options);
    }
    if AllRecords(bs) == [] {
      NoRecordsEmptyReport(files, options, parse, formatDate);
    }
  }

  /** An entry is in the report exactly when it is some key's entry and its
      last activity is in range. */
  lemma SessionReportMembership(files: seq<LogFile>, options: DateFilter, parse: string -> Option<Json>,
                                formatDate: string -> string)
    ensures var bs := Batches(files, parse);
      forall e :: e in SessionReport(files, options, parse, formatDate) <==>
        (exists k | k in Keys(bs) :: e == SessionEntry(bs, k, formatDate)) && InRange(e.lastActivity, options)
  {
    var bs := Batches(files, parse);
    var r := SessionReport(files, options, parse, formatDate);
    var entries := SessionEntries(bs, formatDate);
    SessionEntriesAreKeyEntries(bs, formatDate);
    if files != [] {
      SortedFilterCounts(entries, options);
      assert r == SortDescBy(ApplyDateFilter(entries, LastActivity, options), ByCost);
      forall e
        ensures e in r <==> (exists k | k in Keys(bs) :: e == SessionEntry(bs, k, formatDate))
                            && InRange(e.lastActivity, options)
      {
        assert e in r <==> e in entries && InRange(e.lastActivity, options);
        assert e in entries <==> exists k | k in Keys(bs) :: e == SessionEntry(bs, k, formatDate);
      }
    } else {
      assert r == [] && Keys(bs) == [];
    }
  }

  /** Without a valid record the report is empty. */
  lemma NoRecordsEmptyReport(files: seq<LogFile>, options: DateFilter, parse: string -> Option<Json>,
                             formatDate: string -> string)
    requires AllRecords(Batches(files, parse)) == []
    ensures SessionReport(files, options, parse, formatDate) == []
  {
    var bs := Batches(files, parse);
    if files != [] {
      var entries := SessionEntries(bs, formatDate);
      NoRecordsNoKeys(bs);
      assert entries == [];
      var sorted := SortDescBy(ApplyDateFilter(entries, LastActivity, options), ByCost);
      assert multiset(sorted) == multiset{};
    }
  }

  /** Without a valid record there is no key. */
  lemma {:induction false} NoRecordsNoKeys(bs: seq<Batch>)
    requires AllRecords(bs) == []
    ensures Keys(bs) == []
    decreases |bs|
  {
    if bs != [] {
      NoRecordsNoKeys(bs[..|bs| - 1]);
    }
  }

  /** Every file in the same directory has the same key, so all their
      valid records fold into one entry. */
  lemma SameDirectorySameKey(p: seq<string>, q: seq<string>)
    requires |p| >= 2 && |q| >= 2 && p[..|p| - 1] == q[..|q| - 1]
    ensures SessionKey(p) == SessionKey(q)
  {
    assert p[..|p| - 2] == p[..|p| - 1][..|p| - 2];
    assert q[..|q| - 2] == q[..|q| - 1][..|q| - 2];
    assert p[|p| - 2] == p[..|p| - 1][|p| - 2];
    assert q[|q| - 2] == q[..|q| - 1][|q| - 2];
  }

  /** The key is built from the raw values while the entry stores the
      fallbacks: a file directly under `projects` has the key "/undefined"
      and is shown as "unknown" in "Unknown Project"; a session directory
      directly under `projects` has the key "/" + its name and is shown in
      "Unknown Project". */
  lemma FallbackNames(parts: seq<string>)
    ensures |parts| < 2 ==>
      && SessionKey(parts) == "/undefined"
      && StoredSessionId(parts) == "unknown" && StoredProjectPath(parts) == "Unknown Project"
    ensures |parts| == 2 ==>
      && SessionKey(parts) == "/" + parts[0]
      && StoredProjectPath(parts) == "Unknown Project"
      && StoredSessionId(parts) == (if parts[0] == "" then "unknown" else parts[0])
    ensures |parts| > 2 ==>
      && SessionKey(parts) == RawProjectPath(parts) + "/" + parts[|parts| - 2]
      && StoredSessionId(parts) == (if parts[|parts| - 2] == "" then "unknown" else parts[|parts| - 2])
  {
    if |parts| == 2 {
      assert parts[..0] == [];
    }
  }

  /** `lastTimestamp` starts again at "" for every file, so once a later file
      with the same key has a non-empty timestamp, the earlier files no longer
      matter: the last such file alone decides `lastActivity`. */
  lemma LastFileDecidesActivity(bs: seq<Batch>, b: Batch, later: seq<Batch>, formatDate: string -> string)
    requires MaxTimestamp(b.records) != ""
    requires forall i | 0 <= i < |later| :: BatchKey(later[i]) != BatchKey(b) || MaxTimestamp(later[i].records) == ""
    ensures Activity(bs + [b] + later, BatchKey(b), formatDate) == formatDate(MaxTimestamp(b.records))
  {
    LaterFilesIgnored(bs + [b], later, BatchKey(b), formatDate);
    SpecSnoc(bs, b, BatchKey(b), formatDate);
  }

  lemma {:induction false} LaterFilesIgnored(bs: seq<Batch>, later: seq<Batch>, key: string, formatDate: string -> string)
    requires forall i | 0 <= i < |later| :: BatchKey(later[i]) != key || MaxTimestamp(later[i].records) == ""
    ensures Activity(bs + later, key, formatDate) == Activity(bs, key, formatDate)
    decreases |later|
  {
    if later == [] {
      assert bs + later == bs;
    } else {
      var init := later[..|later| - 1];
      assert bs + later == (bs + init) + [later[|later| - 1]];
      LaterFilesIgnored(bs, init, key, formatDate);
      SpecSnoc(bs + init, later[|later| - 1], key, formatDate);
    }
  }

  /** The activity is "" or the formatted largest timestamp of a file with
      the key: never a date no record of the session carries. */
  lemma {:induction false} ActivityIsAFileMaximum(bs: seq<Batch>, key: string, formatDate: string -> string)
    ensures Activity(bs, key, formatDate) == ""
      || exists i | 0 <= i < |bs| :: && BatchKey(bs[i]) == key && MaxTimestamp(bs[i].records) != ""
                                     && Activity(bs, key, formatDate) == formatDate(MaxTimestamp(bs[i].records))
    decreases |bs|
  {
    if bs != [] {
      var init := bs[..|bs| - 1];
      ActivityIsAFileMaximum(init, key, formatDate);
      if Activity(bs, key, formatDate) != "" && Activity(bs, key, formatDate) == Activity(init, key, formatDate) {
        var i :| 0 <= i < |init| && BatchKey(init[i]) == key && MaxTimestamp(init[i].records) != ""
                 && Activity(init, key, formatDate) == formatDate(MaxTimestamp(init[i].records));
        assert bs[i] == init[i];
      }
    }
  }

  /** Two files of one session read in this order: the first holds the later
      timestamp, yet the session's `lastActivity` is the date of the second
      file's, the smaller one. `lastActivity` is the latest activity of the
      last file read, not of the whole session. */
  lemma EarlierLastFileWins(formatDate: string -> string, u1: UsageData, u2: UsageData)
    requires u1.timestamp == "2024-02-01T10:00:00Z" && u2.timestamp == "2024-01-01T10:00:00Z"
    ensures var parts1, parts2 := ["proj", "sess", "a.jsonl"], ["proj", "sess", "b.jsonl"];
      var bs := [Batch(parts1, [u1]), Batch(parts2, [u2])];
      && Less(u2.timestamp, u1.timestamp)
      && Activity(bs, SessionKey(parts1), formatDate) == formatDate(u2.timestamp)
  {
    var parts1, parts2 := ["proj", "sess", "a.jsonl"], ["proj", "sess", "b.jsonl"];
    SameDirectorySameKey(parts1, parts2);
    var b2 := Batch(parts2, [u2]);
    assert [u2][..0] == [];
    assert MaxTimestamp([u2]) == u2.timestamp;
    var bs := [Batch(parts1, [u1]), b2];
    assert bs == [Batch(parts1, [u1])] + [b2] + [];
    LastFileDecidesActivity([Batch(parts1, [u1])], b2, [], formatDate);
    var a, b := u2.timestamp, u1.timestamp;
    assert a[..6] == b[..6];
    assert BelowAt(a, b, 6);
    BelowAtLess(a, b, 6);
  }

  /** The per-key sums over some of the keys, added up. */
  function KeySum(bs: seq<Batch>, ks: seq<string>): TokenTotals {
    CalculateCost.SumBy(ks, k => KeyTotals(bs, k))
  }

  /** One more file adds its records' sum to the sum over any list of
      distinct keys that contains its key, and nothing otherwise. */
  lemma {:induction false} KeySumStep(bs: seq<Batch>, b: Batch, ks: seq<string>)
    requires Distinct(ks)
    ensures KeySum(bs + [b], ks)
      == Add(KeySum(bs, ks), if BatchKey(b) in ks then RecordsTotals(b.records) else ZeroTotals)
    decreases |ks|
  {
    if ks == [] {
      AddZero(ZeroTotals);
    } else {
      var init, k := ks[..|ks| - 1], ks[|ks| - 1];
      assert ks == init + [k];
      assert Distinct(init) by {
        forall i, j | 0 <= i < j < |init| ensures init[i] != init[j] {
          assert init[i] == ks[i] && init[j] == ks[j];
        }
      }
      assert k !in init by {
        forall i | 0 <= i < |init| ensures init[i] != k {
          assert init[i] == ks[i];
        }
      }
      KeySumStep(bs, b, init);
      KeyTotalsSnoc(bs, b, k);
      var x := if BatchKey(b) in init then RecordsTotals(b.records) else ZeroTotals;
      var y := if BatchKey(b) == k then RecordsTotals(b.records) else ZeroTotals;
      AddInterchange(KeySum(bs, init), KeyTotals(bs, k), x, y);
      AddZero(RecordsTotals(b.records));
      AddZero(ZeroTotals);
    }
  }

  /** No valid record is lost or counted twice: the per-session sums over
      all the keys add up to the sum over every valid record of every file. */
  lemma {:induction false} KeySumIsRecordsTotals(bs: seq<Batch>)
    ensures KeySum(bs, Keys(bs)) == RecordsTotals(AllRecords(bs))
    decreases |bs|
  {
    if bs == [] {
    } else {
      var init, b := bs[..|bs| - 1], bs[|bs| - 1];
      assert bs == init + [b];
      var ks := Keys(init);
      KeySumIsRecordsTotals(init);
      KeysDistinct(init);
      KeySumStep(init, b, ks);
      KeysSnoc(init, b);
      RecordsTotalsAppend(AllRecords(init), b.records);
      if b.records == [] {
        AddZero(KeySum(init, ks));
      } else if BatchKey(b) !in ks {
        UnseenKeyTotals(init, BatchKey(b));
        KeyTotalsSnoc(init, b, BatchKey(b));
        assert (ks + [BatchKey(b)])[..|ks|] == ks;
        AddZero(KeySum(bs, ks));
        AddZero(KeySum(init, ks));
        AddZero(RecordsTotals(b.records));
      }
    }
  }

  /** Hence the totals row over the session entries (`calculateTotals` of
      the loaded sessions, before the date filter) equals the sum of every
      valid record. */
  lemma SessionTotalsConserved(bs: seq<Batch>, formatDate: string -> string)
    ensures CalculateCost.SessionTotals(SessionEntries(bs, formatDate)) == RecordsTotals(AllRecords(bs))
  {
    var es, ks := SessionEntries(bs, formatDate), Keys(bs);
    var f := (k: string) => KeyTotals(bs, k);
    assert seq(|es|, i requires 0 <= i < |es| => es[i].Totals())
        == seq(|ks|, i requires 0 <= i < |ks| => f(ks[i]));
    CalculateCost.CalculateTotalsOfKeys(ks, f);
    KeySumIsRecordsTotals(bs);
  }

  /** With no active bound, `calculateTotals` over the returned report equals
      the sum of every valid record: the sort only rearranges the entries. */
  lemma SessionReportTotalsConserved(files: seq<LogFile>, options: DateFilter, parse: string -> Option<Json>,
                                     formatDate: string -> string)
    requires !Filtering(options)
    ensures CalculateCost.SessionTotals(SessionReport(files, options, parse, formatDate))
      == RecordsTotals(AllRecords(Batches(files, parse)))
  {
    var bs := Batches(files, parse);
    var report := SessionReport(files, options, parse, formatDate);
    if files != [] {
      var entries := SessionEntries(bs, formatDate);
      NoBoundKeepsAll(entries, LastActivity, options);
      assert multiset(report) == multiset(entries);
      CalculateCost.SessionTotalsOfPermutation(report, entries);
      SessionTotalsConserved(bs, formatDate);
    }
  }
}
