# ccusage data loading, totals and date arguments in Dafny

This project models the core of `ccusage`, a command-line tool that reads the
JSON-lines logs of Claude Code sessions and reports token usage and cost.

- **Line validation** (`validateUsageData`): which parsed lines count as usage records, and what each record contributes.
- **Daily report** (`loadUsageData`): one entry per formatted date, holding the sums of every valid record of that date. The entries are filtered by an inclusive `since`/`until` range and sorted newest first.
- **Session report** (`loadSessionData`): one entry per session key, derived from the log file's directory. Each entry holds the sums, the names shown for the session, and the date of its last activity. The entries are filtered by that date and sorted by cost, largest first.
- **Totals** (`calculateTotals`, `getTotalTokens`, `createTotalsObject`): as their tests pin them down.
- **Date arguments** (`parseDateArg` and the `since`/`until` options): in both entry points.

Both loaders are written as in the source, as imperative `method`s.

- Nested loops run over files and lines. Each loop updates a `map` keyed by date or session, plus a sequence that records the map's insertion order (a JavaScript `Map` iterates in insertion order).
- Each loader is proved equal to a specification function (`DailyReport`, `SessionReport`). The lemmas then state what the report holds:
  - one entry per key, with the field-wise sums of exactly the right records;
  - the per-date sums and the set of daily entries do not depend on the order in which files and lines are read; the session report's `lastActivity` does, because it depends on which file of a session is read last;
  - no record is lost or counted twice: the totals over the entries equal the totals over all records, and with no active date bound so do the totals over the returned report;
  - the range filter is inclusive and order-preserving;
  - the output order is the sort order.

Inputs from outside the core are parameters:

- the discovered files (path segments and lines);
- `JSON.parse`, with `None` where it throws;
- `formatDate`;
- the `Date` parse used as the daily sort key.

Numbers are `real`.

Modules, one per file:

- `Wrappers`: `Option` and `Result`.
- `Json`: parsed JSON values, plus JavaScript's `typeof`, truthiness and optional property access on them.
- `Strings`: JavaScript string `<`, `replace(/-/g, "")`, `join`, and eight-digit date strings.
- `Types`: the record types.
- `Validation`: `validateUsageData`.
- `LogRecords`: from files to records.
- `RangeFilter`: the `since`/`until` filter.
- `Sorting`: the descending sort.
- `Seqs`: distinctness, removal at an index, and "some element satisfies".
- `CalculateCost`: the totals functions.
- `DailyLoader` and `SessionLoader`: the two loaders.
- `SharedArgs` and `SharedArgsRemote`: the date-argument parsers.

Behaviour of the code that the model keeps as written:

- The loop's comment says "Keep track of the latest timestamp"
  (data-loader.ts:237), but `lastTimestamp` restarts at "" for each file
  (data-loader.ts:209). So the last file read for a session key that has a
  non-empty timestamp decides `lastActivity`, even when an earlier file of
  the same session holds a later timestamp. `SessionLoader.Activity` models
  this, and `SessionLoader.EarlierLastFileWins` exhibits it on two files of
  one session directory.
- The session key keeps the raw values, so a file directly under
  `projects` has the key "/undefined". The entry shows the fallback names
  "unknown" and "Unknown Project" instead (`SessionLoader.FallbackNames`).
- Any string is accepted as `timestamp` (data-loader.ts:60), whether it
  names a date or not. It is passed to `formatDate` and compared as a
  string, as in the code.

## Model

| member | source | states |
|---|---|---|
| Validation.ValidateUsageData | data-loader.ts:55-69 | a record is returned exactly when the value is an object with a string `timestamp`, a number `costUSD`, and an object `message.usage` with number `input_tokens` and `output_tokens`; it then carries exactly the value's fields, and the cache fields are passed through unchecked |
| Validation.EncodeRoundTrip | data-loader.ts:55-69 | every record written back out as JSON validates to itself, whatever its cache fields hold: the validator never inspects them |
| Validation.NonObjectsRejected | data-loader.ts:56 | null, booleans, numbers, strings and arrays are all rejected |
| Validation.Contribution | data-loader.ts:149-153 | a record adds its input, output and cost unchanged, a numeric cache count as is, and 0 for an absent one (`\|\| 0`) |
| LogRecords.NonEmptyLines | data-loader.ts:126-129 | no empty line survives the line filter, and a line is kept exactly when it is in the input and not empty |
| LogRecords.NonEmptyLinesKeepsNonEmpty | data-loader.ts:129 | lines that are all non-empty pass the filter unchanged and in order; with `NonEmptyLinesAppend` this fixes the filter on every input |
| LogRecords.SkippedLineContributesNothing | data-loader.ts:126-137 | an empty line, a line `JSON.parse` rejects, or a line that fails validation contributes no record wherever it stands, and the lines after it are still read |
| LogRecords.SkippedLineNoRecords | data-loader.ts:126-137 | an empty line, or one that does not parse or validate, yields no record on its own |
| LogRecords.LineRecordsAppend | data-loader.ts:131-158 | the records of a file are the records of its lines taken in order, piece by piece |
| LogRecords.MaxTimestampIsMaximum | data-loader.ts:209-241 | the running `lastTimestamp` of a file ends at the lexical maximum of its timestamps: no timestamp is above it, and unless it is "" it is one of them |
| LogRecords.RecordsTotalsAppend | data-loader.ts:149-153 | the sum of the contributions of two runs of records is the sum of their sums |
| DailyLoader.LoadUsageData | data-loader.ts:108-176 | no file gives `[]`; otherwise the result is the daily report of the valid records: per-date entries, range-filtered, sorted by the date key |
| DailyLoader.AccumulateDaily | data-loader.ts:122-160 | after the file loop, the map and its insertion order hold exactly one entry per date of a valid record, with that date's sums |
| DailyLoader.AccumulateLines | data-loader.ts:131-159 | reading one file's lines, skipping those that do not parse or validate, extends the map by exactly that file's valid records |
| DailyLoader.AddToDaily | data-loader.ts:139-155 | a new date starts from zero and joins the insertion order, and a known date's entry is updated in place; either way the map again equals the per-date sums |
| DailyLoader.AddRecord | data-loader.ts:139-155 | one more record adds its contribution to its own date only, and appends the date to the keys when it is new |
| DailyLoader.DatesAreRecordDates | data-loader.ts:139-155 | a date is a key exactly when some valid record's timestamp formats to it |
| DailyLoader.DatesDistinct | data-loader.ts:140-155 | no date is a key twice |
| DailyLoader.DailyEntriesAreDateSums | data-loader.ts:139-163 | the entries are exactly one per key date, each with that date's sums, no two alike |
| DailyLoader.DateTotalsAppend | data-loader.ts:149-153 | the per-date sums of two runs of records add up |
| DailyLoader.DateTotalsOrderIndependent | data-loader.ts:124-160 | any rearrangement of the same valid records (another file order, another line order) gives the same sums for every date |
| DailyLoader.DailyEntriesOrderIndependent | data-loader.ts:124-163 | hence the same set of daily entries |
| DailyLoader.DateTotalsGrow | data-loader.ts:149-153 | with non-negative records the sums of a date never decrease as records are read |
| DailyLoader.DailyReportContents | data-loader.ts:118-175 | the report holds exactly the in-range key dates' entries with their sums, no date twice, in non-increasing order of the sort key, and is empty when no line is valid |
| DailyLoader.DailyReportNewestFirst | data-loader.ts:175 | when every date in the report is `YYYY-MM-DD` and the `Date` parse orders those dates chronologically, the report is in strictly descending date order |
| DailyLoader.DateSumIsRecordsTotals | data-loader.ts:139-155 | the per-date sums over all the dates add up to the sum over all valid records: nothing is lost or counted twice |
| DailyLoader.DailyTotalsConserved | data-loader.ts:139-163 | `calculateTotals` over the map's daily entries, before filtering and sorting, equals the sum of every valid record |
| DailyLoader.DailyReportTotalsConserved | commands/daily-remote.ts:20-32 | with no active date bound, `calculateTotals` over the report `loadUsageData` returns equals the sum of every valid record |
| SessionLoader.StoredSessionId | data-loader.ts:200-221 | a new entry stores the raw session directory name, or "unknown" when it is missing or empty; never "" |
| SessionLoader.StoredProjectPath | data-loader.ts:202-222 | a new entry stores the joined project path, or "Unknown Project" when it is empty; never "" |
| SessionLoader.FallbackNames | data-loader.ts:196-223 | the key keeps the raw values ("/undefined" for a file directly under `projects`, "/" + name for a session directly under it) while the entry shows the fallbacks |
| SessionLoader.SameDirectorySameKey | data-loader.ts:196-219 | files in the same directory share a key, so their records fold into one entry |
| SessionLoader.LoadSessionData | data-loader.ts:178-264 | no file gives `[]`; otherwise the result is the session report: per-key entries, filtered by last activity, sorted by cost |
| SessionLoader.AccumulateSessions | data-loader.ts:192-248 | after the file loop, the map and its insertion order equal the per-key entries of all files |
| SessionLoader.AccumulateFile | data-loader.ts:194-247 | a file's key parts come from its path, `lastTimestamp` restarts at "", and its valid lines extend the map by exactly that file |
| SessionLoader.AddToSession | data-loader.ts:219-243 | a new key's entry takes the stored names and zero sums; the record's contribution is added; a timestamp above `lastTimestamp` becomes the new `lastTimestamp` and its date the entry's `lastActivity` |
| SessionLoader.AccumulateStep | data-loader.ts:219-243 | that update keeps the map equal to the per-key entries of the records read so far |
| SessionLoader.StepOwnEntry | data-loader.ts:220-241 | the entry the loop writes for the file's key (`NewEntry`) is the specification's entry for that key after the record |
| SessionLoader.StepKnownEntry | data-loader.ts:220-241 | a key already present keeps its names, gains the record's contribution, and moves its activity to the record's date exactly when the timestamp is above the file's largest so far |
| SessionLoader.StepFirstEntry | data-loader.ts:220-241 | a key seen for the first time takes the current file's stored names, exactly the record's contribution, and the record's date as activity when its timestamp is above the file's largest so far (otherwise "") |
| SessionLoader.StepValues | data-loader.ts:219-243 | after the update every entry in the map is the specification's entry for its key |
| SessionLoader.UpdateSession | data-loader.ts:231-241 | the record's five metric contributions are added to the entry; a timestamp lexically above `lastTimestamp` replaces it and sets `lastActivity` to its formatted date, otherwise both stay |
| SessionLoader.StepOtherEntries | data-loader.ts:219-243 | a record changes no other key's entry |
| SessionLoader.StepActivity | data-loader.ts:238-241 | `lastActivity` moves to the record's date exactly when its raw timestamp is lexically above the file's largest so far |
| SessionLoader.StepNames | data-loader.ts:220-229 | an entry's names never change once it exists |
| SessionLoader.EmptyBatchNeutral | data-loader.ts:209-211 | starting a file changes nothing until a valid line is read |
| SessionLoader.UnseenKey | data-loader.ts:220-229 | a key with no valid record has no names, zero sums and empty activity |
| SessionLoader.KeysDistinct | data-loader.ts:219-243 | no key is in the map twice |
| SessionLoader.KeysAreFileKeys | data-loader.ts:219-243 | a key is present exactly when some file with that key has a valid record |
| SessionLoader.SessionReportContents | data-loader.ts:188-263 | the report holds each in-range session entry as often as among the entries, in non-increasing cost order, and is empty when no line is valid |
| SessionLoader.SessionReportMembership | data-loader.ts:250-263 | an entry is in the report exactly when it is some key's entry and its last activity is in range |
| SessionLoader.NoRecordsEmptyReport | data-loader.ts:188-263 | without a valid record the report is empty |
| SessionLoader.LastFileDecidesActivity | data-loader.ts:209-241 | the last file of a key with a non-empty timestamp alone decides `lastActivity` |
| SessionLoader.ActivityIsAFileMaximum | data-loader.ts:238-241 | `lastActivity` is "" or the formatted largest timestamp of some file with that key |
| SessionLoader.EarlierLastFileWins | data-loader.ts:209-241 | two files of one session: the earlier-read one holds the later timestamp, yet `lastActivity` is the later-read file's earlier date |
| SessionLoader.KeySumIsRecordsTotals | data-loader.ts:231-236 | the per-session sums over all keys add up to the sum over every valid record |
| SessionLoader.SessionTotalsConserved | data-loader.ts:231-251 | `calculateTotals` over the map's session entries, before filtering and sorting, equals the sum of every valid record |
| SessionLoader.SessionReportTotalsConserved | data-loader.ts:250-263 | with no active date bound, `calculateTotals` over the report `loadSessionData` returns equals the sum of every valid record |
| RangeFilter.NoBoundKeepsAll | data-loader.ts:165-172 | with neither bound given (or both empty) every date is in range, so skipping the filter changes nothing |
| RangeFilter.FilterCounts | data-loader.ts:165-172 | the filter keeps an entry, with its multiplicity, exactly when its dash-stripped date is not below `since` and not above `until` |
| RangeFilter.FilterMembership | data-loader.ts:165-172 | an entry survives if and only if it was there and its date is in range |
| RangeFilter.FilterAppend | data-loader.ts:166-171 | the filter never reorders: it is an order-preserving subsequence |
| RangeFilter.BoundsInclusive | data-loader.ts:168-169 | both bounds are inclusive |
| RangeFilter.InRangeIsNumeric | data-loader.ts:167-169 | for a `YYYY-MM-DD` date and eight-digit bounds, the string comparison keeps the date exactly when the number `YYYYMMDD` lies between the bounds |
| Sorting.SortDescBy | data-loader.ts:175 | the sorted result is a permutation of its input with non-increasing keys |
| Strings.LessIsFirstDifference | data-loader.ts:168-169 | JavaScript's string `<` holds exactly when, after a common prefix, the left string ends or has the smaller next character |
| Strings.LessTotal | data-loader.ts:168-169 | two different strings are always ordered one way or the other |
| Strings.LessTransitive | data-loader.ts:238 | the order is transitive |
| Strings.RemoveDashes | data-loader.ts:167 | `replace(/-/g, "")` leaves no dash and never lengthens |
| Strings.IsoDateWithoutDashes | data-loader.ts:167 | a `YYYY-MM-DD` date without dashes is its eight digits `YYYYMMDD` |
| Strings.LexicalIsNumeric | data-loader.ts:168-169 | on equal-length digit strings, string order is numeric order |
| CalculateCost.CalculateTotalsIsFieldSum | calculate-cost.test.ts:5-118 | each of the five fields of the totals is the sum of that field over the input; the empty input gives all zeros |
| CalculateCost.CalculateTotalsOfConcatenation | calculate-cost.test.ts:5-31 | the totals of two runs add up field by field |
| CalculateCost.CalculateTotalsOfPermutation | calculate-cost.test.ts:5-31 | any rearrangement of the same records reduces to the same totals |
| CalculateCost.DailyTotalsOfPermutation | calculate-cost.test.ts:5-31 | daily entries in any order reduce to the same totals |
| CalculateCost.SessionTotalsOfPermutation | calculate-cost.test.ts:33-63 | session entries in any order reduce to the same totals |
| CalculateCost.SessionTotalsMatchDailyTotals | calculate-cost.test.ts:33-63 | session records reduce to the same totals as daily records with the same five fields; names, dates and activity are ignored |
| CalculateCost.DailyAndSessionExamples | calculate-cost.test.ts:5-63 | the two test inputs reduce to 300 / 150 / 75 / 30 tokens and a cost of 0.03 |
| CalculateCost.TotalTokensOfTotals | calculate-cost.test.ts:65-75 | the total tokens of the totals is the sum of every record's four token counts, and the cost never enters it |
| CalculateCost.GetTotalTokensExamples | calculate-cost.test.ts:65-87 | 100 + 50 + 25 + 10 gives 185 and all-zero counts give 0 |
| CalculateCost.CreateTotalsObject | calculate-cost.test.ts:89-107 | the totals object keeps the five fields unchanged and adds `totalTokens`, the sum of the four counts |
| CalculateCost.CreateTotalsObjectExample | calculate-cost.test.ts:89-107 | the test input gives `totalTokens` 185 and the other fields unchanged |
| SharedArgs.DateRegexTestIff | shared-args.ts:4-7 | `/^\d{8}$/` accepts exactly the strings of eight ASCII digits |
| SharedArgs.ParseDateArg | shared-args.ts:6-11 | eight ASCII digits come back unchanged; anything else gives a `TypeError` "Date must be in YYYYMMDD format" |
| SharedArgs.ParseDateArgIdempotent | shared-args.ts:10 | parsing an accepted value again gives the same result |
| SharedArgs.ParseDateOptions | shared-args.ts:13-25 | `since` and `until` both go through `parseDateArg`; parsing succeeds exactly when every given value is accepted |
| SharedArgs.ParsedOptionsAreYyyymmdd | shared-args.ts:13-25 | every bound that reaches a loader is eight ASCII digits |
| SharedArgsRemote.ParseDateArg | shared-args-remote.ts:4-11 | the remote copy accepts exactly eight ASCII digits, returns them unchanged, and otherwise gives the same `TypeError` |
| SharedArgsRemote.ParseDateOptions | shared-args-remote.ts:13-25 | the remote `since`/`until` parse exactly like the local ones and yield eight-digit bounds |
| SharedArgsRemote.SameAsLocalCopy | shared-args-remote.ts:4-25 | both entry points accept and reject the same arguments with the same results |

## Left out

- Directory walking and file reading are not modelled: `glob`, `walkDir`, `readFile`, `homedir` and `getDefaultClaudePath` are I/O. The model takes the discovered files as input, each as path segments relative to `projects` plus its lines after `trim().split("\n")`. The `.jsonl` suffix test is part of the walk and is left out with it.
- `JSON.parse` is a parameter returning `None` where it would throw. `formatDate` is a parameter because `Date` parsing and the local timezone are outside the model. The daily sort key `new Date(date).getTime()` is a parameter too.
- Numbers are mathematical reals: no floating-point rounding, no NaN, no Infinity. The rounding in the cost assertions of calculate-cost.test.ts is therefore not needed.
- Validation.Contribution: a cache count that is present, truthy and not a number (a string, say) is read as 0. JavaScript would concatenate or coerce it instead.
- Sorting.SortDescBy: the model sorts by insertion, which keeps equal keys stable. Only a permutation with non-increasing keys is promised, so the tie order of `fast-sort` is not modelled.
- The path separator is the POSIX "/"; Windows separators are not modelled.
- String comparison is by Dafny characters, i.e. code points. JavaScript compares UTF-16 code units, which differ only for characters outside the Basic Multilingual Plane.
- Each map entry is updated in place in the source (`existing.x += ...`). The model replaces the entry in the map, which is equivalent because nothing else refers to the entry.
- The implementation of `calculateTotals`, `getTotalTokens` and `createTotalsObject` is not part of this model. They are modelled from their tests.
- Table rendering, colours, JSON output, logging and CLI bootstrap are outside the core.
