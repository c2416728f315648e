/** The `--since` / `--until` argument parser `parseDateArg` and the two
    options that use it. */
module SharedArgs {
  import opened Wrappers
  import opened Strings
  import opened Types

  /** What `parseDateArg` throws. */
  datatype TypeError = TypeError(message: string)

  const DateFormatMessage: string := "Date must be in YYYYMMDD format"

  /** The regular expression `^\d{8}$` matched from position `pos` with
      `count` digits still to read: each `\d` takes one ASCII digit, and
      `$`, without the multiline flag, matches only at the very end of the
      input (a trailing newline is not skipped). */
  predicate MatchDigitsThenEnd(value: string, pos: nat, count: nat)
    decreases count
  {
    if count == 0 then pos == |value|
    else pos < |value| && IsDigit(value[pos]) && MatchDigitsThenEnd(value, pos + 1, count - 1)
  }

  /** `dateRegex.test(value)`: the `^` anchors the match at position 0. */
  predicate DateRegexTest(value: string) {
    MatchDigitsThenEnd(value, 0, 8)
  }

  lemma {:induction false} MatchDigitsThenEndIff(value: string, pos: nat, count: nat)
    requires pos <= |value|
    ensures MatchDigitsThenEnd(value, pos, count) <==> |value| == pos + count && AllDigits(value[pos..])
    decreases count
  {
    if count > 0 && pos < |value| {
      MatchDigitsThenEndIff(value, pos + 1, count - 1);
      assert value[pos..] == [value[pos]] + value[pos + 1..];
    }
  }

  /** The regular expression accepts exactly the strings of eight ASCII
      digits. */
  lemma DateRegexTestIff(value: string)
    ensures DateRegexTest(value) <==> |value| == 8 && AllDigits(value)
  {
    MatchDigitsThenEndIff(value, 0, 8);
    assert value[0..] == value;
  }

  /** `parseDateArg`: a string of exactly eight ASCII digits comes back
      unchanged; anything else throws a `TypeError` with the fixed message. */
  function ParseDateArg(value: string): (r: Result<string, TypeError>)
    ensures r.Ok? <==> |value| == 8 && AllDigits(value)
    ensures r.Ok? ==> r.value == value
    ensures r.Err? ==> r.error == TypeError(DateFormatMessage)
  {
    DateRegexTestIff(value);
    if !DateRegexTest(value) then Err(TypeError(DateFormatMessage)) else Ok(value)
  }

  /** What `parseDateArg` accepts it accepts again, with the same result. */
  lemma ParseDateArgIdempotent(value: string)
    requires ParseDateArg(value).Ok?
    ensures ParseDateArg(ParseDateArg(value).value) == ParseDateArg(value)
  {
  }

  /** The `since` and `until` options: each given value goes through
      `parseDateArg`, and the first that throws aborts argument parsing. */
  function ParseDateOptions(since: Option<string>, until: Option<string>): (r: Result<DateFilter, TypeError>)
    ensures r.Ok? <==>
      (since.None? || ParseDateArg(since.value).Ok?) && (until.None? || ParseDateArg(until.value).Ok?)
    ensures r.Ok? ==> r.value == DateFilter(since, until)
    ensures r.Err? ==> r.error == TypeError(DateFormatMessage)
  {
    if since.Some? && ParseDateArg(since.value).Err? then Err(ParseDateArg(since.value).error)
    else if until.Some? && ParseDateArg(until.value).Err? then Err(ParseDateArg(until.value).error)
    else Ok(DateFilter(since, until))
  }

  /** A filter in which every given bound is eight ASCII digits. */
  predicate IsYyyymmddFilter(f: DateFilter) {
    && (f.since.Some? ==> |f.since.value| == 8 && AllDigits(f.since.value))
    && (f.until.Some? ==> |f.until.value| == 8 && AllDigits(f.until.value))
  }

  /** Any filter these options hand to the loader has eight-digit bounds;
      in particular neither bound is the empty string. */
  lemma ParsedOptionsAreYyyymmdd(since: Option<string>, until: Option<string>)
    requires ParseDateOptions(since, until).Ok?
    ensures IsYyyymmddFilter(ParseDateOptions(since, until).value)
  {
  }
}
