/** The remote entry point's copy of `parseDateArg` and its `since` /
    `until` options. The file repeats the local one word for word; the model
    repeats it too and proves the two copies agree. */
module SharedArgsRemote {
  import opened Wrappers
  import opened Strings
  import opened Types
  import SharedArgs

  /** `parseDateArg` of the remote entry point: `/^\d{8}$/` applied to the
      value, which is returned unchanged or rejected with a `TypeError`. */
  function ParseDateArg(value: string): (r: Result<string, SharedArgs.TypeError>)
    ensures r.Ok? <==> |value| == 8 && AllDigits(value)
    ensures r.Ok? ==> r.value == value
    ensures r.Err? ==> r.error == SharedArgs.TypeError(SharedArgs.DateFormatMessage)
  {
    SharedArgs.DateRegexTestIff(value);
    if !SharedArgs.DateRegexTest(value) then Err(SharedArgs.TypeError(SharedArgs.DateFormatMessage))
    else Ok(value)
  }

  /** The remote `since` and `until` options, both parsed by the remote
      `parseDateArg`. */
  function ParseDateOptions(since: Option<string>, until: Option<string>): (r: Result<DateFilter, SharedArgs.TypeError>)
    ensures r.Ok? <==>
      (since.None? || ParseDateArg(since.value).Ok?) && (until.None? || ParseDateArg(until.value).Ok?)
    ensures r.Ok? ==> r.value == DateFilter(since, until) && SharedArgs.IsYyyymmddFilter(r.value)
    ensures r.Err? ==> r.error == SharedArgs.TypeError(SharedArgs.DateFormatMessage)
  {
    if since.Some? && ParseDateArg(since.value).Err? then Err(ParseDateArg(since.value).error)
    else if until.Some? && ParseDateArg(until.value).Err? then Err(ParseDateArg(until.value).error)
    else Ok(DateFilter(since, until))
  }

  /** Both entry points accept and reject the same arguments. */
  lemma SameAsLocalCopy(value: string, since: Option<string>, until: Option<string>)
    ensures ParseDateArg(value) == SharedArgs.ParseDateArg(value)
    ensures ParseDateOptions(since, until) == SharedArgs.ParseDateOptions(since, until)
  {
  }
}
