/** The per-line shape check `validateUsageData` and what a valid record
    contributes to an aggregate. */
module Validation {
  import opened Wrappers
  import opened Json
  import opened Types

  /** The fields of an accepted line that the loader reads. The two cache
      counts are kept exactly as found, since nothing ever checks them. */
  datatype UsageData = UsageData(
    timestamp: string,
    costUSD: real,
    inputTokens: real,
    outputTokens: real,
    cacheCreationInputTokens: Option<Json>,
    cacheReadInputTokens: Option<Json>)

  /** The structural reading of the check: an object with a string
      `timestamp`, a number `costUSD`, and an object `message.usage` with
      number `input_tokens` and `output_tokens`. */
  predicate WellShaped(data: Json) {
    && data.JObject?
    && "timestamp" in data.members && data.members["timestamp"].JString?
    && "costUSD" in data.members && data.members["costUSD"].JNumber?
    && "message" in data.members && data.members["message"].JObject?
    && "usage" in data.members["message"].members
    && UsageShaped(data.members["message"].members["usage"])
  }

  predicate UsageShaped(usage: Json) {
    && usage.JObject?
    && "input_tokens" in usage.members && usage.members["input_tokens"].JNumber?
    && "output_tokens" in usage.members && usage.members["output_tokens"].JNumber?
  }

  /** `validateUsageData`: the JavaScript tests in their order (falsy or not
      an object, then `typeof` of each required field and the truthiness of
      `message?.usage`). Accepts exactly the well-shaped values; on
      acceptance the record carries the value's own fields. */
  function ValidateUsageData(data: Json): (r: Option<UsageData>)
    ensures r.Some? <==> WellShaped(data)
    ensures r.Some? ==>
      && r.value.timestamp == data.members["timestamp"].s
      && r.value.costUSD == data.members["costUSD"].n
      && r.value.inputTokens == data.members["message"].members["usage"].members["input_tokens"].n
      && r.value.outputTokens == data.members["message"].members["usage"].members["output_tokens"].n
      && r.value.cacheCreationInputTokens
           == Property(data.members["message"].members["usage"], "cache_creation_input_tokens")
      && r.value.cacheReadInputTokens
           == Property(data.members["message"].members["usage"], "cache_read_input_tokens")
  {
    if !Truthy(Some(data)) || TypeOf(Some(data)) != "object" then None
    else
      var timestamp := Property(data, "timestamp");
      var cost := Property(data, "costUSD");
      var usage := OptionalProperty(Property(data, "message"), "usage");
      var input := OptionalProperty(usage, "input_tokens");
      var output := OptionalProperty(usage, "output_tokens");
      if || TypeOf(timestamp) != "string"
         || TypeOf(cost) != "number"
         || !Truthy(usage)
         || TypeOf(input) != "number"
         || TypeOf(output) != "number"
      then None
      else
        Some(UsageData(
          timestamp.value.s,
          cost.value.n,
          input.value.n,
          output.value.n,
          OptionalProperty(usage, "cache_creation_input_tokens"),
          OptionalProperty(usage, "cache_read_input_tokens")))
  }

  /** The line a record is read from, written back out as JSON. */
  function Encode(u: UsageData): (v: Json) {
    var counts := map["input_tokens" := JNumber(u.inputTokens), "output_tokens" := JNumber(u.outputTokens)];
    var withCreation := if u.cacheCreationInputTokens.Some?
      then counts["cache_creation_input_tokens" := u.cacheCreationInputTokens.value] else counts;
    var withRead := if u.cacheReadInputTokens.Some?
      then withCreation["cache_read_input_tokens" := u.cacheReadInputTokens.value] else withCreation;
    JObject(map[
      "timestamp" := JString(u.timestamp),
      "costUSD" := JNumber(u.costUSD),
      "message" := JObject(map["usage" := JObject(withRead)])])
  }

  /** Every record survives being written out and validated again, whatever
      its cache fields hold (a string, null, an object...): the validator
      never looks at them. */
  lemma EncodeRoundTrip(u: UsageData)
    ensures ValidateUsageData(Encode(u)) == Some(u)
  {
    var usage := Encode(u).members["message"].members["usage"];
    assert "cache_creation_input_tokens" in usage.members <==> u.cacheCreationInputTokens.Some?;
    assert "cache_read_input_tokens" in usage.members <==> u.cacheReadInputTokens.Some?;
  }

  /** `null`, booleans, numbers, strings and arrays are all rejected: only
      an object can carry the fields. */
  lemma NonObjectsRejected(data: Json)
    requires !data.JObject?
    ensures ValidateUsageData(data) == None
  {
  }

  /** What one valid record adds to an aggregate: each metric read with
      `|| 0`, so an absent cache count adds nothing. */
  function Contribution(u: UsageData): (t: TokenTotals)
    ensures t.inputTokens == u.inputTokens && t.outputTokens == u.outputTokens
    ensures t.totalCost == u.costUSD
    ensures u.cacheCreationInputTokens.None? ==> t.cacheCreationTokens == 0.0
    ensures u.cacheReadInputTokens.None? ==> t.cacheReadTokens == 0.0
    ensures u.cacheCreationInputTokens.Some? && u.cacheCreationInputTokens.value.JNumber?
      ==> t.cacheCreationTokens == u.cacheCreationInputTokens.value.n
    ensures u.cacheReadInputTokens.Some? && u.cacheReadInputTokens.value.JNumber?
      ==> t.cacheReadTokens == u.cacheReadInputTokens.value.n
  {
    TokenTotals(
      NumberOrZero(Some(JNumber(u.inputTokens))),
      NumberOrZero(Some(JNumber(u.outputTokens))),
      NumberOrZero(u.cacheCreationInputTokens),
      NumberOrZero(u.cacheReadInputTokens),
      NumberOrZero(Some(JNumber(u.costUSD))))
  }

  /** The source never checks that counts or costs are non-negative; the
      aggregates only grow when the records are non-negative. */
  predicate NonNegative(u: UsageData) {
    var t := Contribution(u);
    t.inputTokens >= 0.0 && t.outputTokens >= 0.0 && t.cacheCreationTokens >= 0.0
    && t.cacheReadTokens >= 0.0 && t.totalCost >= 0.0
  }
}
