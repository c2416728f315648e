/** The record shapes the loader produces and the totals functions consume:
    `TokenData` and `TokenTotals` (types.ts), `DailyUsage`, `SessionUsage`
    and `DateFilter` (data-loader.ts). */
module Types {
  import opened Wrappers

  /** The four token counts. */
  datatype TokenData = TokenData(
    inputTokens: real,
    outputTokens: real,
    cacheCreationTokens: real,
    cacheReadTokens: real)

  /** The four token counts and the cost in US dollars. */
  datatype TokenTotals = TokenTotals(
    inputTokens: real,
    outputTokens: real,
    cacheCreationTokens: real,
    cacheReadTokens: real,
    totalCost: real)
  {
    /** A totals record read as token data: its cost is not a token count. */
    function Tokens(): TokenData {
      TokenData(inputTokens, outputTokens, cacheCreationTokens, cacheReadTokens)
    }
  }

  const ZeroTotals := TokenTotals(0.0, 0.0, 0.0, 0.0, 0.0)

  /** Field-wise sum of two totals records. */
  function Add(a: TokenTotals, b: TokenTotals): TokenTotals {
    TokenTotals(
      a.inputTokens + b.inputTokens,
      a.outputTokens + b.outputTokens,
      a.cacheCreationTokens + b.cacheCreationTokens,
      a.cacheReadTokens + b.cacheReadTokens,
      a.totalCost + b.totalCost)
  }

  /** The field-wise sum does not care in which order its terms come. */
  lemma AddSwap(a: TokenTotals, b: TokenTotals, c: TokenTotals)
    ensures Add(Add(a, b), c) == Add(Add(a, c), b)
    ensures Add(Add(a, b), c) == Add(a, Add(b, c))
  {
  }

  /** All-zero totals add nothing, on either side. */
  lemma AddZero(a: TokenTotals)
    ensures Add(a, ZeroTotals) == a && Add(ZeroTotals, a) == a
  {
  }

  lemma AddInterchange(a: TokenTotals, b: TokenTotals, x: TokenTotals, y: TokenTotals)
    ensures Add(Add(a, x), Add(b, y)) == Add(Add(a, b), Add(x, y))
  {
  }

  /** One day's usage; `date` is whatever `formatDate` produced. */
  datatype DailyUsage = DailyUsage(
    date: string,
    inputTokens: real,
    outputTokens: real,
    cacheCreationTokens: real,
    cacheReadTokens: real,
    totalCost: real)
  {
    /** The five metric fields; `date` is not one of them. */
    function Totals(): TokenTotals {
      TokenTotals(inputTokens, outputTokens, cacheCreationTokens, cacheReadTokens, totalCost)
    }
  }

  function DailyOf(date: string, t: TokenTotals): DailyUsage {
    DailyUsage(date, t.inputTokens, t.outputTokens, t.cacheCreationTokens, t.cacheReadTokens, t.totalCost)
  }

  /** One session's usage. */
  datatype SessionUsage = SessionUsage(
    sessionId: string,
    projectPath: string,
    inputTokens: real,
    outputTokens: real,
    cacheCreationTokens: real,
    cacheReadTokens: real,
    totalCost: real,
    lastActivity: string)
  {
    /** The five metric fields; names and `lastActivity` are not among them. */
    function Totals(): TokenTotals {
      TokenTotals(inputTokens, outputTokens, cacheCreationTokens, cacheReadTokens, totalCost)
    }
  }

  function SessionOf(sessionId: string, projectPath: string, t: TokenTotals, lastActivity: string): SessionUsage {
    SessionUsage(sessionId, projectPath, t.inputTokens, t.outputTokens, t.cacheCreationTokens,
                 t.cacheReadTokens, t.totalCost, lastActivity)
  }

  /** The optional inclusive date bounds, each meant to be `YYYYMMDD`;
      `None` is an option left undefined. */
  datatype DateFilter = DateFilter(since: Option<string>, until: Option<string>)
}
