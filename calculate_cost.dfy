/** The totals reductions `calculateTotals`, `getTotalTokens` and
    `createTotalsObject`, as their tests pin them down: a reduction from
    all-zero totals that adds records field by field, the sum of the four
    token counts, and the totals extended by that sum. */
module CalculateCost {
  import opened Types
  import Seqs

  /** `calculateTotals`: start from all-zero totals and add each record in
      turn. It reads only the five metric fields, so any record that has
      them can be reduced (see `DailyTotals` and `SessionTotals`). */
  function CalculateTotals(records: seq<TokenTotals>): TokenTotals {
    Reduce(ZeroTotals, records)
  }

  /** The reduction step by step, left to right, from accumulator `acc`. */
  function Reduce(acc: TokenTotals, records: seq<TokenTotals>): TokenTotals
    decreases |records|
  {
    if records == [] then acc else Reduce(Add(acc, records[0]), records[1..])
  }

  /** The five metric fields, so that one field can be summed on its own. */
  datatype Field = Input | Output | CacheCreation | CacheRead | Cost

  function Get(t: TokenTotals, f: Field): real {
    match f
    case Input => t.inputTokens
    case Output => t.outputTokens
    case CacheCreation => t.cacheCreationTokens
    case CacheRead => t.cacheReadTokens
    case Cost => t.totalCost
  }

  /** The arithmetic sum of one field over a sequence of records. */
  function FieldSum(records: seq<TokenTotals>, f: Field): real
    decreases |records|
  {
    if records == [] then 0.0 else Get(records[0], f) + FieldSum(records[1..], f)
  }

  lemma {:induction false} ReduceFieldSum(acc: TokenTotals, records: seq<TokenTotals>, f: Field)
    ensures Get(Reduce(acc, records), f) == Get(acc, f) + FieldSum(records, f)
    decreases |records|
  {
    if records != [] {
      ReduceFieldSum(Add(acc, records[0]), records[1..], f);
    }
  }

  /** Each field of the totals is the sum of that field over the input,
      cost included; on the empty input every field is 0. */
  lemma CalculateTotalsIsFieldSum(records: seq<TokenTotals>, f: Field)
    ensures Get(CalculateTotals(records), f) == FieldSum(records, f)
    ensures records == [] ==> CalculateTotals(records) == ZeroTotals
  {
    ReduceFieldSum(ZeroTotals, records, f);
  }

  /** A field's sum over two runs of records is the sum of the two sums. */
  lemma {:induction false} FieldSumAppend(a: seq<TokenTotals>, b: seq<TokenTotals>, f: Field)
    ensures FieldSum(a + b, f) == FieldSum(a, f) + FieldSum(b, f)
    decreases |a|
  {
    if a == [] {
      assert a + b == b;
    } else {
      assert (a + b)[0] == a[0] && (a + b)[1..] == a[1..] + b;
      FieldSumAppend(a[1..], b, f);
    }
  }

  lemma CalculateTotalsOfConcatenation(a: seq<TokenTotals>, b: seq<TokenTotals>)
    ensures CalculateTotals(a + b) == Add(CalculateTotals(a), CalculateTotals(b))
  {
    forall f: Field
      ensures Get(CalculateTotals(a + b), f) == Get(CalculateTotals(a), f) + Get(CalculateTotals(b), f)
    {
      CalculateTotalsIsFieldSum(a + b, f);
      CalculateTotalsIsFieldSum(a, f);
      CalculateTotalsIsFieldSum(b, f);
      FieldSumAppend(a, b, f);
    }
    var t, ta, tb := CalculateTotals(a + b), CalculateTotals(a), CalculateTotals(b);
    assert Get(t, Input) == Get(ta, Input) + Get(tb, Input);
    assert Get(t, Output) == Get(ta, Output) + Get(tb, Output);
    assert Get(t, CacheCreation) == Get(ta, CacheCreation) + Get(tb, CacheCreation);
    assert Get(t, CacheRead) == Get(ta, CacheRead) + Get(tb, CacheRead);
    assert Get(t, Cost) == Get(ta, Cost) + Get(tb, Cost);
  }

  /** One more record adds its fields to the totals. */
  lemma CalculateTotalsSnoc(records: seq<TokenTotals>, x: TokenTotals)
    ensures CalculateTotals(records + [x]) == Add(CalculateTotals(records), x)
  {
    CalculateTotalsOfConcatenation(records, [x]);
    assert [x][1..] == [];
    assert CalculateTotals([x]) == Reduce(Add(ZeroTotals, x), []);
    AddZero(x);
  }

  /** The totals of one record per key, added up key by key. */
  function SumBy(keys: seq<string>, f: string -> TokenTotals): TokenTotals
    decreases |keys|
  {
    if keys == [] then ZeroTotals else Add(SumBy(keys[..|keys| - 1], f), f(keys[|keys| - 1]))
  }

  lemma {:induction false} CalculateTotalsOfKeys(keys: seq<string>, f: string -> TokenTotals)
    ensures CalculateTotals(seq(|keys|, i requires 0 <= i < |keys| => f(keys[i]))) == SumBy(keys, f)
    decreases |keys|
  {
    var ts := seq(|keys|, i requires 0 <= i < |keys| => f(keys[i]));
    if keys != [] {
      var init := keys[..|keys| - 1];
      var ts' := seq(|init|, i requires 0 <= i < |init| => f(init[i]));
      CalculateTotalsOfKeys(init, f);
      assert ts == ts' + [f(keys[|keys| - 1])];
      CalculateTotalsSnoc(ts', f(keys[|keys| - 1]));
    }
  }

  /** The totals of each element of `xs`, in order. */
  function TotalsOf<T>(xs: seq<T>, f: T -> TokenTotals): (r: seq<TokenTotals>)
    ensures |r| == |xs|
    ensures forall i | 0 <= i < |xs| :: r[i] == f(xs[i])
  {
    seq(|xs|, i requires 0 <= i < |xs| => f(xs[i]))
  }

  lemma TotalsOfAppend<T>(a: seq<T>, b: seq<T>, f: T -> TokenTotals)
    ensures TotalsOf(a + b, f) == TotalsOf(a, f) + TotalsOf(b, f)
  {
  }

  /** A record in the middle adds to the totals like one at the end. */
  lemma CalculateTotalsMiddle(l: seq<TokenTotals>, x: TokenTotals, r: seq<TokenTotals>)
    ensures CalculateTotals(l + [x] + r) == Add(CalculateTotals(l + r), x)
  {
    CalculateTotalsOfConcatenation(l + [x], r);
    CalculateTotalsSnoc(l, x);
    CalculateTotalsOfConcatenation(l, r);
    AddSwap(CalculateTotals(l), x, CalculateTotals(r));
  }

  /** The totals of a non-empty sequence are those of all but its last
      element, plus the last one. */
  lemma TotalsOfSnoc<T>(a: seq<T>, f: T -> TokenTotals)
    requires a != []
    ensures CalculateTotals(TotalsOf(a, f)) == Add(CalculateTotals(TotalsOf(a[..|a| - 1], f)), f(a[|a| - 1]))
  {
    var x, a' := a[|a| - 1], a[..|a| - 1];
    assert a == a' + [x];
    TotalsOfAppend(a', [x], f);
    assert TotalsOf([x], f) == [f(x)];
    CalculateTotalsSnoc(TotalsOf(a', f), f(x));
  }

  /** ... and so are those of any sequence without its element at `j`, plus
      that element. */
  lemma TotalsOfRemoved<T>(b: seq<T>, j: nat, f: T -> TokenTotals)
    requires j < |b|
    ensures CalculateTotals(TotalsOf(b, f)) == Add(CalculateTotals(TotalsOf(b[..j] + b[j + 1..], f)), f(b[j]))
  {
    var x, left, right := b[j], b[..j], b[j + 1..];
    var l, r := TotalsOf(left, f), TotalsOf(right, f);
    assert b == left + [x] + right;
    TotalsOfAppend(left + [x], right, f);
    TotalsOfAppend(left, [x], f);
    TotalsOfAppend(left, right, f);
    assert TotalsOf([x], f) == [f(x)];
    CalculateTotalsMiddle(l, f(x), r);
  }

  /** The order of the records does not matter: any rearrangement of the same
      records (same multiset) reduces to the same totals. */
  lemma {:induction false} CalculateTotalsOfPermutation<T>(a: seq<T>, b: seq<T>, f: T -> TokenTotals)
    requires multiset(a) == multiset(b)
    ensures CalculateTotals(TotalsOf(a, f)) == CalculateTotals(TotalsOf(b, f))
    decreases |a|
  {
    if a == [] {
      assert |multiset(b)| == 0;
    } else {
      var x, a' := a[|a| - 1], a[..|a| - 1];
      assert a == a' + [x];
      assert x in multiset(b);
      var j :| 0 <= j < |b| && b[j] == x;
      Seqs.RemoveAt(b, j);
      CalculateTotalsOfPermutation(a', b[..j] + b[j + 1..], f);
      TotalsOfSnoc(a, f);
      TotalsOfRemoved(b, j, f);
    }
  }

  /** `calculateTotals` applied to daily entries. */
  function DailyTotals(days: seq<DailyUsage>): TokenTotals {
    CalculateTotals(seq(|days|, i requires 0 <= i < |days| => days[i].Totals()))
  }

  /** `calculateTotals` applied to session entries. */
  function SessionTotals(sessions: seq<SessionUsage>): TokenTotals {
    CalculateTotals(seq(|sessions|, i requires 0 <= i < |sessions| => sessions[i].Totals()))
  }

  /** Daily entries in any order reduce to the same totals. */
  lemma DailyTotalsOfPermutation(a: seq<DailyUsage>, b: seq<DailyUsage>)
    requires multiset(a) == multiset(b)
    ensures DailyTotals(a) == DailyTotals(b)
  {
    var g := (d: DailyUsage) => d.Totals();
    assert TotalsOf(a, g) == seq(|a|, i requires 0 <= i < |a| => a[i].Totals());
    assert TotalsOf(b, g) == seq(|b|, i requires 0 <= i < |b| => b[i].Totals());
    CalculateTotalsOfPermutation(a, b, g);
  }

  /** Session entries in any order reduce to the same totals. */
  lemma SessionTotalsOfPermutation(a: seq<SessionUsage>, b: seq<SessionUsage>)
    requires multiset(a) == multiset(b)
    ensures SessionTotals(a) == SessionTotals(b)
  {
    var g := (e: SessionUsage) => e.Totals();
    assert TotalsOf(a, g) == seq(|a|, i requires 0 <= i < |a| => a[i].Totals());
    assert TotalsOf(b, g) == seq(|b|, i requires 0 <= i < |b| => b[i].Totals());
    CalculateTotalsOfPermutation(a, b, g);
  }

  /** Session entries reduce to the same totals as daily entries with the
      same five fields: dates, names and last activity are ignored. */
  lemma SessionTotalsMatchDailyTotals(days: seq<DailyUsage>, sessions: seq<SessionUsage>)
    requires |days| == |sessions|
    requires forall i | 0 <= i < |days| :: days[i].Totals() == sessions[i].Totals()
    ensures SessionTotals(sessions) == DailyTotals(days)
  {
    var ds := seq(|days|, i requires 0 <= i < |days| => days[i].Totals());
    var ss := seq(|sessions|, i requires 0 <= i < |sessions| => sessions[i].Totals());
    assert ds == ss;
  }

  /** The first two tests: two daily entries, and two session entries with
      the same counts, both reduce to 300 / 150 / 75 / 30 tokens and a cost
      of 0.03. */
  lemma DailyAndSessionExamples()
    ensures DailyTotals([
      DailyUsage("2024-01-01", 100.0, 50.0, 25.0, 10.0, 0.01),
      DailyUsage("2024-01-02", 200.0, 100.0, 50.0, 20.0, 0.02)])
      == TokenTotals(300.0, 150.0, 75.0, 30.0, 0.03)
    ensures SessionTotals([
      SessionUsage("session-1", "project/path", 100.0, 50.0, 25.0, 10.0, 0.01, "2024-01-01"),
      SessionUsage("session-2", "project/path", 200.0, 100.0, 50.0, 20.0, 0.02, "2024-01-02")])
      == TokenTotals(300.0, 150.0, 75.0, 30.0, 0.03)
  {
    var days := [
      DailyUsage("2024-01-01", 100.0, 50.0, 25.0, 10.0, 0.01),
      DailyUsage("2024-01-02", 200.0, 100.0, 50.0, 20.0, 0.02)];
    var ds := seq(|days|, i requires 0 <= i < |days| => days[i].Totals());
    assert ds == [days[0].Totals(), days[1].Totals()];
    assert ds[1..] == [days[1].Totals()] && ds[1..][1..] == [];
    var once := Add(ZeroTotals, ds[0]);
    assert Reduce(ZeroTotals, ds) == Reduce(once, ds[1..]);
    assert Reduce(once, ds[1..]) == Reduce(Add(once, ds[1]), []);
    var sessions := [
      SessionUsage("session-1", "project/path", 100.0, 50.0, 25.0, 10.0, 0.01, "2024-01-01"),
      SessionUsage("session-2", "project/path", 200.0, 100.0, 50.0, 20.0, 0.02, "2024-01-02")];
    SessionTotalsMatchDailyTotals(days, sessions);
  }

  /** `getTotalTokens`: the four token counts added up. */
  function GetTotalTokens(t: TokenData): real {
    t.inputTokens + t.outputTokens + t.cacheCreationTokens + t.cacheReadTokens
  }

  /** The sum of the per-record token totals, the reference for the lemma
      below. */
  function TotalTokensSum(records: seq<TokenTotals>): real
    decreases |records|
  {
    if records == [] then 0.0 else GetTotalTokens(records[0].Tokens()) + TotalTokensSum(records[1..])
  }

  /** The total tokens of the totals is the sum of every record's total
      tokens, and the cost never enters it. */
  lemma {:induction false} TotalTokensOfTotals(records: seq<TokenTotals>)
    ensures GetTotalTokens(CalculateTotals(records).Tokens()) == TotalTokensSum(records)
    decreases |records|
  {
    var t := CalculateTotals(records);
    CalculateTotalsIsFieldSum(records, Input);
    CalculateTotalsIsFieldSum(records, Output);
    CalculateTotalsIsFieldSum(records, CacheCreation);
    CalculateTotalsIsFieldSum(records, CacheRead);
    FieldSumsAddUp(records);
  }

  lemma {:induction false} FieldSumsAddUp(records: seq<TokenTotals>)
    ensures FieldSum(records, Input) + FieldSum(records, Output) + FieldSum(records, CacheCreation)
            + FieldSum(records, CacheRead) == TotalTokensSum(records)
    decreases |records|
  {
    if records != [] {
      FieldSumsAddUp(records[1..]);
    }
  }

  /** The two `getTotalTokens` tests: 100 + 50 + 25 + 10 is 185, and all
      zero counts give 0. */
  lemma GetTotalTokensExamples()
    ensures GetTotalTokens(TokenData(100.0, 50.0, 25.0, 10.0)) == 185.0
    ensures GetTotalTokens(TokenData(0.0, 0.0, 0.0, 0.0)) == 0.0
  {
  }

  /** The display-ready totals: the five fields and `totalTokens`. */
  datatype TotalsObject = TotalsObject(
    inputTokens: real,
    outputTokens: real,
    cacheCreationTokens: real,
    cacheReadTokens: real,
    totalTokens: real,
    totalCost: real)
  {
    function Totals(): TokenTotals {
      TokenTotals(inputTokens, outputTokens, cacheCreationTokens, cacheReadTokens, totalCost)
    }
  }

  /** `createTotalsObject`: the totals unchanged, with their total tokens
      added beside them and nothing else; dropping `totalTokens` gives the
      totals back. */
  function CreateTotalsObject(t: TokenTotals): (r: TotalsObject)
    ensures r.Totals() == t
    ensures r.totalTokens == GetTotalTokens(t.Tokens())
  {
    TotalsObject(t.inputTokens, t.outputTokens, t.cacheCreationTokens, t.cacheReadTokens,
                 GetTotalTokens(t.Tokens()), t.totalCost)
  }

  /** The `createTotalsObject` test and the empty-input test. */
  lemma CreateTotalsObjectExample()
    ensures CreateTotalsObject(TokenTotals(100.0, 50.0, 25.0, 10.0, 0.01))
      == TotalsObject(100.0, 50.0, 25.0, 10.0, 185.0, 0.01)
    ensures CalculateTotals([]) == TokenTotals(0.0, 0.0, 0.0, 0.0, 0.0)
  {
  }
}
