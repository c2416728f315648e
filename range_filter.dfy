/** The inclusive date-range filter both loaders apply to their entries:
    the entry's date with its dashes removed is compared, as a string, with
    the `since` and `until` options. */
module RangeFilter {
  import opened Wrappers
  import opened Strings
  import opened Types
  import SharedArgs

  /** A bound constrains only when it is given and not empty (`options.since`
      is checked for truthiness). */
  predicate BoundActive(b: Option<string>) {
    b.Some? && b.value != ""
  }

  /** The guard `options?.since || options?.until` around the filter. */
  predicate Filtering(f: DateFilter) {
    BoundActive(f.since) || BoundActive(f.until)
  }

  /** The filter callback on one date: rejected when `dateStr < since` or
      `dateStr > until`, by JavaScript string comparison. */
  predicate InRange(date: string, f: DateFilter) {
    var dateStr := RemoveDashes(date);
    && !(BoundActive(f.since) && Less(dateStr, f.since.value))
    && !(BoundActive(f.until) && Less(f.until.value, dateStr))
  }

  /** `results.filter(...)`: the entries whose date is in range, in their
      original order. */
  function KeepInRange<T>(xs: seq<T>, dateOf: T -> string, f: DateFilter): (r: seq<T>)
    ensures |r| <= |xs|
    decreases |xs|
  {
    if xs == [] then []
    else (if InRange(dateOf(xs[0]), f) then [xs[0]] else []) + KeepInRange(xs[1..], dateOf, f)
  }

  /** The whole step: filter only when some bound is active. */
  function ApplyDateFilter<T>(xs: seq<T>, dateOf: T -> string, f: DateFilter): seq<T> {
    if Filtering(f) then KeepInRange(xs, dateOf, f) else xs
  }

  /** With no active bound every date is in range, so applying the filter or
      skipping it, as the guard does, agree. */
  lemma NoBoundKeepsAll<T>(xs: seq<T>, dateOf: T -> string, f: DateFilter)
    requires !Filtering(f)
    ensures ApplyDateFilter(xs, dateOf, f) == xs
    ensures forall x | x in xs :: InRange(dateOf(x), f)
  {
  }

  /** The filter keeps exactly the entries whose date is in range, each as
      many times as it occurs. */
  lemma {:induction false} FilterCounts<T>(xs: seq<T>, dateOf: T -> string, f: DateFilter)
    ensures forall x :: multiset(ApplyDateFilter(xs, dateOf, f))[x]
                        == if InRange(dateOf(x), f) then multiset(xs)[x] else 0
    decreases |xs|
  {
    if Filtering(f) && xs != [] {
      FilterCounts(xs[1..], dateOf, f);
      assert xs == [xs[0]] + xs[1..];
    }
  }

  /** Membership: an entry survives if and only if it was there and its date
      is in range. */
  lemma FilterMembership<T>(xs: seq<T>, dateOf: T -> string, f: DateFilter)
    ensures forall x :: x in ApplyDateFilter(xs, dateOf, f) <==> x in xs && InRange(dateOf(x), f)
  {
    FilterCounts(xs, dateOf, f);
    forall x
      ensures x in ApplyDateFilter(xs, dateOf, f) <==> x in xs && InRange(dateOf(x), f)
    {
      assert x in ApplyDateFilter(xs, dateOf, f) <==> multiset(ApplyDateFilter(xs, dateOf, f))[x] > 0;
      assert x in xs <==> multiset(xs)[x] > 0;
    }
  }

  /** Filtering never reorders: it works piece by piece on a split input. */
  lemma {:induction false} FilterAppend<T>(a: seq<T>, b: seq<T>, dateOf: T -> string, f: DateFilter)
    ensures ApplyDateFilter(a + b, dateOf, f) == ApplyDateFilter(a, dateOf, f) + ApplyDateFilter(b, dateOf, f)
    decreases |a|
  {
    if Filtering(f) {
      if a == [] {
        assert a + b == b;
      } else {
        assert (a + b)[0] == a[0] && (a + b)[1..] == a[1..] + b;
        FilterAppend(a[1..], b, dateOf, f);
      }
    }
  }

  /** Both bounds are inclusive: a date equal to `since` (once its dashes
      are removed) is judged by `until` alone, and one equal to `until` by
      `since` alone. */
  lemma BoundsInclusive(date: string, f: DateFilter)
    ensures f.since == Some(RemoveDashes(date)) ==>
      (InRange(date, f) <==> !(BoundActive(f.until) && Less(f.until.value, RemoveDashes(date))))
    ensures f.until == Some(RemoveDashes(date)) ==>
      (InRange(date, f) <==> !(BoundActive(f.since) && Less(RemoveDashes(date), f.since.value)))
  {
    LessIrreflexive(RemoveDashes(date));
  }

  /** What the string comparison means: for a `YYYY-MM-DD` date and
      eight-digit bounds, as the argument parser guarantees, the filter keeps
      the date exactly when the number `YYYYMMDD` lies between the bounds. */
  lemma InRangeIsNumeric(date: string, f: DateFilter)
    requires IsIsoDate(date) && SharedArgs.IsYyyymmddFilter(f)
    ensures InRange(date, f) <==>
      && (f.since.Some? ==> DigitsValue(f.since.value) <= DigitsValue(DateDigits(date)))
      && (f.until.Some? ==> DigitsValue(DateDigits(date)) <= DigitsValue(f.until.value))
  {
    IsoDateWithoutDashes(date);
    var ymd := RemoveDashes(date);
    if f.since.Some? {
      LexicalIsNumeric(ymd, f.since.value);
    }
    if f.until.Some? {
      LexicalIsNumeric(f.until.value, ymd);
    }
  }
}
