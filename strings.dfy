/** JavaScript string operations the loader relies on: the relational `<` on
    strings, `replace(/-/g, "")`, `Array.prototype.join`, and the fixed-width
    digit strings that make lexical comparison agree with numeric comparison. */
module Strings {

  /** JavaScript's `a < b` on two strings: character by character, and a
      proper prefix is smaller than the longer string. */
  predicate Less(a: string, b: string)
    decreases |a|
  {
    if |b| == 0 then false
    else if |a| == 0 then true
    else if a[0] != b[0] then a[0] < b[0]
    else Less(a[1..], b[1..])
  }

  lemma {:induction false} LessIrreflexive(a: string)
    ensures !Less(a, a)
    decreases |a|
  {
    if |a| > 0 {
      LessIrreflexive(a[1..]);
    }
  }

  lemma {:induction false} LessTransitive(a: string, b: string, c: string)
    requires Less(a, b) && Less(b, c)
    ensures Less(a, c)
    decreases |a|
  {
    if |a| > 0 && a[0] == b[0] && b[0] == c[0] {
      LessTransitive(a[1..], b[1..], c[1..]);
    }
  }

  /** Two different strings are always ordered one way or the other. */
  lemma {:induction false} LessTotal(a: string, b: string)
    requires a != b
    ensures Less(a, b) || Less(b, a)
    decreases |a|
  {
    if |a| > 0 && |b| > 0 && a[0] == b[0] {
      assert a == [a[0]] + a[1..] && b == [b[0]] + b[1..];
      LessTotal(a[1..], b[1..]);
    }
  }

  /** The usual reading of string order: `a < b` when, after a common
      prefix of length `i`, either `a` has ended while `b` goes on or `a`'s
      next character is the smaller. */
  predicate BelowAt(a: string, b: string, i: nat) {
    i <= |a| && i < |b| && a[..i] == b[..i] && (i == |a| || a[i] < b[i])
  }

  lemma {:induction false} LessIsFirstDifference(a: string, b: string)
    ensures Less(a, b) <==> exists i: nat :: BelowAt(a, b, i)
    decreases |a|
  {
    if Less(a, b) {
      if |a| == 0 || a[0] != b[0] {
        assert BelowAt(a, b, 0);
      } else {
        LessIsFirstDifference(a[1..], b[1..]);
        var i: nat :| BelowAt(a[1..], b[1..], i);
        assert a[..i + 1] == [a[0]] + a[1..][..i] && b[..i + 1] == [b[0]] + b[1..][..i];
        assert BelowAt(a, b, i + 1);
      }
    }
    if exists i: nat :: BelowAt(a, b, i) {
      var i: nat :| BelowAt(a, b, i);
      BelowAtLess(a, b, i);
    }
  }

  lemma {:induction false} BelowAtLess(a: string, b: string, i: nat)
    requires BelowAt(a, b, i)
    ensures Less(a, b)
    decreases i
  {
    if i > 0 {
      assert a[0] == a[..i][0] && b[0] == b[..i][0];
      assert a[1..][..i - 1] == a[..i][1..] && b[1..][..i - 1] == b[..i][1..];
      assert i < |a| ==> a[1..][i - 1] == a[i];
      BelowAtLess(a[1..], b[1..], i - 1);
    }
  }

  /** `s.replace(/-/g, "")`: every dash removed, everything else kept in order. */
  function RemoveDashes(s: string): (r: string)
    ensures '-' !in r
    ensures |r| <= |s|
  {
    if s == [] then []
    else if s[0] == '-' then RemoveDashes(s[1..])
    else [s[0]] + RemoveDashes(s[1..])
  }

  /** Removing dashes works piece by piece, so it keeps the order of the
      remaining characters. */
  lemma {:induction false} RemoveDashesAppend(a: string, b: string)
    ensures RemoveDashes(a + b) == RemoveDashes(a) + RemoveDashes(b)
    decreases |a|
  {
    if a == [] {
      assert a + b == b;
    } else {
      assert (a + b)[0] == a[0] && (a + b)[1..] == a[1..] + b;
      RemoveDashesAppend(a[1..], b);
    }
  }

  /** A string without dashes is left as it is. */
  lemma {:induction false} RemoveDashesNoDash(s: string)
    requires '-' !in s
    ensures RemoveDashes(s) == s
    decreases |s|
  {
    if s != [] {
      RemoveDashesNoDash(s[1..]);
    }
  }

  /** JavaScript's `\d` without the `u` flag: the ASCII digits only. */
  predicate IsDigit(c: char) {
    '0' <= c <= '9'
  }

  predicate AllDigits(s: string) {
    forall i | 0 <= i < |s| :: IsDigit(s[i])
  }

  /** The shape `formatDate` is meant to produce: zero-padded `YYYY-MM-DD`. */
  predicate IsIsoDate(d: string) {
    && |d| == 10
    && d[4] == '-' && d[7] == '-'
    && AllDigits(d[..4]) && AllDigits(d[5..7]) && AllDigits(d[8..])
  }

  /** On a `YYYY-MM-DD` date, dropping the dashes gives the eight digits
      `YYYYMMDD` that the date-range options are written in. */
  lemma IsoDateWithoutDashes(d: string)
    requires IsIsoDate(d)
    ensures RemoveDashes(d) == d[..4] + d[5..7] + d[8..]
    ensures |RemoveDashes(d)| == 8 && AllDigits(RemoveDashes(d))
  {
    var y, m, dd := d[..4], d[5..7], d[8..];
    assert d == y + ("-" + (m + ("-" + dd)));
    RemoveDashesAppend(y, "-" + (m + ("-" + dd)));
    RemoveDashesAppend("-", m + ("-" + dd));
    RemoveDashesAppend(m, "-" + dd);
    RemoveDashesAppend("-", dd);
    DigitsHaveNoDash(y);
    DigitsHaveNoDash(m);
    DigitsHaveNoDash(dd);
    RemoveDashesNoDash(y);
    RemoveDashesNoDash(m);
    RemoveDashesNoDash(dd);
    assert RemoveDashes(d) == y + (m + dd);
    AllDigitsAppend(m, dd);
    AllDigitsAppend(y, m + dd);
  }

  /** The `YYYYMMDD` digits of a `YYYY-MM-DD` date, that is, the date with
      its dashes removed. */
  function DateDigits(d: string): (r: string)
    requires IsIsoDate(d)
    ensures r == RemoveDashes(d) && |r| == 8 && AllDigits(r)
  {
    IsoDateWithoutDashes(d);
    RemoveDashes(d)
  }

  lemma DigitsHaveNoDash(s: string)
    requires AllDigits(s)
    ensures '-' !in s
  {
  }

  lemma AllDigitsAppend(a: string, b: string)
    requires AllDigits(a) && AllDigits(b)
    ensures AllDigits(a + b)
  {
    forall i | 0 <= i < |a + b|
      ensures IsDigit((a + b)[i])
    {
      if i >= |a| {
        assert (a + b)[i] == b[i - |a|];
      }
    }
  }

  function Pow10(n: nat): (r: nat)
    ensures r >= 1
  {
    if n == 0 then 1 else 10 * Pow10(n - 1)
  }

  function DigitValue(c: char): int {
    c as int - '0' as int
  }

  /** The number a string of decimal digits denotes. */
  function DigitsValue(s: string): int
    requires AllDigits(s)
  {
    if s == [] then 0
    else DigitValue(s[0]) * Pow10(|s| - 1) + DigitsValue(s[1..])
  }

  lemma {:induction false} DigitsValueBounds(s: string)
    requires AllDigits(s)
    ensures 0 <= DigitsValue(s) < Pow10(|s|)
    decreases |s|
  {
    if s != [] {
      DigitsValueBounds(s[1..]);
      LeadingDigitBounds(DigitValue(s[0]), DigitsValue(s[1..]), Pow10(|s| - 1));
    }
  }

  /** A leading digit below a lower part of fewer digits stays below the
      next power of ten. */
  lemma LeadingDigitBounds(d: int, r: int, p: int)
    requires 0 <= d <= 9 && 0 <= r < p
    ensures 0 <= d * p + r < 10 * p
  {
    assert d * p <= 9 * p;
  }

  /** Between digit strings of the same length, JavaScript's lexical `<`
      is exactly numeric `<`: this is why the loader can compare an
      eight-digit `YYYYMMDD` bound against a date as plain strings. */
  lemma {:induction false} LexicalIsNumeric(a: string, b: string)
    requires AllDigits(a) && AllDigits(b) && |a| == |b|
    ensures Less(a, b) <==> DigitsValue(a) < DigitsValue(b)
    decreases |a|
  {
    if a != [] {
      var p := Pow10(|a| - 1);
      var da, db := DigitValue(a[0]), DigitValue(b[0]);
      assert DigitsValue(a) == da * p + DigitsValue(a[1..]);
      assert DigitsValue(b) == db * p + DigitsValue(b[1..]);
      DigitsValueBounds(a[1..]);
      DigitsValueBounds(b[1..]);
      if a[0] == b[0] {
        LexicalIsNumeric(a[1..], b[1..]);
      } else if da < db {
        LeadingDigitDecides(da, DigitsValue(a[1..]), db, DigitsValue(b[1..]), p);
      } else {
        LeadingDigitDecides(db, DigitsValue(b[1..]), da, DigitsValue(a[1..]), p);
      }
    }
  }

  /** A smaller leading digit wins whatever the lower digits are. */
  lemma LeadingDigitDecides(da: int, ra: int, db: int, rb: int, p: int)
    requires da < db && 0 <= ra < p && 0 <= rb < p
    ensures da * p + ra < db * p + rb
  {
    assert (db - da - 1) * p >= 0;
    assert db * p - da * p - p >= 0;
  }

  /** `Array.prototype.join(sep)`: the parts with `sep` between neighbours. */
  function Join(parts: seq<string>, sep: string): (r: string)
    ensures parts == [] ==> r == ""
    ensures |parts| == 1 ==> r == parts[0]
  {
    if parts == [] then ""
    else if |parts| == 1 then parts[0]
    else parts[0] + sep + Join(parts[1..], sep)
  }
}
