/** Sequences without repeated elements, told apart by position or by
    multiplicity. */
module Seqs {

  ghost predicate Distinct<T>(s: seq<T>) {
    forall i, j | 0 <= i < j < |s| :: s[i] != s[j]
  }

  lemma {:induction false} DistinctCountsAtMostOne<T>(s: seq<T>)
    requires Distinct(s)
    ensures forall x :: multiset(s)[x] <= 1
    decreases |s|
  {
    if s != [] {
      var init := s[..|s| - 1];
      assert s == init + [s[|s| - 1]];
      assert Distinct(init) by {
        forall i, j | 0 <= i < j < |init| ensures init[i] != init[j] {
          assert init[i] == s[i] && init[j] == s[j];
        }
      }
      DistinctCountsAtMostOne(init);
      assert forall i | 0 <= i < |init| :: init[i] == s[i] != s[|s| - 1];
    }
  }

  lemma CountsAtMostOneDistinct<T>(s: seq<T>)
    requires forall x :: multiset(s)[x] <= 1
    ensures Distinct(s)
  {
    forall i, j | 0 <= i < j < |s|
      ensures s[i] != s[j]
    {
      assert s == s[..j] + s[j..];
      assert s[i] in s[..j] && s[j] in s[j..];
      assert multiset(s)[s[j]] == multiset(s[..j])[s[j]] + multiset(s[j..])[s[j]];
    }
  }

  /** Taking out the element at `i` takes one copy of it out of the
      multiset. */
  lemma RemoveAt<T>(s: seq<T>, i: nat)
    requires i < |s|
    ensures s == s[..i] + [s[i]] + s[i + 1..]
    ensures multiset(s[..i] + s[i + 1..]) == multiset(s) - multiset{s[i]}
  {
    assert s == s[..i] + [s[i]] + s[i + 1..];
  }

  /** Some element of `s` satisfies `p`. */
  predicate Any<T>(s: seq<T>, p: T -> bool) {
    exists i | 0 <= i < |s| :: p(s[i])
  }

  /** An element satisfying `p` is either in the prefix or the last one. */
  lemma AnySnoc<T>(s: seq<T>, p: T -> bool)
    requires s != []
    ensures Any(s, p) <==> Any(s[..|s| - 1], p) || p(s[|s| - 1])
  {
    var init := s[..|s| - 1];
    if Any(s, p) {
      var i :| 0 <= i < |s| && p(s[i]);
      if i < |init| {
        assert init[i] == s[i];
      }
    }
    if Any(init, p) {
      var i :| 0 <= i < |init| && p(init[i]);
      assert s[i] == init[i];
    }
  }
}
