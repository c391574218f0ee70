/**
 * The filtering loop the list screens share: walk the list once and append every
 * element that passes `keep`, in the order met.
 */
module Filtering {

  /** The elements of `s` that pass `keep`, in their original order. */
  function Filter<T>(s: seq<T>, keep: T -> bool): seq<T>
    decreases |s|
  {
    if s == [] then []
    else Filter(s[..|s| - 1], keep) + (if keep(s[|s| - 1]) then [s[|s| - 1]] else [])
  }

  /** One more element of the list either joins the filtered elements at the end or is dropped. */
  lemma FilterStep<T>(s: seq<T>, i: int, keep: T -> bool)
    requires 0 <= i < |s|
    ensures keep(s[i]) ==> Filter(s[..i + 1], keep) == Filter(s[..i], keep) + [s[i]]
    ensures !keep(s[i]) ==> Filter(s[..i + 1], keep) == Filter(s[..i], keep)
  {
    assert s[..i + 1][..i] == s[..i];
  }

  /**
   * Every element that passes `keep` is kept as often as it occurs and every other one
   * is dropped; so the kept elements are exactly the members of `s` that pass.
   */
  lemma {:induction false} FilterCounts<T(!new)>(s: seq<T>, keep: T -> bool)
    ensures forall x :: multiset(Filter(s, keep))[x] == if keep(x) then multiset(s)[x] else 0
    ensures forall x :: x in Filter(s, keep) <==> x in s && keep(x)
    decreases |s|
  {
    if s != [] {
      var prev := s[..|s| - 1];
      var last := s[|s| - 1];
      assert s == prev + [last];
      FilterCounts(prev, keep);
      assert Filter(s, keep) == Filter(prev, keep) + (if keep(last) then [last] else []);
    }
  }

  /** When every element passes, filtering gives the list back unchanged. */
  lemma {:induction false} FilterKeepsAll<T>(s: seq<T>, keep: T -> bool)
    requires forall i :: 0 <= i < |s| ==> keep(s[i])
    ensures Filter(s, keep) == s
    decreases |s|
  {
    if s != [] {
      var prev := s[..|s| - 1];
      FilterKeepsAll(prev, keep);
      assert s == prev + [s[|s| - 1]];
    }
  }

  /** Filtering never lengthens the list. */
  lemma {:induction false} FilterLength<T>(s: seq<T>, keep: T -> bool)
    ensures |Filter(s, keep)| <= |s|
    decreases |s|
  {
    if s != [] {
      FilterLength(s[..|s| - 1], keep);
    }
  }
}
