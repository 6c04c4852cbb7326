/** Half-open intervals of natural numbers, used for the id windows of a
    production line and the index set of the registered lines. */
module Intervals {

  /** The naturals `lo`, `lo + 1`, ..., `hi - 1`. */
  function Interval(lo: nat, hi: nat): (s: set<nat>)
    ensures forall k :: k in s <==> lo <= k < hi
    decreases hi
  {
    if hi <= lo then {} else Interval(lo, hi - 1) + {hi - 1}
  }

  /** An interval holds exactly `hi - lo` numbers. */
  lemma {:induction false} IntervalSize(lo: nat, hi: nat)
    requires lo <= hi
    ensures |Interval(lo, hi)| == hi - lo
  {
    if lo < hi {
      IntervalSize(lo, hi - 1);
    }
  }

  /** A set of naturals inside `[lo, hi)` has at most `hi - lo` members. */
  lemma {:induction false} SubsetOfIntervalSize(s: set<nat>, lo: nat, hi: nat)
    requires lo <= hi
    requires forall k :: k in s ==> lo <= k < hi
    ensures |s| <= hi - lo
  {
    IntervalSize(lo, hi);
    SubsetSize(s, Interval(lo, hi));
  }

  /** A set of naturals inside `[lo, hi)` has `hi - lo` members exactly when it is
      the whole interval. */
  lemma {:induction false} FullIntervalSize(s: set<nat>, lo: nat, hi: nat)
    requires lo <= hi
    requires forall k :: k in s ==> lo <= k < hi
    ensures |s| == hi - lo <==> s == Interval(lo, hi)
  {
    IntervalSize(lo, hi);
    assert s <= Interval(lo, hi);
    if s != Interval(lo, hi) {
      assert Interval(lo, hi) - s != {};
      var x :| x in Interval(lo, hi) - s;
      SubsetSize(s, Interval(lo, hi) - {x});
    }
  }

  /** Cardinality is monotone under inclusion. */
  lemma {:induction false} SubsetSize<T>(a: set<T>, b: set<T>)
    requires a <= b
    ensures |a| <= |b|
    decreases |b|
  {
    if a != {} {
      var x :| x in a;
      SubsetSize(a - {x}, b - {x});
    }
  }
}
