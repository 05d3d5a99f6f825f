/** The specification of `cumulate_plot_data` in plot_data.py: the
    gap-filled AVG series from day 0, turned into running totals, from
    index `from_day` on. */
module Cumulate {
  import opened Points
  import opened Folds
  import opened Resample
  import opened Combine

  /** Python's `s[k:]` for any integer `k`: a negative `k` counts from the
      end, and a start past either end is clamped. */
  function SliceFrom<T>(s: seq<T>, k: int): seq<T> {
    if k >= 0 then (if k >= |s| then [] else s[k..])
    else (if -k >= |s| then s else s[|s| + k..])
  }

  /** A slice from `k` is a suffix: the last `|s| - k` elements for
      `k >= 0`, the last `-k` elements for negative `k`, never more than `s`. */
  lemma {:induction false} SliceFromSuffix<T>(s: seq<T>, k: int)
    ensures var r := SliceFrom(s, k);
      |r| <= |s| && r == s[|s| - |r|..]
      && |r| == (if k >= 0 then (if k >= |s| then 0 else |s| - k) else (if -k >= |s| then |s| else -k))
  {
  }

  /** The running totals the loop appends: the first value, then each value
      added to the previous total. */
  function RunningSums(y: seq<real>): (r: seq<real>)
    ensures |r| == |y|
    ensures forall k :: 0 <= k < |y| ==> r[k] == Folds.Sum(y[..k + 1])
  {
    if y == [] then []
    else if |y| == 1 then
      assert y[..1] == y && y[..0] == [];
      [y[0]]
    else
      var prev := RunningSums(y[..|y| - 1]);
      assert forall k :: 0 <= k < |y| ==> y[..|y| - 1][..k] == y[..k];
      assert y[..|y|] == y;
      prev + [prev[|prev| - 1] + y[|y| - 1]]
  }

  /** Totals of non-negative values never decrease. */
  lemma {:induction false} RunningSumsMonotone(y: seq<real>)
    requires forall k :: 0 <= k < |y| ==> y[k] >= 0.0
    ensures forall i, j :: 0 <= i <= j < |y| ==> RunningSums(y)[i] <= RunningSums(y)[j]
  {
    var r := RunningSums(y);
    forall i, j | 0 <= i <= j < |y| ensures r[i] <= r[j] {
      SumAppend(y[..i + 1], y[i + 1..j + 1]);
      assert y[..i + 1] + y[i + 1..j + 1] == y[..j + 1];
      var tail := y[i + 1..j + 1];
      MaxFromIsMaximum(0.0, tail);
      SumBounds(tail, 0.0, MaxFrom(0.0, tail));
    }
  }

  /** The totals before the slice: day and running total per bucketed day
      from day 0 with gap filling and AVG, or nothing when that series is
      empty. */
  function CumulatedAll(ps: seq<Point>, lastXDays: int): seq<Point> {
    var a := AggregatedByDay(ps, 0, Avg, true, lastXDays);
    if |a.x| == |a.y| && |a.x| > 0 then Zip(AsReals(a.x), RunningSums(a.y)) else []
  }

  /** The points of `cumulate_plot_data(new_name, pd, from_day)` for a
      series with points `ps`. */
  function CumulatedPoints(ps: seq<Point>, fromDay: int, lastXDays: int): seq<Point> {
    SliceFrom(CumulatedAll(ps, lastXDays), fromDay)
  }

  /** The gap-filled series from day 0 holds day `i` at index `i`. */
  lemma {:induction false} FilledFromZero(ps: seq<Point>, lastXDays: int)
    ensures var a := AggregatedByDay(ps, 0, Avg, true, lastXDays);
      |a.x| == |a.y| && forall i :: 0 <= i < |a.x| ==> a.x[i] == i
  {
    if exists p :: p in ps && p.day >= 0.0 {
      AggregatedByDayFilledDays(ps, 0, Avg, lastXDays);
    } else {
      AggregatedByDayNoSamples(ps, 0, Avg, true, lastXDays);
    }
  }

  /** Because index and day coincide, slicing from `from_day >= 0` keeps
      exactly the days from `from_day` on, each with the total of the daily
      values up to and including that day. */
  lemma {:induction false} CumulatedByDay(ps: seq<Point>, fromDay: int, lastXDays: int)
    requires fromDay >= 0
    ensures var a := AggregatedByDay(ps, 0, Avg, true, lastXDays);
      var r := CumulatedPoints(ps, fromDay, lastXDays);
      |a.x| == |a.y|
      && |r| == (if fromDay < |a.x| then |a.x| - fromDay else 0)
      && forall k :: 0 <= k < |r| ==>
           r[k].day == (fromDay + k) as real && r[k].value == Folds.Sum(a.y[..fromDay + k + 1])
  {
    FilledFromZero(ps, lastXDays);
    var a := AggregatedByDay(ps, 0, Avg, true, lastXDays);
    var all := CumulatedAll(ps, lastXDays);
    var r := CumulatedPoints(ps, fromDay, lastXDays);
    if fromDay < |all| {
      forall k | 0 <= k < |r|
        ensures r[k].day == (fromDay + k) as real && r[k].value == Folds.Sum(a.y[..fromDay + k + 1])
      {
        assert r[k] == all[fromDay + k];
      }
    }
  }
}
