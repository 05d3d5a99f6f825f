/** The specification of the cross-series part of plot_data.py:
    `aggregate_lists_by_index` combines several value lists entry by entry,
    and `aggregate_plot_data_by_day` lines several series up on the days of
    the first and combines their values. */
module Combine {
  import opened Points
  import opened Folds
  import opened Resample

  /** The entries at index `j` of the lists long enough to have one, in
      list order. */
  function Present(lists: seq<seq<real>>, j: nat): seq<real> {
    if lists == [] then []
    else
      var last := lists[|lists| - 1];
      Present(lists[..|lists| - 1], j) + (if j < |last| then [last[j]] else [])
  }

  /** A value is present at `j` exactly when some list long enough holds it
      there; there are at most as many as lists. */
  lemma {:induction false} PresentMembers(lists: seq<seq<real>>, j: nat)
    ensures |Present(lists, j)| <= |lists|
    ensures forall v :: v in Present(lists, j) <==> exists l :: 0 <= l < |lists| && j < |lists[l]| && lists[l][j] == v
  {
    if lists != [] {
      var front := lists[..|lists| - 1];
      PresentMembers(front, j);
      forall v | v in Present(lists, j) ensures exists l :: 0 <= l < |lists| && j < |lists[l]| && lists[l][j] == v {
        if v in Present(front, j) {
          var l :| 0 <= l < |front| && j < |front[l]| && front[l][j] == v;
          assert lists[l] == front[l];
        }
      }
      forall v | exists l :: 0 <= l < |lists| && j < |lists[l]| && lists[l][j] == v ensures v in Present(lists, j) {
        var l :| 0 <= l < |lists| && j < |lists[l]| && lists[l][j] == v;
        if l < |lists| - 1 {
          assert front[l] == lists[l];
        }
      }
    }
  }

  /** The `j`-th entry of a list long enough is present. */
  lemma {:induction false} PresentHas(lists: seq<seq<real>>, j: nat, l: nat)
    requires l < |lists| && j < |lists[l]|
    ensures lists[l][j] in Present(lists, j)
  {
    PresentMembers(lists, j);
    var v := lists[l][j];
    assert exists m :: 0 <= m < |lists| && j < |lists[m]| && lists[m][j] == v;
  }

  /** The first list always contributes first, as long as `j` is one of its
      indices. */
  lemma {:induction false} PresentFirst(lists: seq<seq<real>>, j: nat)
    requires |lists| > 0 && j < |lists[0]|
    ensures |Present(lists, j)| > 0 && Present(lists, j)[0] == lists[0][j]
  {
    if |lists| > 1 {
      var front := lists[..|lists| - 1];
      assert front[0] == lists[0];
      PresentFirst(front, j);
    }
  }

  /** When every list is long enough, the present values are the `j`-th
      entry of each list. */
  lemma {:induction false} PresentAll(lists: seq<seq<real>>, j: nat)
    requires forall l :: 0 <= l < |lists| ==> j < |lists[l]|
    ensures Present(lists, j) == seq(|lists|, l requires 0 <= l < |lists| => lists[l][j])
  {
    if lists != [] {
      var front := lists[..|lists| - 1];
      PresentAll(front, j);
    }
  }

  /** The combined value at index `j`: the running maximum started at 0.0,
      the running minimum started at infinity (which the first present
      value always replaces), the sum, or, for AVG and LAST alike, the
      mean. */
  function CombineAt(lists: seq<seq<real>>, j: nat, t: AggregateType): real
    requires |lists| > 0 && j < |lists[0]|
  {
    PresentFirst(lists, j);
    var p := Present(lists, j);
    match t
    case Max => MaxFrom(0.0, p)
    case Min => MinFrom(p[0], p[1..])
    case Sum => Folds.Sum(p)
    case _ => Mean(p)
  }

  /** `aggregate_lists_by_index(data_list, aggtype)`: one combined value per
      index of the first list. */
  function AggregateLists(lists: seq<seq<real>>, t: AggregateType): (r: seq<real>)
    requires |lists| > 0
    ensures |r| == |lists[0]|
    ensures forall j :: 0 <= j < |r| ==> r[j] == CombineAt(lists, j, t)
  {
    seq(|lists[0]|, j requires 0 <= j < |lists[0]| => CombineAt(lists, j, t))
  }

  /** MAX: at least 0.0 and every present value, and either 0.0 or one of
      them. */
  lemma {:induction false} CombineMax(lists: seq<seq<real>>, j: nat)
    requires |lists| > 0 && j < |lists[0]|
    ensures 0.0 <= CombineAt(lists, j, Max)
    ensures forall l :: 0 <= l < |lists| && j < |lists[l]| ==> lists[l][j] <= CombineAt(lists, j, Max)
    ensures CombineAt(lists, j, Max) == 0.0 || exists l :: 0 <= l < |lists| && j < |lists[l]| && lists[l][j] == CombineAt(lists, j, Max)
  {
    var p := Present(lists, j);
    PresentMembers(lists, j);
    MaxFromIsMaximum(0.0, p);
    forall l | 0 <= l < |lists| && j < |lists[l]| ensures lists[l][j] <= CombineAt(lists, j, Max) {
      PresentHas(lists, j, l);
    }
  }

  /** MIN: at most every present value, and one of them. */
  lemma {:induction false} CombineMin(lists: seq<seq<real>>, j: nat)
    requires |lists| > 0 && j < |lists[0]|
    ensures forall l :: 0 <= l < |lists| && j < |lists[l]| ==> CombineAt(lists, j, Min) <= lists[l][j]
    ensures exists l :: 0 <= l < |lists| && j < |lists[l]| && lists[l][j] == CombineAt(lists, j, Min)
  {
    var p := Present(lists, j);
    PresentMembers(lists, j);
    PresentFirst(lists, j);
    MinFromIsMinimum(p[0], p[1..]);
    assert p == [p[0]] + p[1..];
    forall l | 0 <= l < |lists| && j < |lists[l]| ensures CombineAt(lists, j, Min) <= lists[l][j] {
      PresentHas(lists, j, l);
    }
    assert CombineAt(lists, j, Min) in p;
  }

  /** SUM and AVG over lists of equal length: the sum and the mean of the
      `j`-th entries of all lists. */
  lemma {:induction false} CombineFull(lists: seq<seq<real>>, j: nat)
    requires |lists| > 0 && forall l :: 0 <= l < |lists| ==> j < |lists[l]|
    ensures var col := seq(|lists|, l requires 0 <= l < |lists| => lists[l][j]);
      CombineAt(lists, j, Sum) == Folds.Sum(col) && CombineAt(lists, j, Avg) == Mean(col)
  {
    PresentAll(lists, j);
  }

  /** AVG (and LAST) lie between the smallest and the largest present value. */
  lemma {:induction false} CombineMeanWithin(lists: seq<seq<real>>, j: nat, t: AggregateType, lo: real, hi: real)
    requires |lists| > 0 && j < |lists[0]| && (t == Avg || t == Last)
    requires forall l :: 0 <= l < |lists| && j < |lists[l]| ==> lo <= lists[l][j] <= hi
    ensures lo <= CombineAt(lists, j, t) <= hi
  {
    var p := Present(lists, j);
    PresentMembers(lists, j);
    PresentFirst(lists, j);
    forall i | 0 <= i < |p| ensures lo <= p[i] <= hi {
      assert p[i] in p;
    }
    MeanBetween(p, lo, hi);
  }

  lemma {:induction false} SumOfTwo(a: real, b: real)
    ensures Folds.Sum([a]) == a && Folds.Sum([a, b]) == a + b
  {
    assert [a, b][..1] == [a];
    assert [a][..0] == [];
  }

  /** A shorter later list drops out of the later indices: SUM of
      [[1, 2, 3], [4, 5]] is [5, 7, 3]. */
  lemma {:induction false} AggregateListsShorterLater()
    ensures AggregateLists([[1.0, 2.0, 3.0], [4.0, 5.0]], Sum) == [5.0, 7.0, 3.0]
  {
    var a: seq<seq<real>> := [[1.0, 2.0, 3.0], [4.0, 5.0]];
    assert a[..1] == [[1.0, 2.0, 3.0]];
    assert [[1.0, 2.0, 3.0]][..0] == [];
    assert Present(a, 0) == [1.0, 4.0];
    assert Present(a, 1) == [2.0, 5.0];
    assert Present(a, 2) == [3.0];
    SumOfTwo(1.0, 4.0);
    SumOfTwo(2.0, 5.0);
    SumOfTwo(3.0, 0.0);
  }

  /** The mean counts only the lists present at an index: AVG of
      [[2, 4], [6]] is [4, 4]. */
  lemma {:induction false} AggregateListsMeanOfPresent()
    ensures AggregateLists([[2.0, 4.0], [6.0]], Avg) == [4.0, 4.0]
  {
    var b: seq<seq<real>> := [[2.0, 4.0], [6.0]];
    assert b[..1] == [[2.0, 4.0]];
    assert [[2.0, 4.0]][..0] == [];
    assert Present(b, 0) == [2.0, 6.0];
    assert Present(b, 1) == [4.0];
    SumOfTwo(2.0, 6.0);
    SumOfTwo(4.0, 0.0);
  }

  /** The first list decides the length; the tail of a longer later list is
      ignored: SUM of [[4, 5], [1, 2, 3]] is [5, 7]. */
  lemma {:induction false} AggregateListsFirstDecidesLength()
    ensures AggregateLists([[4.0, 5.0], [1.0, 2.0, 3.0]], Sum) == [5.0, 7.0]
  {
    var c: seq<seq<real>> := [[4.0, 5.0], [1.0, 2.0, 3.0]];
    assert c[..1] == [[4.0, 5.0]];
    assert [[4.0, 5.0]][..0] == [];
    assert Present(c, 0) == [4.0, 1.0];
    assert Present(c, 1) == [5.0, 2.0];
    SumOfTwo(4.0, 1.0);
    SumOfTwo(5.0, 2.0);
  }

  /** MAX starts from 0.0, so negative values combine to 0.0: MAX of
      [[-1], [-2]] is [0]. */
  lemma {:induction false} AggregateListsMaxFloor()
    ensures AggregateLists([[-1.0], [-2.0]], Max) == [0.0]
  {
    var d: seq<seq<real>> := [[-1.0], [-2.0]];
    assert d[..1] == [[-1.0]];
    assert [[-1.0]][..0] == [];
    assert Present(d, 0) == [-1.0, -2.0];
    assert [-1.0, -2.0][..1] == [-1.0];
    assert [-1.0][..0] == [];
  }

  // ----- aggregate_plot_data_by_day -----

  /** Whole days as numbers. */
  function AsReals(xs: seq<int>): (r: seq<real>)
    ensures |r| == |xs| && forall i :: 0 <= i < |xs| ==> r[i] == xs[i] as real
  {
    seq(|xs|, i requires 0 <= i < |xs| => xs[i] as real)
  }

  /** Pair up days and values. */
  function Zip(xs: seq<real>, ys: seq<real>): (r: seq<Point>)
    requires |xs| == |ys|
    ensures |r| == |xs| && forall i :: 0 <= i < |xs| ==> r[i] == Point(xs[i], ys[i])
  {
    seq(|xs|, i requires 0 <= i < |xs| => Point(xs[i], ys[i]))
  }

  /** The days one series contributes: its raw days from `fromDay` on when
      the series share their days, else its gap-filled bucketed days. */
  function SeriesX(ps: seq<Point>, fromDay: int, xMatching: bool, tIn: AggregateType, lastXDays: int): seq<real> {
    if xMatching then Days(FromDayPoints(ps, fromDay))
    else AsReals(AggregatedByDay(ps, fromDay, tIn, true, lastXDays).x)
  }

  /** The values one series contributes, matching `SeriesX`. */
  function SeriesY(ps: seq<Point>, fromDay: int, xMatching: bool, tIn: AggregateType, lastXDays: int): seq<real> {
    if xMatching then Values(FromDayPoints(ps, fromDay))
    else AggregatedByDay(ps, fromDay, tIn, true, lastXDays).y
  }

  /** A series contributes as many values as days. */
  lemma {:induction false} SeriesAligned(ps: seq<Point>, fromDay: int, xMatching: bool, tIn: AggregateType, lastXDays: int)
    ensures |SeriesX(ps, fromDay, xMatching, tIn, lastXDays)| == |SeriesY(ps, fromDay, xMatching, tIn, lastXDays)|
  {
    EmitLengthsOf(ps, fromDay, tIn, true, lastXDays);
  }

  /** The value lists of all series. */
  function AllSeriesY(data: seq<seq<Point>>, fromDay: int, xMatching: bool, tIn: AggregateType, lastXDays: int): (ys: seq<seq<real>>)
    ensures |ys| == |data|
    ensures forall k :: 0 <= k < |data| ==> ys[k] == SeriesY(data[k], fromDay, xMatching, tIn, lastXDays)
  {
    seq(|data|, k requires 0 <= k < |data| => SeriesY(data[k], fromDay, xMatching, tIn, lastXDays))
  }

  /** `ys` holds the values of the first `k` series of `data`. */
  predicate CollectedY(data: seq<seq<Point>>, ys: seq<seq<real>>, k: nat, fromDay: int, xMatching: bool,
                       tIn: AggregateType, lastXDays: int)
  {
    k <= |data| && |ys| == k && forall m :: 0 <= m < k ==> ys[m] == SeriesY(data[m], fromDay, xMatching, tIn, lastXDays)
  }

  /** Appending the next series' values keeps `CollectedY`. */
  lemma {:induction false} CollectedYStep(data: seq<seq<Point>>, ys: seq<seq<real>>, y: seq<real>, k: nat, fromDay: int, xMatching: bool,
                       tIn: AggregateType, lastXDays: int)
    requires CollectedY(data, ys, k, fromDay, xMatching, tIn, lastXDays) && k < |data|
    requires y == SeriesY(data[k], fromDay, xMatching, tIn, lastXDays)
    ensures CollectedY(data, ys + [y], k + 1, fromDay, xMatching, tIn, lastXDays)
  {
  }

  /** A list holding each series' values in turn is `AllSeriesY`. */
  lemma {:induction false} AllSeriesYOf(data: seq<seq<Point>>, ys: seq<seq<real>>, fromDay: int, xMatching: bool, tIn: AggregateType, lastXDays: int)
    requires CollectedY(data, ys, |data|, fromDay, xMatching, tIn, lastXDays)
    ensures ys == AllSeriesY(data, fromDay, xMatching, tIn, lastXDays)
  {
  }

  /** The points of `aggregate_plot_data_by_day(new_name, data, from_day,
      aggtype_between_lists, x_is_matching, aggtype_in_list)` for series
      with points `data`: the first series' days, each with the combined
      values of all series at that index; no points when there is no series
      or when the lengths disagree. */
  function AggregatedPoints(data: seq<seq<Point>>, fromDay: int, tBetween: AggregateType, xMatching: bool,
                            tIn: AggregateType, lastXDays: int): seq<Point>
  {
    if |data| == 0 then []
    else
      var ax := SeriesX(data[0], fromDay, xMatching, tIn, lastXDays);
      var ay := AggregateLists(AllSeriesY(data, fromDay, xMatching, tIn, lastXDays), tBetween);
      if |ax| != |ay| then [] else Zip(ax, ay)
  }

  /** The length check never fires: with at least one series the result has
      one point per day of the first series, carrying the combined value of
      every series at that index. */
  lemma {:induction false} AggregatedPointsAligned(data: seq<seq<Point>>, fromDay: int, tBetween: AggregateType, xMatching: bool,
                                tIn: AggregateType, lastXDays: int)
    requires |data| > 0
    ensures var ax := SeriesX(data[0], fromDay, xMatching, tIn, lastXDays);
      var ys := AllSeriesY(data, fromDay, xMatching, tIn, lastXDays);
      var r := AggregatedPoints(data, fromDay, tBetween, xMatching, tIn, lastXDays);
      |r| == |ax| == |ys[0]|
      && forall i :: 0 <= i < |r| ==> r[i].day == ax[i] && r[i].value == CombineAt(ys, i, tBetween)
  {
    SeriesAligned(data[0], fromDay, xMatching, tIn, lastXDays);
  }
}
