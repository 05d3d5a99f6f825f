/** The specification of the resampling engine of plot_data.py: what
    day-bucketing, smoothing, index-wise combination, cross-series
    aggregation and cumulation compute, as functions of the input samples,
    with the properties the dashboards rely on proved about them. The
    methods of the `PlotData` class are proved to compute these functions. */
module Resample {
  import opened Outcomes
  import opened Points
  import opened Folds
  import opened Grouping

  /** How several values of one day, or of one index, collapse to one. */
  datatype AggregateType = Max | Min | Sum | Last | Avg

  /** Python's `round()` on a number: the nearest integer, ties to the even one. */
  function Round(r: real): (n: int)
    ensures n as real - 0.5 <= r <= n as real + 0.5
    ensures r - r.Floor as real == 0.5 ==> n % 2 == 0
  {
    var f := r.Floor;
    var frac := r - f as real;
    if frac < 0.5 then f
    else if frac > 0.5 then f + 1
    else if f % 2 == 0 then f
    else f + 1
  }

  lemma {:induction false} RoundMonotone(a: real, b: real)
    requires a <= b
    ensures Round(a) <= Round(b)
  {
  }

  lemma {:induction false} RoundOfInteger(n: int)
    ensures Round(n as real) == n
  {
  }

  /** The rounded day of every sample. */
  function RoundedDays(ps: seq<Point>): seq<int> {
    seq(|ps|, i requires 0 <= i < |ps| => Round(ps[i].day))
  }

  /** Python's `range(lo, hi)`. */
  function Range(lo: int, hi: int): (r: seq<int>)
    ensures |r| == if hi > lo then hi - lo else 0
    ensures forall i :: 0 <= i < |r| ==> r[i] == lo + i
  {
    seq(if hi > lo then hi - lo else 0, i => lo + i)
  }

  /** A range is its part below `mid`, `mid` itself, and its part above. */
  lemma {:induction false} RangeSplit(lo: int, mid: int, hi: int)
    requires lo <= mid < hi
    ensures Range(lo, mid) + [mid] + Range(mid + 1, hi) == Range(lo, hi)
  {
    var r := Range(lo, mid) + [mid] + Range(mid + 1, hi);
    forall i | 0 <= i < |r| ensures r[i] == lo + i {
      if i > mid - lo { assert r[i] == Range(mid + 1, hi)[i - (mid - lo) - 1]; }
    }
  }

  /** Python's `[v] * n`. */
  function Repeat(v: real, n: int): (r: seq<real>)
    ensures |r| == if n > 0 then n else 0
    ensures forall i :: 0 <= i < |r| ==> r[i] == v
  {
    seq(if n > 0 then n else 0, _ => v)
  }

  /** The value one bucket collapses to: its maximum or minimum (the first
      extreme in scan order), its last value, or, for every other type
      including SUM, its mean. */
  function Aggregate(t: AggregateType, vs: seq<real>): real
    requires |vs| > 0
  {
    match t
    case Max => MaxFrom(vs[0], vs[1..])
    case Min => MinFrom(vs[0], vs[1..])
    case Last => vs[|vs| - 1]
    case _ => Mean(vs)
  }

  /** The maximum of a bucket is its largest value and the minimum its
      smallest; both, and the last value, are values of the bucket. */
  lemma {:induction false} AggregateExtremes(t: AggregateType, vs: seq<real>)
    requires |vs| > 0
    ensures t in {Max, Min, Last} ==> Aggregate(t, vs) in vs
    ensures t == Max ==> forall i :: 0 <= i < |vs| ==> vs[i] <= Aggregate(t, vs)
    ensures t == Min ==> forall i :: 0 <= i < |vs| ==> Aggregate(t, vs) <= vs[i]
  {
    assert vs == [vs[0]] + vs[1..];
    MaxFromIsMaximum(vs[0], vs[1..]);
    MinFromIsMinimum(vs[0], vs[1..]);
  }

  /** Whatever the type, a bucket's value lies within the bounds of its values. */
  lemma {:induction false} AggregateWithin(t: AggregateType, vs: seq<real>, lo: real, hi: real)
    requires |vs| > 0
    requires forall i :: 0 <= i < |vs| ==> lo <= vs[i] <= hi
    ensures lo <= Aggregate(t, vs) <= hi
  {
    AggregateExtremes(t, vs);
    if t == Sum || t == Avg { MeanBetween(vs, lo, hi); }
  }

  /** The x and y axes of a resampled series. */
  datatype Axes = Axes(x: seq<int>, y: seq<real>)

  /** The output of the bucketing loop for the buckets `gs`, given the day
      after the last emitted one (`next`) and the last emitted value
      (`last`): with `fill`, every day between `next` and a bucket's day is
      first emitted with the carried value `last`. */
  function Emit(fill: bool, next: int, last: real, gs: seq<Group<int>>, t: AggregateType): Axes
    requires forall m :: 0 <= m < |gs| ==> |gs[m].values| > 0
  {
    EmitValues(fill, next, last, Keys(gs), Aggregates(gs, t))
  }

  /** The day of each bucket. */
  function Keys(gs: seq<Group<int>>): (ks: seq<int>)
    ensures |ks| == |gs| && forall m :: 0 <= m < |gs| ==> ks[m] == gs[m].key
  {
    seq(|gs|, m requires 0 <= m < |gs| => gs[m].key)
  }

  /** The value each bucket collapses to. */
  function Aggregates(gs: seq<Group<int>>, t: AggregateType): (vs: seq<real>)
    requires forall m :: 0 <= m < |gs| ==> |gs[m].values| > 0
    ensures |vs| == |gs| && forall m :: 0 <= m < |gs| ==> vs[m] == Aggregate(t, gs[m].values)
  {
    seq(|gs|, m requires 0 <= m < |gs| => Aggregate(t, gs[m].values))
  }

  /** The bucketing loop on the buckets' days `ks` and collapsed values
      `vs`: each entry, preceded, with `fill`, by the days from `next` up to
      its own, which carry the value `last` emitted before them. */
  function EmitValues(fill: bool, next: int, last: real, ks: seq<int>, vs: seq<real>): Axes
    requires |ks| == |vs|
    decreases |ks|
  {
    if ks == [] then Axes([], [])
    else
      var pad := if fill then Range(next, ks[0]) else [];
      var rest := EmitValues(fill, ks[0] + 1, vs[0], ks[1..], vs[1..]);
      Axes(pad + [ks[0]] + rest.x, Repeat(last, |pad|) + [vs[0]] + rest.y)
  }

  /** `get_from_day_points`: the samples sorted by day (stably), from the
      first one not earlier than `fromDay`. */
  function FromDayPoints(ps: seq<Point>, fromDay: int): seq<Point> {
    AtOrAfter(SortByDay(ps), fromDay as real)
  }

  /** The buckets of the kept samples: one per run of equal rounded days. */
  function Buckets(f: seq<Point>): (gs: seq<Group<int>>)
    ensures forall m :: 0 <= m < |gs| ==> |gs[m].values| > 0
  {
    GroupsShape(RoundedDays(f), Values(f), 0);
    Groups(RoundedDays(f), Values(f), 0)
  }

  /** `get_from_day_aggregated_by_day(from_day, aggregate_type, fill)` with
      `config.lastXDays` as `lastXDays`. */
  function AggregatedByDay(ps: seq<Point>, fromDay: int, t: AggregateType, fill: bool, lastXDays: int): Axes {
    var f := FromDayPoints(ps, fromDay);
    if |f| == 0 then Axes(Range(fromDay, fromDay + lastXDays + 1), Repeat(0.0, lastXDays + 1))
    else Emit(fill, fromDay, 0.0, Buckets(f), t)
  }

  /** Without gap filling, one output entry per bucket: its day and its value. */
  lemma {:induction false} EmitPlain(next: int, last: real, gs: seq<Group<int>>, t: AggregateType)
    requires forall m :: 0 <= m < |gs| ==> |gs[m].values| > 0
    ensures |Emit(false, next, last, gs, t).x| == |gs| == |Emit(false, next, last, gs, t).y|
    ensures forall m :: 0 <= m < |gs| ==>
      Emit(false, next, last, gs, t).x[m] == gs[m].key
      && Emit(false, next, last, gs, t).y[m] == Aggregate(t, gs[m].values)
    decreases |gs|
  {
    if gs != [] {
      var v := Aggregate(t, gs[0].values);
      EmitPlain(gs[0].key + 1, v, gs[1..], t);
      EmitStep(false, next, last, gs, t);
      var e, rest := Emit(false, next, last, gs, t), Emit(false, gs[0].key + 1, v, gs[1..], t);
      assert e.x == [gs[0].key] + rest.x && e.y == [v] + rest.y;
      forall m | 1 <= m < |gs| ensures e.x[m] == gs[m].key && e.y[m] == Aggregate(t, gs[m].values) {
        assert gs[m] == gs[1..][m - 1];
      }
    }
  }

  /** Bucket days strictly ascending. */
  predicate KeysAscend(gs: seq<Group<int>>) {
    forall m, n :: 0 <= m < n < |gs| ==> gs[m].key < gs[n].key
  }

  lemma {:induction false} KeysAscendTail(gs: seq<Group<int>>)
    requires KeysAscend(gs) && gs != []
    ensures KeysAscend(gs[1..])
    ensures |gs| > 1 ==> gs[0].key < gs[1..][0].key
  {
    var tail := gs[1..];
    forall m, n | 0 <= m < n < |tail| ensures tail[m].key < tail[n].key {
      assert tail[m] == gs[m + 1] && tail[n] == gs[n + 1];
    }
  }

  /** One step of the bucketing loop: the padding, the bucket's own entry, then the rest. */
  lemma {:induction false} EmitStep(fill: bool, next: int, last: real, gs: seq<Group<int>>, t: AggregateType)
    requires forall m :: 0 <= m < |gs| ==> |gs[m].values| > 0
    requires gs != []
    ensures var d, v := gs[0].key, Aggregate(t, gs[0].values);
      var pad := if fill then Range(next, d) else [];
      var rest := Emit(fill, d + 1, v, gs[1..], t);
      Emit(fill, next, last, gs, t) == Axes(pad + [d] + rest.x, Repeat(last, |pad|) + [v] + rest.y)
  {
    assert Keys(gs)[1..] == Keys(gs[1..]);
    assert Aggregates(gs, t)[1..] == Aggregates(gs[1..], t);
  }

  /** Both axes have the same length. */
  lemma {:induction false} EmitLengths(fill: bool, next: int, last: real, gs: seq<Group<int>>, t: AggregateType)
    requires forall m :: 0 <= m < |gs| ==> |gs[m].values| > 0
    ensures |Emit(fill, next, last, gs, t).x| == |Emit(fill, next, last, gs, t).y|
    decreases |gs|
  {
    if gs != [] {
      EmitStep(fill, next, last, gs, t);
      EmitLengths(fill, gs[0].key + 1, Aggregate(t, gs[0].values), gs[1..], t);
    }
  }

  /** With gap filling and buckets at or after `next`, the days emitted are
      exactly `next`, `next + 1`, ..., up to the last bucket's day. */
  lemma {:induction false} EmitFilledDays(next: int, last: real, gs: seq<Group<int>>, t: AggregateType)
    requires forall m :: 0 <= m < |gs| ==> |gs[m].values| > 0
    requires KeysAscend(gs) && (gs != [] ==> next <= gs[0].key)
    ensures gs == [] ==> Emit(true, next, last, gs, t).x == []
    ensures gs != [] ==> Emit(true, next, last, gs, t).x == Range(next, gs[|gs| - 1].key + 1)
    decreases |gs|
  {
    if gs != [] {
      var d, v := gs[0].key, Aggregate(t, gs[0].values);
      var tail := gs[1..];
      KeysAscendTail(gs);
      EmitFilledDays(d + 1, v, tail, t);
      EmitStep(true, next, last, gs, t);
      var hi := gs[|gs| - 1].key + 1;
      if tail != [] {
        assert tail[|tail| - 1] == gs[|gs| - 1];
      }
      RangeSplit(next, d, hi);
    }
  }

  /** Strictly ascending days. */
  predicate Ascending(ks: seq<int>) {
    forall m, n :: 0 <= m < n < |ks| ==> ks[m] < ks[n]
  }

  lemma {:induction false} AscendingTail(ks: seq<int>)
    requires Ascending(ks) && ks != []
    ensures Ascending(ks[1..])
    ensures |ks| > 1 ==> ks[0] < ks[1..][0]
  {
    var tail := ks[1..];
    forall m, n | 0 <= m < n < |tail| ensures tail[m] < tail[n] {
      assert tail[m] == ks[m + 1] && tail[n] == ks[n + 1];
    }
  }

  lemma {:induction false} KeysAscending(gs: seq<Group<int>>)
    requires KeysAscend(gs)
    ensures Ascending(Keys(gs))
  {
  }

  /** One step of `EmitValues` with gap filling, at position `i`: a padding
      day with the carried value, the first entry, or an entry of the rest. */
  lemma {:induction false} EmitValuesAt(next: int, last: real, ks: seq<int>, vs: seq<real>, i: int)
    requires |ks| == |vs| && ks != [] && next <= ks[0]
    ensures var e, rest := EmitValues(true, next, last, ks, vs), EmitValues(true, ks[0] + 1, vs[0], ks[1..], vs[1..]);
      var n := ks[0] - next;
      && |e.x| == n + 1 + |rest.x| && |e.y| == n + 1 + |rest.y|
      && (0 <= i < n ==> e.x[i] == next + i && e.y[i] == last)
      && (i == n ==> e.x[i] == ks[0] && e.y[i] == vs[0])
      && (n < i < |e.x| ==> e.x[i] == rest.x[i - n - 1])
      && (n < i < |e.y| ==> e.y[i] == rest.y[i - n - 1])
  {
    var e, rest := EmitValues(true, next, last, ks, vs), EmitValues(true, ks[0] + 1, vs[0], ks[1..], vs[1..]);
    var pad := Range(next, ks[0]);
    assert e.x == pad + [ks[0]] + rest.x;
    assert e.y == Repeat(last, |pad|) + [vs[0]] + rest.y;
  }

  /** With gap filling, the entry at position `ks[m] - next` holds `vs[m]`. */
  lemma {:induction false} EmitValuesFilledAt(next: int, last: real, ks: seq<int>, vs: seq<real>, m: nat)
    requires |ks| == |vs| && Ascending(ks) && m < |ks| && next <= ks[0]
    ensures var e := EmitValues(true, next, last, ks, vs);
      0 <= ks[m] - next < |e.y| && e.y[ks[m] - next] == vs[m]
    decreases m
  {
    EmitValuesAt(next, last, ks, vs, ks[m] - next);
    if m > 0 {
      AscendingTail(ks);
      assert ks[1..][m - 1] == ks[m] && vs[1..][m - 1] == vs[m];
      EmitValuesFilledAt(ks[0] + 1, vs[0], ks[1..], vs[1..], m - 1);
    }
  }

  /** With gap filling, an entry whose day is no entry's own day carries
      the value before it, or `last` first. */
  lemma {:induction false} EmitValuesCarryAt(next: int, last: real, ks: seq<int>, vs: seq<real>, i: nat)
    requires |ks| == |vs| && Ascending(ks) && ks != [] && next <= ks[0]
    requires var e := EmitValues(true, next, last, ks, vs); i < |e.x| && e.x[i] !in ks
    ensures var e := EmitValues(true, next, last, ks, vs);
      i < |e.y| && e.y[i] == if i == 0 then last else e.y[i - 1]
    decreases |ks|
  {
    var n := ks[0] - next;
    EmitValuesAt(next, last, ks, vs, i);
    if i < n {
      if i > 0 { EmitValuesAt(next, last, ks, vs, i - 1); }
    } else if i == n {
      assert false;
    } else {
      var j := i - n - 1;
      var rest := EmitValues(true, ks[0] + 1, vs[0], ks[1..], vs[1..]);
      assert rest.x[j] !in ks[1..];
      AscendingTail(ks);
      EmitValuesCarryAt(ks[0] + 1, vs[0], ks[1..], vs[1..], j);
      EmitValuesAt(next, last, ks, vs, i - 1);
    }
  }

  /** With gap filling, the entry of each bucket's day holds the bucket's value. */
  lemma {:induction false} EmitFilledBuckets(next: int, last: real, gs: seq<Group<int>>, t: AggregateType)
    requires forall m :: 0 <= m < |gs| ==> |gs[m].values| > 0
    requires KeysAscend(gs) && (gs != [] ==> next <= gs[0].key)
    ensures var e := Emit(true, next, last, gs, t);
      forall m :: 0 <= m < |gs| ==>
        0 <= gs[m].key - next < |e.y| && e.y[gs[m].key - next] == Aggregate(t, gs[m].values)
  {
    var ks, vs := Keys(gs), Aggregates(gs, t);
    KeysAscending(gs);
    forall m | 0 <= m < |gs|
      ensures 0 <= ks[m] - next < |EmitValues(true, next, last, ks, vs).y|
      ensures EmitValues(true, next, last, ks, vs).y[ks[m] - next] == vs[m]
    {
      EmitValuesFilledAt(next, last, ks, vs, m);
    }
  }

  /** Some bucket is on day `d`. */
  predicate IsKey(gs: seq<Group<int>>, d: int) {
    exists m :: 0 <= m < |gs| && gs[m].key == d
  }

  /** Axes of equal length where each day that is no bucket's day carries
      the value of the day before it, or `last` on the first day. */
  predicate CarriesForward(e: Axes, gs: seq<Group<int>>, last: real) {
    |e.x| == |e.y| &&
    forall i :: 0 <= i < |e.x| && !IsKey(gs, e.x[i]) ==> e.y[i] == if i == 0 then last else e.y[i - 1]
  }

  /** With gap filling, a day that is no bucket's day carries the value of the
      day before it, or `last` on the first day. */
  lemma {:induction false} EmitFilledCarry(next: int, last: real, gs: seq<Group<int>>, t: AggregateType)
    requires forall m :: 0 <= m < |gs| ==> |gs[m].values| > 0
    requires KeysAscend(gs) && (gs != [] ==> next <= gs[0].key)
    ensures CarriesForward(Emit(true, next, last, gs, t), gs, last)
  {
    EmitLengths(true, next, last, gs, t);
    var ks, vs := Keys(gs), Aggregates(gs, t);
    var e := Emit(true, next, last, gs, t);
    assert e == EmitValues(true, next, last, ks, vs);
    KeysAscending(gs);
    forall i | 0 <= i < |e.x| && !IsKey(gs, e.x[i])
      ensures e.y[i] == if i == 0 then last else e.y[i - 1]
    {
      assert e.x[i] !in ks;
      EmitValuesCarryAt(next, last, ks, vs, i);
    }
    assert CarriesForward(e, gs, last);
  }

  /** Some input sample not earlier than `fromDay` rounds to day `d`. */
  predicate KeptOn(ps: seq<Point>, fromDay: int, d: int) {
    exists p :: p in ps && p.day >= fromDay as real && Round(p.day) == d
  }

  /** The values, in day order (input order within a day), of the kept
      samples that round to day `d`. */
  function BucketValues(ps: seq<Point>, fromDay: int, d: int): seq<real> {
    var f := FromDayPoints(ps, fromDay);
    Select(RoundedDays(f), Values(f), d, 0)
  }

  /** The kept samples are sorted by day and are exactly the input samples
      not earlier than `fromDay`. */
  lemma {:induction false} FromDayPointsMembers(ps: seq<Point>, fromDay: int)
    ensures SortedByDay(FromDayPoints(ps, fromDay))
    ensures forall p :: p in FromDayPoints(ps, fromDay) <==> p in ps && p.day >= fromDay as real
  {
    var s := SortByDay(ps);
    AtOrAfterSorted(s, fromDay as real);
    AtOrAfterMembers(s, fromDay as real);
    forall p ensures p in s <==> p in ps {
      assert p in s <==> p in multiset(s);
      assert p in ps <==> p in multiset(ps);
    }
  }

  /** Rounded days of samples sorted by day are ascending. */
  lemma {:induction false} RoundedDaysSorted(f: seq<Point>)
    requires SortedByDay(f)
    ensures SortedBy(RoundedDays(f), (a: int, b: int) => a <= b)
    ensures AntisymmetricOn(RoundedDays(f), (a: int, b: int) => a <= b)
  {
    var ks := RoundedDays(f);
    forall a, b | 0 <= a < b < |ks| ensures ks[a] <= ks[b] {
      RoundMonotone(f[a].day, f[b].day);
    }
  }

  /** The buckets' days are strictly ascending and not earlier than `fromDay`. */
  lemma {:induction false} BucketsAscend(ps: seq<Point>, fromDay: int)
    ensures var gs := Buckets(FromDayPoints(ps, fromDay));
      KeysAscend(gs) && forall m :: 0 <= m < |gs| ==> fromDay <= gs[m].key
  {
    var f := FromDayPoints(ps, fromDay);
    var ks, vs := RoundedDays(f), Values(f);
    var gs := Buckets(f);
    FromDayPointsMembers(ps, fromDay);
    RoundedDaysSorted(f);
    GroupsShape(ks, vs, 0);
    GroupKeysAscend(ks, vs, (a: int, b: int) => a <= b, 0);
    forall m | 0 <= m < |gs| ensures fromDay <= gs[m].key {
      var q :| 0 <= q < |ks| && ks[q] == gs[m].key;
      assert f[q] in f;
      RoundMonotone(fromDay as real, f[q].day);
      RoundOfInteger(fromDay);
    }
  }

  /** Each bucket holds the values of the kept samples rounding to its day. */
  lemma {:induction false} BucketsHoldValues(ps: seq<Point>, fromDay: int)
    ensures var gs := Buckets(FromDayPoints(ps, fromDay));
      forall m :: 0 <= m < |gs| ==> gs[m].values == BucketValues(ps, fromDay, gs[m].key)
  {
    var f := FromDayPoints(ps, fromDay);
    FromDayPointsMembers(ps, fromDay);
    RoundedDaysSorted(f);
    GroupIsSelect(RoundedDays(f), Values(f), (a: int, b: int) => a <= b, 0);
  }

  /** A day has a bucket exactly when a kept sample rounds to it. */
  lemma {:induction false} BucketsCoverKept(ps: seq<Point>, fromDay: int)
    ensures var gs := Buckets(FromDayPoints(ps, fromDay));
      forall d :: KeptOn(ps, fromDay, d) <==> IsKey(gs, d)
  {
    var f := FromDayPoints(ps, fromDay);
    var ks, vs := RoundedDays(f), Values(f);
    var gs := Buckets(f);
    FromDayPointsMembers(ps, fromDay);
    GroupsShape(ks, vs, 0);
    forall m | 0 <= m < |gs| ensures KeptOn(ps, fromDay, gs[m].key) {
      var q :| 0 <= q < |ks| && ks[q] == gs[m].key;
      assert f[q] in f;
    }
    forall d | KeptOn(ps, fromDay, d) ensures IsKey(gs, d) {
      var p :| p in ps && p.day >= fromDay as real && Round(p.day) == d;
      assert p in f;
      var q :| 0 <= q < |f| && f[q] == p;
      GroupsCoverKeys(ks, vs, 0, q);
    }
  }

  lemma {:induction false} SomeKept(ps: seq<Point>, fromDay: int)
    requires exists p :: p in ps && p.day >= fromDay as real
    ensures |FromDayPoints(ps, fromDay)| > 0
  {
    FromDayPointsMembers(ps, fromDay);
    var p :| p in ps && p.day >= fromDay as real;
    assert p in FromDayPoints(ps, fromDay);
  }

  /** When no sample is at or after `fromDay`, the result is `lastXDays + 1`
      consecutive days from `fromDay`, all zero. */
  lemma {:induction false} AggregatedByDayNoSamples(ps: seq<Point>, fromDay: int, t: AggregateType, fill: bool, lastXDays: int)
    ensures |FromDayPoints(ps, fromDay)| == 0 <==> forall p :: p in ps ==> p.day < fromDay as real
    ensures (forall p :: p in ps ==> p.day < fromDay as real) ==>
      var a := AggregatedByDay(ps, fromDay, t, fill, lastXDays);
      |a.x| == |a.y| == (if lastXDays >= 0 then lastXDays + 1 else 0)
      && forall i :: 0 <= i < |a.x| ==> a.x[i] == fromDay + i && a.y[i] == 0.0
  {
    FromDayPointsMembers(ps, fromDay);
    var f := FromDayPoints(ps, fromDay);
    if |f| > 0 { assert f[0] in f; }
  }

  /** Without gap filling: one entry per day on which some kept sample
      falls, days strictly ascending, each holding the aggregate of the
      values of that day's samples. */
  lemma {:induction false} AggregatedByDayPlain(ps: seq<Point>, fromDay: int, t: AggregateType, lastXDays: int)
    requires exists p :: p in ps && p.day >= fromDay as real
    ensures var a := AggregatedByDay(ps, fromDay, t, false, lastXDays);
      |a.x| == |a.y| > 0
      && (forall i, j :: 0 <= i < j < |a.x| ==> a.x[i] < a.x[j])
      && (forall d :: d in a.x <==> KeptOn(ps, fromDay, d))
      && (forall i :: 0 <= i < |a.x| ==> |BucketValues(ps, fromDay, a.x[i])| > 0)
      && (forall i :: 0 <= i < |a.x| ==> a.y[i] == Aggregate(t, BucketValues(ps, fromDay, a.x[i])))
  {
    var gs := Buckets(FromDayPoints(ps, fromDay));
    AggregatedIsEmit(ps, fromDay, t, false, lastXDays);
    BucketsAscend(ps, fromDay);
    BucketsHoldValues(ps, fromDay);
    BucketsCoverKept(ps, fromDay);
    var p :| p in ps && p.day >= fromDay as real;
    assert KeptOn(ps, fromDay, Round(p.day));
    EmitPlain(fromDay, 0.0, gs, t);
    var a := Emit(false, fromDay, 0.0, gs, t);
    forall d ensures d in a.x <==> KeptOn(ps, fromDay, d) {
      if d in a.x {
        var i :| 0 <= i < |a.x| && a.x[i] == d;
        assert gs[i].key == d;
      }
    }
  }

  /** Once some sample is kept, the result is what the bucketing loop emits. */
  lemma {:induction false} AggregatedIsEmit(ps: seq<Point>, fromDay: int, t: AggregateType, fill: bool, lastXDays: int)
    requires exists p :: p in ps && p.day >= fromDay as real
    ensures AggregatedByDay(ps, fromDay, t, fill, lastXDays)
         == Emit(fill, fromDay, 0.0, Buckets(FromDayPoints(ps, fromDay)), t)
  {
    SomeKept(ps, fromDay);
  }

  /** With gap filling: consecutive days from `fromDay` on. */
  lemma {:induction false} AggregatedByDayFilledDays(ps: seq<Point>, fromDay: int, t: AggregateType, lastXDays: int)
    requires exists p :: p in ps && p.day >= fromDay as real
    ensures var a := AggregatedByDay(ps, fromDay, t, true, lastXDays);
      |a.x| == |a.y| > 0 && forall i :: 0 <= i < |a.x| ==> a.x[i] == fromDay + i
  {
    SomeKept(ps, fromDay);
    var gs := Buckets(FromDayPoints(ps, fromDay));
    AggregatedIsEmit(ps, fromDay, t, true, lastXDays);
    BucketsAscend(ps, fromDay);
    GroupsShape(RoundedDays(FromDayPoints(ps, fromDay)), Values(FromDayPoints(ps, fromDay)), 0);
    BucketsCoverKept(ps, fromDay);
    EmitFilledDays(fromDay, 0.0, gs, t);
    EmitLengths(true, fromDay, 0.0, gs, t);
    var p :| p in ps && p.day >= fromDay as real;
    assert KeptOn(ps, fromDay, Round(p.day));
  }

  /** With gap filling: the last day is the latest day on which a kept
      sample falls. */
  lemma {:induction false} AggregatedByDayFilledLastDay(ps: seq<Point>, fromDay: int, t: AggregateType, lastXDays: int)
    requires exists p :: p in ps && p.day >= fromDay as real
    ensures var a := AggregatedByDay(ps, fromDay, t, true, lastXDays);
      |a.x| > 0
      && KeptOn(ps, fromDay, a.x[|a.x| - 1])
      && forall p :: p in ps && p.day >= fromDay as real ==> Round(p.day) <= a.x[|a.x| - 1]
  {
    var gs := Buckets(FromDayPoints(ps, fromDay));
    AggregatedIsEmit(ps, fromDay, t, true, lastXDays);
    BucketsAscend(ps, fromDay);
    BucketsCoverKept(ps, fromDay);
    var p :| p in ps && p.day >= fromDay as real;
    assert KeptOn(ps, fromDay, Round(p.day));
    EmitFilledDays(fromDay, 0.0, gs, t);
    var x := Emit(true, fromDay, 0.0, gs, t).x;
    var lastKey := gs[|gs| - 1].key;
    assert x[|x| - 1] == lastKey;
    assert KeptOn(ps, fromDay, lastKey);
    forall q | q in ps && q.day >= fromDay as real ensures Round(q.day) <= lastKey {
      assert KeptOn(ps, fromDay, Round(q.day));
    }
  }

  /** With gap filling: a day with kept samples holds their aggregate. */
  lemma {:induction false} AggregatedByDayFilledBuckets(ps: seq<Point>, fromDay: int, t: AggregateType, lastXDays: int)
    requires exists p :: p in ps && p.day >= fromDay as real
    ensures var a := AggregatedByDay(ps, fromDay, t, true, lastXDays);
      |a.x| == |a.y|
      && forall i :: 0 <= i < |a.x| && KeptOn(ps, fromDay, a.x[i]) ==>
           |BucketValues(ps, fromDay, a.x[i])| > 0 && a.y[i] == Aggregate(t, BucketValues(ps, fromDay, a.x[i]))
  {
    var gs := Buckets(FromDayPoints(ps, fromDay));
    AggregatedIsEmit(ps, fromDay, t, true, lastXDays);
    BucketsAscend(ps, fromDay);
    BucketsHoldValues(ps, fromDay);
    BucketsCoverKept(ps, fromDay);
    EmitFilledDays(fromDay, 0.0, gs, t);
    EmitFilledBuckets(fromDay, 0.0, gs, t);
    EmitLengths(true, fromDay, 0.0, gs, t);
    var e := Emit(true, fromDay, 0.0, gs, t);
    forall i | 0 <= i < |e.x| && KeptOn(ps, fromDay, e.x[i])
      ensures |BucketValues(ps, fromDay, e.x[i])| > 0 && e.y[i] == Aggregate(t, BucketValues(ps, fromDay, e.x[i]))
    {
      assert IsKey(gs, e.x[i]);
      FilledBucketAt(ps, fromDay, t, gs, e, i);
    }
  }

  /** The entry of a bucket's day holds the aggregate of that day's values. */
  lemma {:induction false} FilledBucketAt(ps: seq<Point>, fromDay: int, t: AggregateType, gs: seq<Group<int>>, e: Axes, i: int)
    requires |e.x| == |e.y| && 0 <= i < |e.x| && e.x[i] == fromDay + i && IsKey(gs, e.x[i])
    requires forall m :: 0 <= m < |gs| ==> gs[m].values == BucketValues(ps, fromDay, gs[m].key) && |gs[m].values| > 0
    requires forall m :: 0 <= m < |gs| ==>
      0 <= gs[m].key - fromDay < |e.y| && e.y[gs[m].key - fromDay] == Aggregate(t, gs[m].values)
    ensures |BucketValues(ps, fromDay, e.x[i])| > 0 && e.y[i] == Aggregate(t, BucketValues(ps, fromDay, e.x[i]))
  {
    var m :| 0 <= m < |gs| && gs[m].key == e.x[i];
    assert gs[m].key - fromDay == i;
  }

  /** With gap filling: a day without kept samples carries the previous
      day's value (zero on the first day). */
  lemma {:induction false} AggregatedByDayFilledCarry(ps: seq<Point>, fromDay: int, t: AggregateType, lastXDays: int)
    requires exists p :: p in ps && p.day >= fromDay as real
    ensures var a := AggregatedByDay(ps, fromDay, t, true, lastXDays);
      |a.x| == |a.y|
      && forall i :: 0 <= i < |a.x| && !KeptOn(ps, fromDay, a.x[i]) ==>
           a.y[i] == if i == 0 then 0.0 else a.y[i - 1]
  {
    var gs := Buckets(FromDayPoints(ps, fromDay));
    AggregatedIsEmit(ps, fromDay, t, true, lastXDays);
    BucketsAscend(ps, fromDay);
    BucketsCoverKept(ps, fromDay);
    EmitFilledCarry(fromDay, 0.0, gs, t);
    var e := Emit(true, fromDay, 0.0, gs, t);
    forall i | 0 <= i < |e.x| && !KeptOn(ps, fromDay, e.x[i])
      ensures e.y[i] == if i == 0 then 0.0 else e.y[i - 1]
    {
      assert !IsKey(gs, e.x[i]);
    }
  }

  // ----- smoothing (`get_from_day_smoothed`) -----

  /** `round((num_of_smoothing_days - 1) / 2)`: how far the window reaches
      on either side. */
  function HalfWindow(n: int): int {
    Round((n - 1) as real / 2.0)
  }

  /** The reach is never negative, and it is zero exactly for windows of
      at most two days. */
  lemma {:induction false} HalfWindowZero(n: int)
    requires n >= 0
    ensures HalfWindow(n) >= 0
    ensures HalfWindow(n) == 0 <==> n <= 2
  {
    if n >= 3 {
      RoundMonotone(1.0, (n - 1) as real / 2.0);
      RoundOfInteger(1);
    }
  }

  /** `idx_start`: the window's first index. */
  function WindowStart(i: int, h: int): int {
    if i - h > 0 then i - h else 0
  }

  /** `idx_end`: the window's end, exclusive when the values are summed. */
  function WindowEnd(len: int, i: int, h: int): int {
    if len - 1 < i + h then len - 1 else i + h
  }

  /** The window around a valid index lies within the series. */
  lemma {:induction false} WindowBounds(len: int, i: int, h: int)
    requires 0 <= i < len && h >= 0
    ensures 0 <= WindowStart(i, h) <= i <= WindowEnd(len, i, h) < len
  {
  }

  /** A window is empty (and the mean divides by zero) exactly when the
      reach is zero or the series has a single entry. */
  lemma {:induction false} WindowEmptyIff(len: int, i: int, h: int)
    requires 0 <= i < len && h >= 0
    ensures WindowStart(i, h) == WindowEnd(len, i, h) <==> h == 0 || len == 1
  {
    if h > 0 && len > 1 {
      if i < len - 1 { assert WindowEnd(len, i, h) > i; } else { assert WindowStart(i, h) < i; }
    }
  }

  /** Errors the smoothing can raise. */
  datatype SmoothError = ZeroDivision

  /** The smoothed value at index `i`: the mean of `y[idx_start:idx_end]`. */
  function SmoothedAt(y: seq<real>, i: int, h: int): real
    requires 0 <= i < |y| && h >= 0 && WindowStart(i, h) < WindowEnd(|y|, i, h)
  {
    var s, e := WindowStart(i, h), WindowEnd(|y|, i, h);
    Folds.Sum(y[s..e]) / (e - s) as real
  }

  /** The smoothing loop after its first `k` rounds: the days at or after
      `fromDay` with their smoothed values, or the division by zero of the
      first empty window. */
  function SmoothPrefix(x: seq<int>, y: seq<real>, h: int, fromDay: int, k: nat): Result<Axes, SmoothError>
    requires |x| == |y| && k <= |x| && h >= 0
  {
    if k == 0 then Ok(Axes([], []))
    else
      var prev :- SmoothPrefix(x, y, h, fromDay, k - 1);
      var i := k - 1;
      if WindowStart(i, h) == WindowEnd(|y|, i, h) then Err(ZeroDivision)
      else if x[i] >= fromDay then Ok(Axes(prev.x + [x[i]], prev.y + [SmoothedAt(y, i, h)]))
      else Ok(prev)
  }

  /** `get_from_day_smoothed(from_day, num_of_smoothing_days, aggregate_type)`:
      the day-bucketed series (without gap filling) from
      `max(from_day - num_of_smoothing_days, 0)`, smoothed, from `from_day` on. */
  function Smoothed(ps: seq<Point>, fromDay: int, n: int, t: AggregateType, lastXDays: int): Result<Axes, SmoothError>
    requires n >= 0
  {
    var a := SmoothInput(ps, fromDay, n, t, lastXDays);
    HalfWindowZero(n);
    SmoothPrefix(a.x, a.y, HalfWindow(n), fromDay, |a.x|)
  }

  /** The series the smoothing works on: bucketed without gap filling,
      from `max(from_day - num_of_smoothing_days, 0)`. */
  function SmoothInput(ps: seq<Point>, fromDay: int, n: int, t: AggregateType, lastXDays: int): (a: Axes)
    ensures |a.x| == |a.y|
  {
    EmitLengthsOf(ps, if fromDay - n > 0 then fromDay - n else 0, t, false, lastXDays);
    AggregatedByDay(ps, if fromDay - n > 0 then fromDay - n else 0, t, false, lastXDays)
  }

  /** Both axes of a bucketed series have the same length. */
  lemma {:induction false} EmitLengthsOf(ps: seq<Point>, fromDay: int, t: AggregateType, fill: bool, lastXDays: int)
    ensures |AggregatedByDay(ps, fromDay, t, fill, lastXDays).x| == |AggregatedByDay(ps, fromDay, t, fill, lastXDays).y|
  {
    if |FromDayPoints(ps, fromDay)| > 0 {
      EmitLengths(fill, fromDay, 0.0, Buckets(FromDayPoints(ps, fromDay)), t);
    }
  }

  /** The loop fails exactly when one of the windows it has visited is empty. */
  lemma {:induction false} SmoothPrefixFails(x: seq<int>, y: seq<real>, h: int, fromDay: int, k: nat)
    requires |x| == |y| && k <= |x| && h >= 0
    ensures SmoothPrefix(x, y, h, fromDay, k).Err? <==>
      exists i :: 0 <= i < k && WindowStart(i, h) == WindowEnd(|y|, i, h)
  {
    if k > 0 {
      SmoothPrefixFails(x, y, h, fromDay, k - 1);
    }
  }

  /** `ys` holds, from index `lo` of `y` on, the mean of each index's window. */
  predicate SmoothedFrom(y: seq<real>, h: int, lo: int, ys: seq<real>)
    requires h >= 0
  {
    0 <= lo && lo + |ys| <= |y| &&
    forall i :: lo <= i < lo + |ys| ==>
      WindowStart(i, h) < WindowEnd(|y|, i, h) && ys[i - lo] == SmoothedAt(y, i, h)
  }

  /** Appending the mean of the next index keeps `SmoothedFrom`. */
  lemma {:induction false} SmoothedFromSnoc(y: seq<real>, h: int, lo: int, ys: seq<real>, i: int)
    requires h >= 0 && SmoothedFrom(y, h, lo, ys) && i == lo + |ys|
    requires i < |y| && WindowStart(i, h) < WindowEnd(|y|, i, h)
    ensures SmoothedFrom(y, h, lo, ys + [SmoothedAt(y, i, h)])
  {
    var ys' := ys + [SmoothedAt(y, i, h)];
    forall k | lo <= k < lo + |ys'|
      ensures WindowStart(k, h) < WindowEnd(|y|, k, h) && ys'[k - lo] == SmoothedAt(y, k, h)
    {
      if k < i { assert ys'[k - lo] == ys[k - lo]; }
    }
  }

  /** When the days before `k0` are earlier than `fromDay` and the others
      are not, a successful loop yields the days from `k0` on, each with its
      window's mean. */
  lemma {:induction false} SmoothPrefixOutput(x: seq<int>, y: seq<real>, h: int, fromDay: int, k: nat, k0: nat)
    requires |x| == |y| && k <= |x| && h >= 0 && k0 <= |x|
    requires forall i :: 0 <= i < k0 ==> x[i] < fromDay
    requires forall i :: k0 <= i < |x| ==> x[i] >= fromDay
    requires forall i :: 0 <= i < |x| ==> WindowStart(i, h) < WindowEnd(|y|, i, h)
    ensures SmoothPrefix(x, y, h, fromDay, k).Ok?
    ensures var lo := if k < k0 then k else k0;
      SmoothPrefix(x, y, h, fromDay, k).value.x == x[lo..k]
      && |SmoothPrefix(x, y, h, fromDay, k).value.y| == k - lo
      && SmoothedFrom(y, h, lo, SmoothPrefix(x, y, h, fromDay, k).value.y)
  {
    if k > 0 {
      SmoothPrefixOutput(x, y, h, fromDay, k - 1, k0);
      var prev := SmoothPrefix(x, y, h, fromDay, k - 1).value;
      var i := k - 1;
      assert WindowStart(i, h) < WindowEnd(|y|, i, h);
      if x[i] >= fromDay {
        assert SmoothPrefix(x, y, h, fromDay, k).value == Axes(prev.x + [x[i]], prev.y + [SmoothedAt(y, i, h)]);
        SmoothedFromSnoc(y, h, k0, prev.y, i);
        assert x[k0..k] == x[k0..i] + [x[i]];
      } else {
        assert SmoothPrefix(x, y, h, fromDay, k).value == prev;
      }
    }
  }

  /** The smoothing raises ZeroDivisionError exactly when there is something
      to smooth and the window reaches nowhere (at most two days) or the
      series holds a single day. */
  lemma {:induction false} SmoothedFails(ps: seq<Point>, fromDay: int, n: int, t: AggregateType, lastXDays: int)
    requires n >= 0
    ensures var a := SmoothInput(ps, fromDay, n, t, lastXDays);
      Smoothed(ps, fromDay, n, t, lastXDays).Err? <==> |a.x| > 0 && (n <= 2 || |a.x| == 1)
  {
    var a := SmoothInput(ps, fromDay, n, t, lastXDays);
    HalfWindowZero(n);
    var h := HalfWindow(n);
    SmoothPrefixFails(a.x, a.y, h, fromDay, |a.x|);
    if |a.x| > 0 {
      WindowEmptyIff(|a.y|, 0, h);
    }
    forall i | 0 <= i < |a.x| ensures WindowStart(i, h) == WindowEnd(|a.y|, i, h) <==> h == 0 || |a.y| == 1 {
      WindowEmptyIff(|a.y|, i, h);
    }
  }

  /** A smoothed value lies within the bounds of the values of its window;
      in particular a constant series stays constant. */
  lemma {:induction false} SmoothedAtWithin(y: seq<real>, i: int, h: int, lo: real, hi: real)
    requires 0 <= i < |y| && h >= 0 && WindowStart(i, h) < WindowEnd(|y|, i, h)
    requires forall k :: 0 <= k < |y| ==> lo <= y[k] <= hi
    ensures lo <= SmoothedAt(y, i, h) <= hi
  {
    var w := y[WindowStart(i, h)..WindowEnd(|y|, i, h)];
    MeanBetween(w, lo, hi);
  }

  /** A successful smoothing yields the bucketed days from `from_day` on
      (those of `a`, the series smoothed, from index `k0`), each with the
      mean of its window. */
  lemma {:induction false} SmoothedOutput(ps: seq<Point>, fromDay: int, n: int, t: AggregateType, lastXDays: int, a: Axes, k0: nat)
    requires n >= 0 && a == SmoothInput(ps, fromDay, n, t, lastXDays)
    requires Smoothed(ps, fromDay, n, t, lastXDays).Ok?
    requires k0 <= |a.x| && (forall i :: 0 <= i < k0 ==> a.x[i] < fromDay) && (forall i :: k0 <= i < |a.x| ==> a.x[i] >= fromDay)
    ensures HalfWindow(n) >= 0
    ensures Smoothed(ps, fromDay, n, t, lastXDays).value.x == a.x[k0..]
    ensures |Smoothed(ps, fromDay, n, t, lastXDays).value.y| == |a.x| - k0
  {
    HalfWindowZero(n);
    SmoothPrefixSucceeds(a.x, a.y, HalfWindow(n), fromDay, k0);
  }

  /** The smoothed value of a kept day is the mean of its window in `a`. */
  lemma {:induction false} SmoothedValues(ps: seq<Point>, fromDay: int, n: int, t: AggregateType, lastXDays: int, a: Axes, k0: nat)
    requires n >= 0 && a == SmoothInput(ps, fromDay, n, t, lastXDays)
    requires Smoothed(ps, fromDay, n, t, lastXDays).Ok?
    requires k0 <= |a.x| && (forall i :: 0 <= i < k0 ==> a.x[i] < fromDay) && (forall i :: k0 <= i < |a.x| ==> a.x[i] >= fromDay)
    ensures HalfWindow(n) >= 0
    ensures |Smoothed(ps, fromDay, n, t, lastXDays).value.y| == |a.x| - k0
    ensures forall i :: k0 <= i < |a.x| ==>
      WindowStart(i, HalfWindow(n)) < WindowEnd(|a.y|, i, HalfWindow(n))
      && Smoothed(ps, fromDay, n, t, lastXDays).value.y[i - k0] == SmoothedAt(a.y, i, HalfWindow(n))
  {
    HalfWindowZero(n);
    var h := HalfWindow(n);
    var r := SmoothPrefix(a.x, a.y, h, fromDay, |a.x|);
    assert Smoothed(ps, fromDay, n, t, lastXDays) == r;
    SmoothPrefixSucceeds(a.x, a.y, h, fromDay, k0);
    assert SmoothedFrom(a.y, h, k0, r.value.y);
  }

  /** The whole loop, when it succeeds, keeps the days from index `k0` on. */
  lemma {:induction false} SmoothPrefixSucceeds(x: seq<int>, y: seq<real>, h: int, fromDay: int, k0: nat)
    requires |x| == |y| && h >= 0 && SmoothPrefix(x, y, h, fromDay, |x|).Ok?
    requires k0 <= |x| && (forall i :: 0 <= i < k0 ==> x[i] < fromDay) && (forall i :: k0 <= i < |x| ==> x[i] >= fromDay)
    ensures var r := SmoothPrefix(x, y, h, fromDay, |x|).value;
      r.x == x[k0..] && |r.y| == |r.x| && SmoothedFrom(y, h, k0, r.y)
  {
    SmoothPrefixFails(x, y, h, fromDay, |x|);
    forall i | 0 <= i < |x| ensures WindowStart(i, h) < WindowEnd(|y|, i, h) {
      WindowBounds(|y|, i, h);
    }
    SmoothPrefixOutput(x, y, h, fromDay, |x|, k0);
  }
}
