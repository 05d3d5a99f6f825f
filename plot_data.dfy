/** The `PlotData` class of plot_data.py: a named series of `(day, value)`
    samples with its display colour. Its loops are proved to compute the
    specification functions of the modules Resample, Combine and Cumulate,
    where the properties of the results are proved. */
module Series {
  import opened Outcomes
  import opened Values
  import opened StringHelper
  import opened Points
  import opened Folds
  import opened Grouping
  import opened Resample
  import opened Combine
  import opened Cumulate

  /** What a series shows: one of the scraped categories, or the labels the
      combining operations give their results ("AGGREGATE", "CUMULATED"). */
  datatype SeriesCategory = Listed(category: Category) | AggregateLabel | CumulatedLabel

  /** The colour of a series that names no region. */
  const DefaultColorName: string := "y"

  /** The colour of each region of `Values.Regions`, in the same order. */
  const RegionColors: seq<string> := ["#000000", "#ff0000", "#00ff00", "#0000ff", "#00ffff"]

  /** `multiply_all_y`'s default factor. */
  const DefaultMultiplier: int := 1000

  // ----- ASCII `str.capitalize` -----

  function Upper(c: char): char {
    if 'a' <= c <= 'z' then (c as int - 32) as char else c
  }

  function Lower(c: char): char {
    if 'A' <= c <= 'Z' then (c as int + 32) as char else c
  }

  /** `str.capitalize` on ASCII text: the first character in upper case, all
      others in lower case. */
  function Capitalize(s: string): (r: string)
    ensures |r| == |s|
  {
    if s == [] then [] else [Upper(s[0])] + seq(|s| - 1, i requires 0 <= i < |s| - 1 => Lower(s[i + 1]))
  }

  /** Capitalising keeps the length, upper-cases the first letter, lower-cases
      the rest, and a capitalised name stays as it is. */
  lemma {:induction false} CapitalizeIdempotent(s: string)
    ensures |Capitalize(s)| == |s|
    ensures |s| > 0 ==> Capitalize(s)[0] == Upper(s[0]) && !('a' <= Capitalize(s)[0] <= 'z')
    ensures forall i :: 1 <= i < |s| ==> Capitalize(s)[i] == Lower(s[i]) && !('A' <= Capitalize(s)[i] <= 'Z')
    ensures Capitalize(Capitalize(s)) == Capitalize(s)
  {
    var c := Capitalize(s);
    if s != [] {
      var cc := Capitalize(c);
      forall i | 0 <= i < |s| ensures cc[i] == c[i] {
        if i > 0 { assert c[i] == Lower(s[i]); }
      }
    }
  }

  // ----- `get_default_color` -----

  /** `get_default_color(name)`: the colour of the first region, in the
      order of the tests, whose name occurs in `name`; "y" for no name or no
      region. */
  function DefaultColor(name: Option<string>): (c: string) {
    if name.None? then DefaultColorName
    else if Contains(name.value, "Calopeia") then "#000000"
    else if Contains(name.value, "Sorange") then "#ff0000"
    else if Contains(name.value, "Tyran") then "#00ff00"
    else if Contains(name.value, "Entworpe") then "#0000ff"
    else if Contains(name.value, "Fardo") then "#00ffff"
    else DefaultColorName
  }

  /** The colour is the one of region `i` exactly when region `i` is the
      first region, in the order of `Values.Regions`, that the name
      mentions; it is the default exactly when the name mentions none. */
  lemma {:induction false} DefaultColorFirstRegion(name: string)
    ensures DefaultColor(Some(name)) == DefaultColorName <==>
      forall i :: 0 <= i < |Regions| ==> !Contains(name, Regions[i])
    ensures forall i :: 0 <= i < |Regions| ==>
      (DefaultColor(Some(name)) == RegionColors[i] <==>
         Contains(name, Regions[i]) && forall k :: 0 <= k < i ==> !Contains(name, Regions[k]))
  {
    assert |Regions| == 5 == |RegionColors|;
    assert Regions[0] == "Calopeia" && Regions[1] == "Sorange" && Regions[2] == "Tyran";
    assert Regions[3] == "Entworpe" && Regions[4] == "Fardo";
  }

  /** A name never contains a longer one. */
  lemma {:induction false} LongerNotContained(s: string, sub: string)
    requires |sub| > |s|
    ensures !Contains(s, sub)
  {
  }

  /** `sub` occurs nowhere in `s` when its first character is not at any
      position where it could start. */
  lemma {:induction false} FirstCharNotContained(s: string, sub: string)
    requires 0 < |sub| <= |s|
    requires forall i :: 0 <= i <= |s| - |sub| ==> s[i] != sub[0]
    ensures !Contains(s, sub)
  {
    forall i | 0 <= i <= |s| ensures !OccursAt(s, sub, i) {
      if i + |sub| <= |s| {
        assert s[i..i + |sub|][0] == s[i];
      }
    }
  }

  /** A series named after a region gets that region's colour. */
  lemma {:induction false} RegionOwnColor(i: nat)
    requires i < |Regions|
    ensures DefaultColor(Some(Regions[i])) == RegionColors[i]
  {
    var n := Regions[i];
    assert OccursAt(n, n, 0);
    if i == 1 {
      LongerNotContained("Sorange", "Calopeia");
    } else if i == 2 {
      LongerNotContained("Tyran", "Calopeia");
      LongerNotContained("Tyran", "Sorange");
    } else if i == 3 {
      FirstCharNotContained("Entworpe", "Calopeia");
      FirstCharNotContained("Entworpe", "Sorange");
      FirstCharNotContained("Entworpe", "Tyran");
    } else if i == 4 {
      LongerNotContained("Fardo", "Calopeia");
      LongerNotContained("Fardo", "Sorange");
      FirstCharNotContained("Fardo", "Tyran");
      LongerNotContained("Fardo", "Entworpe");
    }
  }

  // ----- helpers of the bucketing loop -----

  /** The day the gap filling continues from: `from_day` before the first
      entry, else the day after the last one. */
  function NextDay(x: seq<int>, fromDay: int): int {
    if |x| < 1 then fromDay else x[|x| - 1] + 1
  }

  /** The value the gap filling carries: 0 before the first entry, else the
      last value. */
  function LastValue(y: seq<real>): real {
    if |y| <= 0 then 0.0 else y[|y| - 1]
  }

  /** What the bucketing loop still appends once the samples before `i`
      are consumed, continuing from day `next` with the carried value
      `last`. */
  ghost function Remaining(f: seq<Point>, i: nat, fill: bool, next: int, last: real, t: AggregateType): Axes
    requires i <= |f|
  {
    GroupsNonEmpty(RoundedDays(f), Points.Values(f), i);
    Emit(fill, next, last, Groups(RoundedDays(f), Points.Values(f), i), t)
  }

  /** Before the first round, what remains is the whole bucketed series. */
  lemma {:induction false} RemainingStart(ps: seq<Point>, fromDay: int, t: AggregateType, fill: bool, lastXDays: int)
    requires |FromDayPoints(ps, fromDay)| > 0
    ensures AggregatedByDay(ps, fromDay, t, fill, lastXDays)
         == Remaining(FromDayPoints(ps, fromDay), 0, fill, NextDay([], fromDay), LastValue([]), t)
  {
  }

  /** After the last round nothing remains. */
  lemma {:induction false} RemainingEnd(f: seq<Point>, fill: bool, next: int, last: real, t: AggregateType)
    ensures Remaining(f, |f|, fill, next, last, t) == Axes([], [])
  {
  }

  /** The gap-filling loop: every day from `next` up to, not including,
      `day`, each with the carried value `last`. */
  method FillGap(x: seq<int>, y: seq<real>, next: int, last: real, day: int) returns (x': seq<int>, y': seq<real>)
    ensures x' == x + Range(next, day)
    ensures y' == y + Repeat(last, |Range(next, day)|)
  {
    x', y' := x, y;
    var lastDay := next;
    while day > lastDay
      invariant next <= lastDay && (lastDay <= day || lastDay == next)
      invariant x' == x + Range(next, lastDay)
      invariant y' == y + Repeat(last, lastDay - next)
      decreases day - lastDay
    {
      assert Range(next, lastDay + 1) == Range(next, lastDay) + [lastDay];
      assert Repeat(last, lastDay + 1 - next) == Repeat(last, lastDay - next) + [last];
      x' := x' + [lastDay];
      y' := y' + [last];
      lastDay := lastDay + 1;
    }
  }

  /** The rounded day of every sample is its key in the buckets. */
  lemma {:induction false} RoundedDaysAt(f: seq<Point>)
    ensures forall k :: 0 <= k < |f| ==> RoundedDays(f)[k] == Round(f[k].day)
  {
  }

  /** The MAX merge loop: from the sample `start`, swallow the following
      samples with the same rounded day, keeping the largest value. */
  method MaxRun(f: seq<Point>, start: nat) returns (v: real, idx: nat)
    requires start < |f|
    ensures idx == RunEnd(RoundedDays(f), start)
    ensures v == MaxFrom(f[start].value, Points.Values(f)[start + 1..idx])
  {
    ghost var ks, vs := RoundedDays(f), Points.Values(f);
    ghost var j := RunEnd(ks, start);
    RoundedDaysAt(f);
    var day := Round(f[start].day);
    v := f[start].value;
    idx := start + 1;
    while idx < |f| && day == Round(f[idx].day)
      invariant start < idx <= j
      invariant v == MaxFrom(f[start].value, vs[start + 1..idx])
    {
      assert vs[start + 1..idx + 1][..idx - start - 1] == vs[start + 1..idx];
      if f[idx].value > v {
        v := f[idx].value;
      }
      idx := idx + 1;
    }
  }

  /** The MIN merge loop, keeping the smallest value. */
  method MinRun(f: seq<Point>, start: nat) returns (v: real, idx: nat)
    requires start < |f|
    ensures idx == RunEnd(RoundedDays(f), start)
    ensures v == MinFrom(f[start].value, Points.Values(f)[start + 1..idx])
  {
    ghost var ks, vs := RoundedDays(f), Points.Values(f);
    ghost var j := RunEnd(ks, start);
    RoundedDaysAt(f);
    var day := Round(f[start].day);
    v := f[start].value;
    idx := start + 1;
    while idx < |f| && day == Round(f[idx].day)
      invariant start < idx <= j
      invariant v == MinFrom(f[start].value, vs[start + 1..idx])
    {
      assert vs[start + 1..idx + 1][..idx - start - 1] == vs[start + 1..idx];
      if f[idx].value < v {
        v := f[idx].value;
      }
      idx := idx + 1;
    }
  }

  /** The LAST merge loop, keeping the latest value. */
  method LastRun(f: seq<Point>, start: nat) returns (v: real, idx: nat)
    requires start < |f|
    ensures idx == RunEnd(RoundedDays(f), start)
    ensures start < idx && v == f[idx - 1].value
  {
    ghost var ks := RoundedDays(f);
    ghost var j := RunEnd(ks, start);
    RoundedDaysAt(f);
    var day := Round(f[start].day);
    v := f[start].value;
    idx := start + 1;
    while idx < |f| && day == Round(f[idx].day)
      invariant start < idx <= j
      invariant v == f[idx - 1].value
    {
      v := f[idx].value;
      idx := idx + 1;
    }
  }

  /** The default merge loop: the sum of the values and their count. */
  method SumRun(f: seq<Point>, start: nat) returns (v: real, counter: int, idx: nat)
    requires start < |f|
    ensures idx == RunEnd(RoundedDays(f), start)
    ensures v == Folds.Sum(Points.Values(f)[start..idx]) && counter == idx - start
  {
    ghost var ks, vs := RoundedDays(f), Points.Values(f);
    ghost var j := RunEnd(ks, start);
    RoundedDaysAt(f);
    var day := Round(f[start].day);
    v := f[start].value;
    idx := start + 1;
    counter := 1;
    assert vs[start..start + 1][..0] == [];
    while idx < |f| && day == Round(f[idx].day)
      invariant start < idx <= j
      invariant counter == idx - start
      invariant v == Folds.Sum(vs[start..idx])
    {
      RunContinues(ks, start, idx);
      Folds.SumSliceStep(vs, start, idx + 1);
      assert vs[idx] == f[idx].value;
      v := v + f[idx].value;
      counter := counter + 1;
      idx := idx + 1;
    }
  }

  /** The merge loops: starting at the sample `start`, swallow every
      following sample with the same rounded day and collapse their values
      by `t`. */
  method MergeRun(f: seq<Point>, start: nat, t: AggregateType) returns (v: real, idx: nat)
    requires start < |f|
    ensures idx == RunEnd(RoundedDays(f), start)
    ensures v == Aggregate(t, Points.Values(f)[start..idx])
  {
    ghost var vs := Points.Values(f);
    if t == Max {
      v, idx := MaxRun(f, start);
      assert vs[start..idx][1..] == vs[start + 1..idx];
    } else if t == Min {
      v, idx := MinRun(f, start);
      assert vs[start..idx][1..] == vs[start + 1..idx];
    } else if t == Last {
      v, idx := LastRun(f, start);
      assert vs[start..idx][idx - start - 1] == vs[idx - 1];
    } else {
      var counter;
      v, counter, idx := SumRun(f, start);
      v := v / counter as real;
    }
  }

  /** One round of the outer bucketing loop over the kept samples `f`:
      fill the gap before the bucket starting at `idx` when asked to, merge
      the bucket and append its day and value. What is appended and what
      remains to be appended together stay the same. */
  method AppendBucket(f: seq<Point>, fromDay: int, t: AggregateType, fill: bool,
                      x: seq<int>, y: seq<real>, idx: nat)
    returns (x': seq<int>, y': seq<real>, idx': nat)
    requires idx < |f| && |x| == |y|
    ensures idx < idx' <= |f| && |x'| == |y'|
    ensures var whole := Remaining(f, idx, fill, NextDay(x, fromDay), LastValue(y), t);
      var rest := Remaining(f, idx', fill, NextDay(x', fromDay), LastValue(y'), t);
      x + whole.x == x' + rest.x && y + whole.y == y' + rest.y
  {
    var day := Round(f[idx].day);
    x', y' := x, y;
    if fill {
      var lastDay := if |x| < 1 then fromDay else x[|x| - 1] + 1;
      var lastValue := if |x| <= 0 then 0.0 else y[|y| - 1];
      x', y' := FillGap(x, y, lastDay, lastValue, day);
    }
    ghost var pad := if fill then Range(NextDay(x, fromDay), day) else [];
    assert x' == x + pad && y' == y + Repeat(LastValue(y), |pad|);
    var v;
    v, idx' := MergeRun(f, idx, t);
    x' := x' + [day];
    y' := y' + [v];
    AppendedBucket(f, fromDay, t, fill, x, y, idx, idx', pad, v, x', y');
  }

  /** The bookkeeping of one round of the bucketing loop: whatever the
      round appended is exactly the head of what remained. */
  lemma {:induction false} AppendedBucket(f: seq<Point>, fromDay: int, t: AggregateType, fill: bool,
                       x: seq<int>, y: seq<real>, idx: nat, idx': nat, pad: seq<int>, v: real,
                       x': seq<int>, y': seq<real>)
    requires idx < |f| && idx' == RunEnd(RoundedDays(f), idx)
    requires v == Aggregate(t, Points.Values(f)[idx..idx'])
    requires pad == if fill then Range(NextDay(x, fromDay), RoundedDays(f)[idx]) else []
    requires x' == x + pad + [RoundedDays(f)[idx]]
    requires y' == y + Repeat(LastValue(y), |pad|) + [v]
    ensures var whole := Remaining(f, idx, fill, NextDay(x, fromDay), LastValue(y), t);
      var rest := Remaining(f, idx', fill, NextDay(x', fromDay), LastValue(y'), t);
      x + whole.x == x' + rest.x && y + whole.y == y' + rest.y
  {
    var ks, vs := RoundedDays(f), Points.Values(f);
    GroupsNonEmpty(ks, vs, idx);
    GroupsNonEmpty(ks, vs, idx');
    var gs, gs' := Groups(ks, vs, idx), Groups(ks, vs, idx');
    assert gs == [Group(ks[idx], vs[idx..idx'])] + gs';
    assert gs[0] == Group(ks[idx], vs[idx..idx']) && gs[1..] == gs';
    EmitAppend(fill, NextDay(x, fromDay), LastValue(y), gs, t, x, y, pad, x', y');
    assert NextDay(x', fromDay) == ks[idx] + 1;
    assert LastValue(y') == v;
  }

  /** `AppendedBucket` on the buckets themselves. */
  lemma {:induction false} EmitAppend(fill: bool, next: int, last: real, gs: seq<Group<int>>, t: AggregateType,
                   x: seq<int>, y: seq<real>, pad: seq<int>, x': seq<int>, y': seq<real>)
    requires forall m :: 0 <= m < |gs| ==> |gs[m].values| > 0
    requires gs != []
    requires pad == if fill then Range(next, gs[0].key) else []
    requires x' == x + pad + [gs[0].key]
    requires y' == y + Repeat(last, |pad|) + [Aggregate(t, gs[0].values)]
    ensures var whole := Emit(fill, next, last, gs, t);
      var rest := Emit(fill, gs[0].key + 1, Aggregate(t, gs[0].values), gs[1..], t);
      x + whole.x == x' + rest.x && y + whole.y == y' + rest.y
  {
    EmitStep(fill, next, last, gs, t);
    var whole := Emit(fill, next, last, gs, t);
    var rest := Emit(fill, gs[0].key + 1, Aggregate(t, gs[0].values), gs[1..], t);
    Regroup(x, pad, gs[0].key, rest.x, whole.x, x');
    Regroup(y, Repeat(last, |pad|), Aggregate(t, gs[0].values), rest.y, whole.y, y');
  }

  /** Moving one round's output from what remains to what is appended. */
  lemma {:induction false} Regroup<T>(a: seq<T>, pad: seq<T>, e: T, rest: seq<T>, whole: seq<T>, a': seq<T>)
    requires whole == pad + [e] + rest && a' == a + pad + [e]
    ensures a + whole == a' + rest
  {
  }

  /** The series each element of `data` holds. */
  function PointsOf(data: seq<PlotData>): (r: seq<seq<Point>>)
    reads data
    ensures |r| == |data| && forall k :: 0 <= k < |data| ==> r[k] == data[k].points
  {
    seq(|data|, k reads data requires 0 <= k < |data| => data[k].points)
  }

  /** One more list in the inner loops of `aggregate_lists_by_index`: its
      entry at `j`, if it has one, joins the present values at the end. */
  lemma {:induction false} PresentStep(lists: seq<seq<real>>, j: nat, l: nat)
    requires l < |lists|
    ensures Present(lists[..l + 1], j) == Present(lists[..l], j) + (if j < |lists[l]| then [lists[l][j]] else [])
  {
    assert lists[..l + 1][..l] == lists[..l];
  }

  /** The MAX inner loop: the running maximum from 0.0. */
  method MaxColumn(lists: seq<seq<real>>, j: nat) returns (v: real)
    ensures v == MaxFrom(0.0, Present(lists, j))
  {
    v := 0.0;
    var l := 0;
    while l < |lists|
      invariant 0 <= l <= |lists|
      invariant v == MaxFrom(0.0, Present(lists[..l], j))
    {
      PresentStep(lists, j, l);
      ghost var p := Present(lists[..l], j);
      if |lists[l]| <= j {
        assert Present(lists[..l + 1], j) == p + [] == p;
      }
      if |lists[l]| > j {
        assert (p + [lists[l][j]])[..|p|] == p;
        if lists[l][j] > v {
          v := lists[l][j];
        }
      }
      l := l + 1;
    }
    assert lists[..|lists|] == lists;
  }

  /** The MIN inner loop: the running minimum from `float("inf")`, which
      `None` stands for here. */
  method MinColumn(lists: seq<seq<real>>, j: nat) returns (best: Option<real>)
    ensures var p := Present(lists, j);
      best == if p == [] then None else Some(MinFrom(p[0], p[1..]))
  {
    best := None;
    var l := 0;
    while l < |lists|
      invariant 0 <= l <= |lists|
      invariant var p := Present(lists[..l], j);
        best == if p == [] then None else Some(MinFrom(p[0], p[1..]))
    {
      PresentStep(lists, j, l);
      ghost var p := Present(lists[..l], j);
      if |lists[l]| <= j {
        assert Present(lists[..l + 1], j) == p + [] == p;
      }
      if |lists[l]| > j {
        ghost var q := p + [lists[l][j]];
        if p != [] {
          assert q[1..] == p[1..] + [lists[l][j]];
          assert q[1..][..|p| - 1] == p[1..];
        }
        if best.None? || lists[l][j] < best.value {
          best := Some(lists[l][j]);
        }
      }
      l := l + 1;
    }
    assert lists[..|lists|] == lists;
  }

  /** The SUM inner loop, which the mean's loop also runs while it counts. */
  method SumColumn(lists: seq<seq<real>>, j: nat) returns (v: real, counter: nat)
    ensures v == Folds.Sum(Present(lists, j)) && counter == |Present(lists, j)|
  {
    v := 0.0;
    counter := 0;
    var l := 0;
    while l < |lists|
      invariant 0 <= l <= |lists|
      invariant counter == |Present(lists[..l], j)|
      invariant v == Folds.Sum(Present(lists[..l], j))
    {
      PresentStep(lists, j, l);
      ghost var p := Present(lists[..l], j);
      if |lists[l]| <= j {
        assert Present(lists[..l + 1], j) == p + [] == p;
      }
      if |lists[l]| > j {
        assert (p + [lists[l][j]])[..|p|] == p;
        counter := counter + 1;
        v := v + lists[l][j];
      }
      l := l + 1;
    }
    assert lists[..|lists|] == lists;
  }

  /** One combined value of `aggregate_lists_by_index`: the inner loop over
      the lists at index `j` for the type `t`. */
  method CombineColumn(lists: seq<seq<real>>, j: nat, t: AggregateType) returns (v: real)
    requires |lists| > 0 && j < |lists[0]|
    ensures v == CombineAt(lists, j, t)
  {
    PresentFirst(lists, j);
    if t == Max {
      v := MaxColumn(lists, j);
    } else if t == Min {
      var best := MinColumn(lists, j);
      v := best.value;
    } else if t == Sum {
      var counter;
      v, counter := SumColumn(lists, j);
    } else {
      var counter;
      v, counter := SumColumn(lists, j);
      v := if counter == 0 then 0.0 else v / counter as real;
    }
  }

  class PlotData {
    var name: string
    var category: SeriesCategory
    var points: seq<Point>
    var color: string

    /** `PlotData(name, category, points, capitalize)`: the colour comes from
        the name as given, before it is capitalised. */
    constructor (name: string, category: SeriesCategory, points: seq<Point>, capitalize: bool)
      ensures this.name == (if capitalize then Capitalize(name) else name)
      ensures this.category == category && this.points == points
      ensures color == DefaultColor(Some(name))
    {
      this.name := name;
      this.category := category;
      this.points := points;
      this.color := DefaultColor(Some(name));
      if capitalize {
        this.name := Capitalize(name);
      }
    }

    /** `get_x`: the day of every sample, in stored order. */
    method GetX() returns (r: seq<real>)
      ensures r == Days(points)
    {
      r := [];
      var i := 0;
      while i < |points|
        invariant 0 <= i <= |points|
        invariant r == Days(points)[..i]
      {
        r := r + [points[i].day];
        i := i + 1;
      }
    }

    /** `get_y`: the value of every sample, in stored order. */
    method GetY() returns (r: seq<real>)
      ensures r == Points.Values(points)
    {
      r := [];
      if |points| <= 0 {
        return;
      }
      var i := 0;
      while i < |points|
        invariant 0 <= i <= |points|
        invariant r == Points.Values(points)[..i]
      {
        r := r + [points[i].value];
        i := i + 1;
      }
    }

    /** `get_from_day_points`: sort stably by day, then scan back from the
        end to the last sample earlier than `fromDay` and keep what follows
        it. */
    method GetFromDayPoints(fromDay: int) returns (r: seq<Point>)
      ensures r == FromDayPoints(points, fromDay)
    {
      var sorted := SortByDay(points);
      var i := 0;
      var j := |sorted|;
      while j > 0
        invariant 0 <= j <= |sorted|
        invariant i == 0
        invariant forall m :: j <= m < |sorted| ==> sorted[m].day >= fromDay as real
      {
        j := j - 1;
        if sorted[j].day < fromDay as real {
          i := j + 1;
          break;
        }
      }
      AtOrAfterIsSuffix(sorted, fromDay as real, i);
      r := sorted[i..];
    }

    /** `get_from_day_x`: the days of the kept samples. */
    method GetFromDayX(fromDay: int) returns (r: seq<real>)
      ensures r == Days(FromDayPoints(points, fromDay))
    {
      var pts := GetFromDayPoints(fromDay);
      r := [];
      var i := 0;
      while i < |pts|
        invariant 0 <= i <= |pts|
        invariant r == Days(pts)[..i]
      {
        r := r + [pts[i].day];
        i := i + 1;
      }
    }

    /** `get_from_day_y`: the values of the kept samples. */
    method GetFromDayY(fromDay: int) returns (r: seq<real>)
      ensures r == Points.Values(FromDayPoints(points, fromDay))
    {
      var pts := GetFromDayPoints(fromDay);
      r := [];
      var i := 0;
      while i < |pts|
        invariant 0 <= i <= |pts|
        invariant r == Points.Values(pts)[..i]
      {
        r := r + [pts[i].value];
        i := i + 1;
      }
    }

    /** `get_from_day_aggregated_by_day(from_day, aggregate_type,
        fill_up_missing_days_between)` with `config.lastXDays` passed as
        `lastXDays`: the outer loop takes one bucket per round (see
        `AppendBucket`) until the kept samples are used up. */
    method GetFromDayAggregatedByDay(fromDay: int, t: AggregateType, fill: bool, lastXDays: int)
      returns (x: seq<int>, y: seq<real>)
      ensures Axes(x, y) == AggregatedByDay(points, fromDay, t, fill, lastXDays)
    {
      var f := GetFromDayPoints(fromDay);
      x, y := [], [];
      var idx: nat := 0;
      if |f| <= 0 {
        x := Range(fromDay, fromDay + lastXDays + 1);
        y := Repeat(0.0, lastXDays + 1);
      } else {
        RemainingStart(points, fromDay, t, fill, lastXDays);
        while idx < |f|
          invariant idx <= |f| && |x| == |y|
          invariant var rest := Remaining(f, idx, fill, NextDay(x, fromDay), LastValue(y), t);
            AggregatedByDay(points, fromDay, t, fill, lastXDays) == Axes(x + rest.x, y + rest.y)
          decreases |f| - idx
        {
          x, y, idx := AppendBucket(f, fromDay, t, fill, x, y, idx);
        }
        RemainingEnd(f, fill, NextDay(x, fromDay), LastValue(y), t);
        assert x + [] == x && y + [] == y;
      }
    }

    /** `get_from_day_smoothed(from_day, num_of_smoothing_days,
        aggregate_type)`: the mean over a window around every bucket of the
        series from `max(from_day - n, 0)`, kept from `fromDay` on; the
        first empty window raises ZeroDivisionError. */
    method GetFromDaySmoothed(fromDay: int, n: int, t: AggregateType, lastXDays: int)
      returns (r: Result<Axes, SmoothError>)
      requires n >= 0
      ensures r == Smoothed(points, fromDay, n, t, lastXDays)
    {
      var px, py := GetFromDayAggregatedByDay(if fromDay - n > 0 then fromDay - n else 0, t, false, lastXDays);
      EmitLengthsOf(points, if fromDay - n > 0 then fromDay - n else 0, t, false, lastXDays);
      assert Axes(px, py) == SmoothInput(points, fromDay, n, t, lastXDays);
      HalfWindowZero(n);
      r := SmoothSeries(px, py, HalfWindow(n), fromDay);
    }

    /** The smoothing loop of `get_from_day_smoothed`: each day's value
        becomes the mean over the window reaching `h` entries to each side,
        kept from `fromDay` on; an empty window divides by zero. */
    static method SmoothSeries(px: seq<int>, py: seq<real>, h: int, fromDay: int)
      returns (r: Result<Axes, SmoothError>)
      requires |px| == |py| && h >= 0
      ensures r == SmoothPrefix(px, py, h, fromDay, |px|)
    {
      var x: seq<int> := [];
      var y: seq<real> := [];
      var i := 0;
      while i < |px|
        invariant 0 <= i <= |px|
        invariant SmoothPrefix(px, py, h, fromDay, i) == Ok(Axes(x, y))
      {
        var idxStart := WindowStart(i, h);
        var idxEnd := WindowEnd(|px|, i, h);
        WindowBounds(|px|, i, h);
        var pointSum := Folds.Sum(py[idxStart..idxEnd]);
        var pointLen := idxEnd - idxStart;
        if pointLen == 0 {
          assert WindowStart(i, h) == WindowEnd(|py|, i, h);
          SmoothPrefixFails(px, py, h, fromDay, |px|);
          ghost var failed := SmoothPrefix(px, py, h, fromDay, |px|);
          assert failed.Err? && failed.error.ZeroDivision?;
          return Err(ZeroDivision);
        }
        var val := pointSum / pointLen as real;
        if px[i] >= fromDay {
          x := x + [px[i]];
          y := y + [val];
        }
        i := i + 1;
      }
      r := Ok(Axes(x, y));
    }

    /** `multiply_all_y(mult)`: every value times `mult`, in place; days,
        count, order and the other fields stay. */
    method MultiplyAllY(mult: int)
      modifies this
      ensures name == old(name) && category == old(category) && color == old(color)
      ensures |points| == |old(points)|
      ensures forall i :: 0 <= i < |points| ==>
        points[i].day == old(points)[i].day && points[i].value == old(points)[i].value * mult as real
    {
      var i := 0;
      while i < |points|
        invariant 0 <= i <= |points| == |old(points)|
        invariant name == old(name) && category == old(category) && color == old(color)
        invariant forall k :: 0 <= k < |points| ==> points[k].day == old(points)[k].day
        invariant forall k :: 0 <= k < i ==> points[k].value == old(points)[k].value * mult as real
        invariant forall k :: i <= k < |points| ==> points[k].value == old(points)[k].value
      {
        points := points[i := Point(points[i].day, points[i].value * mult as real)];
        i := i + 1;
      }
    }

    /** `aggregate_lists_by_index(data_list, aggtype)`: for every index of
        the first list, the values of all lists at that index combined. */
    static method AggregateListsByIndex(lists: seq<seq<real>>, t: AggregateType) returns (r: seq<real>)
      requires |lists| > 0
      ensures r == AggregateLists(lists, t)
    {
      ghost var all := AggregateLists(lists, t);
      r := [];
      var j := 0;
      while j < |lists[0]|
        invariant 0 <= j <= |lists[0]| == |all|
        invariant r == all[..j]
      {
        var v := CombineColumn(lists, j, t);
        assert all[..j + 1] == all[..j] + [v];
        r := r + [v];
        j := j + 1;
      }
      assert all[..|all|] == all;
    }

    /** `aggregate_plot_data_by_day(new_name, data, from_day,
        aggtype_between_lists, x_is_matching, aggtype_in_list)`: a new
        series on the days of the first series, each day with the combined
        values of all series at its index. */
    static method AggregatePlotDataByDay(newName: string, data: seq<PlotData>, fromDay: int,
                                         tBetween: AggregateType, xMatching: bool, tIn: AggregateType,
                                         lastXDays: int)
      returns (pd: PlotData)
      ensures fresh(pd)
      ensures pd.name == newName && pd.category == AggregateLabel && pd.color == DefaultColor(Some(newName))
      ensures pd.points == AggregatedPoints(PointsOf(data), fromDay, tBetween, xMatching, tIn, lastXDays)
    {
      ghost var series := PointsOf(data);
      ghost var expected := AggregatedPoints(series, fromDay, tBetween, xMatching, tIn, lastXDays);
      var pts: seq<Point> := [];
      if |data| > 0 {
        var ax := data[0].SeriesDays(fromDay, xMatching, tIn, lastXDays);
        assert ax == SeriesX(series[0], fromDay, xMatching, tIn, lastXDays);
        var ay: seq<real> := [];
        var yValues := CollectY(data, fromDay, xMatching, tIn, lastXDays);
        assert |yValues| == |data|;
        if |yValues| > 0 {
          ay := AggregateListsByIndex(yValues, tBetween);
        }
        assert ay == AggregateLists(AllSeriesY(series, fromDay, xMatching, tIn, lastXDays), tBetween);
        if |ax| != |ay| {
          assert expected == [];
          pd := new PlotData(newName, AggregateLabel, [], false);
          assert PointsOf(data) == series;
          return;
        }
        pts := PairUp(ax, ay);
      }
      assert pts == expected;
      pd := new PlotData(newName, AggregateLabel, pts, false);
      assert PointsOf(data) == series;
    }

    /** The days `aggregate_plot_data_by_day` takes from the first series:
        its raw days from `fromDay` on, or its gap-filled bucketed days. */
    method SeriesDays(fromDay: int, xMatching: bool, tIn: AggregateType, lastXDays: int) returns (r: seq<real>)
      ensures r == SeriesX(points, fromDay, xMatching, tIn, lastXDays)
    {
      if xMatching {
        r := GetFromDayX(fromDay);
      } else {
        var xAgg, yAgg := GetFromDayAggregatedByDay(fromDay, tIn, true, lastXDays);
        r := AsReals(xAgg);
      }
    }

    /** The values `aggregate_plot_data_by_day` takes from each series. */
    method SeriesValues(fromDay: int, xMatching: bool, tIn: AggregateType, lastXDays: int) returns (r: seq<real>)
      ensures r == SeriesY(points, fromDay, xMatching, tIn, lastXDays)
    {
      if xMatching {
        r := GetFromDayY(fromDay);
      } else {
        var xAgg;
        xAgg, r := GetFromDayAggregatedByDay(fromDay, tIn, true, lastXDays);
      }
    }

    /** The loop of `aggregate_plot_data_by_day` that collects the values
        of every series. */
    static method CollectY(data: seq<PlotData>, fromDay: int, xMatching: bool, tIn: AggregateType, lastXDays: int)
      returns (yValues: seq<seq<real>>)
      ensures yValues == AllSeriesY(PointsOf(data), fromDay, xMatching, tIn, lastXDays)
    {
      ghost var series := PointsOf(data);
      yValues := [];
      var k := 0;
      while k < |data|
        invariant 0 <= k <= |data| && PointsOf(data) == series
        invariant CollectedY(series, yValues, k, fromDay, xMatching, tIn, lastXDays)
      {
        var yNext := data[k].SeriesValues(fromDay, xMatching, tIn, lastXDays);
        CollectedYStep(series, yValues, yNext, k, fromDay, xMatching, tIn, lastXDays);
        yValues := yValues + [yNext];
        k := k + 1;
      }
      AllSeriesYOf(series, yValues, fromDay, xMatching, tIn, lastXDays);
    }

    /** The loop of `aggregate_plot_data_by_day` that pairs days and
        values. */
    static method PairUp(ax: seq<real>, ay: seq<real>) returns (pts: seq<Point>)
      requires |ax| == |ay|
      ensures pts == Zip(ax, ay)
    {
      pts := [];
      var i := 0;
      while i < |ax|
        invariant 0 <= i <= |ax|
        invariant |pts| == i && forall m :: 0 <= m < i ==> pts[m] == Point(ax[m], ay[m])
      {
        pts := pts + [Point(ax[i], ay[i])];
        i := i + 1;
      }
    }

    /** The loop of `cumulate_plot_data`: each day with the running total
        `last_y` of the values up to it. */
    static method RunningTotals(xVals: seq<int>, yVals: seq<real>) returns (pts: seq<Point>)
      requires |xVals| == |yVals| > 0
      ensures pts == Zip(AsReals(xVals), RunningSums(yVals))
    {
      assert yVals[..1] == [yVals[0]] && yVals[..0] == [];
      pts := [Point(xVals[0] as real, yVals[0])];
      var lastY := yVals[0];
      var i := 1;
      while i < |xVals|
        invariant 1 <= i <= |xVals|
        invariant |pts| == i && lastY == Folds.Sum(yVals[..i])
        invariant forall k :: 0 <= k < i ==> pts[k] == Point(xVals[k] as real, Folds.Sum(yVals[..k + 1]))
      {
        assert yVals[..i + 1][..i] == yVals[..i];
        pts := pts + [Point(xVals[i] as real, lastY + yVals[i])];
        lastY := lastY + yVals[i];
        i := i + 1;
      }
    }

    /** `cumulate_plot_data(new_name, pd, from_day)`: the running totals of
        the gap-filled AVG series from day 0, from index `from_day` on. */
    static method CumulatePlotData(newName: string, pd: PlotData, fromDay: int, lastXDays: int) returns (r: PlotData)
      ensures fresh(r)
      ensures r.name == newName && r.category == CumulatedLabel && r.color == DefaultColor(Some(newName))
      ensures r.points == CumulatedPoints(pd.points, fromDay, lastXDays)
    {
      var pts: seq<Point> := [];
      var xVals, yVals := pd.GetFromDayAggregatedByDay(0, Avg, true, lastXDays);
      if |xVals| == |yVals| && |xVals| > 0 {
        pts := RunningTotals(xVals, yVals);
      }
      r := new PlotData(newName, CumulatedLabel, SliceFrom(pts, fromDay), false);
    }
  }
}
