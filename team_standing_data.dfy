/** The standings of the competing teams (team_standing_data.py): every
    team keeps a list of `(day, value)` standing points that is re-sorted and
    collapsed to one averaged point per day after every insert, and the
    standings object maps team names to these lists. Reading and writing
    the CSV files is not modelled; the rows a file would hold are passed in. */
module TeamStanding {
  import opened Outcomes
  import opened Points
  import opened Folds
  import opened Grouping

  /** The inner loops of `get_averaged_datapoints` from position `i` of the
      sorted samples on: one point per run of equal days, with the mean of
      the run's values. */
  function AveragedFrom(ks: seq<real>, vs: seq<real>, i: nat): seq<Point>
    requires |ks| == |vs| && i <= |ks|
    decreases |ks| - i
  {
    if i == |ks| then []
    else
      var j := RunEnd(ks, i);
      [Point(ks[i], Mean(vs[i..j]))] + AveragedFrom(ks, vs, j)
  }

  /** One merged day: the run from `start` becomes one point carrying the
      run's sum divided by its length. */
  lemma {:induction false} AveragedFromStep(ks: seq<real>, vs: seq<real>, start: nat, sum: real, counter: int)
    requires |ks| == |vs| && start < |ks|
    requires sum == Sum(vs[start..RunEnd(ks, start)]) && counter == RunEnd(ks, start) - start
    ensures counter > 0
    ensures AveragedFrom(ks, vs, start) == [Point(ks[start], sum / counter as real)] + AveragedFrom(ks, vs, RunEnd(ks, start))
  {
  }

  /** `get_averaged_datapoints`: the samples sorted by day, then one point
      per day holding the mean of that day's values. */
  function Averaged(ps: seq<Point>): seq<Point> {
    var s := SortByDay(ps);
    AveragedFrom(Days(s), Values(s), 0)
  }

  /** The averaged points are the buckets of the sorted samples, each
      collapsed to its mean. */
  lemma {:induction false} AveragedFromIsGroups(ks: seq<real>, vs: seq<real>, i: nat)
    requires |ks| == |vs| && i <= |ks|
    ensures GroupsNonEmptyAt(ks, vs, i)
    ensures |AveragedFrom(ks, vs, i)| == |Groups(ks, vs, i)|
    ensures forall m :: 0 <= m < |Groups(ks, vs, i)| ==>
      AveragedFrom(ks, vs, i)[m] == Point(Groups(ks, vs, i)[m].key, Mean(Groups(ks, vs, i)[m].values))
    decreases |ks| - i
  {
    GroupsNonEmpty(ks, vs, i);
    if i < |ks| {
      var j := RunEnd(ks, i);
      AveragedFromIsGroups(ks, vs, j);
      var gs, rest := Groups(ks, vs, i), Groups(ks, vs, j);
      var r := AveragedFrom(ks, vs, i);
      forall m | 0 <= m < |gs|
        ensures r[m] == Point(gs[m].key, Mean(gs[m].values))
      {
        if m > 0 {
          assert gs[m] == rest[m - 1];
          assert r[m] == AveragedFrom(ks, vs, j)[m - 1];
        }
      }
    }
  }

  predicate GroupsNonEmptyAt(ks: seq<real>, vs: seq<real>, i: nat)
    requires |ks| == |vs| && i <= |ks|
  {
    forall m :: 0 <= m < |Groups(ks, vs, i)| ==> |Groups(ks, vs, i)[m].values| > 0
  }

  /** The values of the samples of day `d` from position `i` on, in order. */
  lemma {:induction false} SelectIsWithDay(s: seq<Point>, d: real, i: nat)
    requires i <= |s|
    ensures Select(Days(s), Values(s), d, i) == Values(WithDay(s[i..], d))
    decreases |s| - i
  {
    if i < |s| {
      SelectIsWithDay(s, d, i + 1);
      assert s[i..][1..] == s[i + 1..];
    }
  }

  /** `get_averaged_datapoints` yields days strictly ascending, and no
      more points than samples. */
  lemma {:induction false} AveragedAscending(ps: seq<Point>)
    ensures StrictlyAscending(Averaged(ps))
    ensures |Averaged(ps)| <= |ps|
  {
    var s := SortByDay(ps);
    var ks, vs := Days(s), Values(s);
    AveragedFromIsGroups(ks, vs, 0);
    GroupsShape(ks, vs, 0);
    var le := (a: real, b: real) => a <= b;
    assert SortedBy(ks, le);
    GroupKeysAscend(ks, vs, le, 0);
  }

  /** Every day that occurs among the samples has its averaged point. */
  lemma {:induction false} AveragedCoversDays(ps: seq<Point>)
    ensures forall p :: p in ps ==> exists k :: 0 <= k < |Averaged(ps)| && Averaged(ps)[k].day == p.day
  {
    var s := SortByDay(ps);
    var ks, vs := Days(s), Values(s);
    var gs := Groups(ks, vs, 0);
    var r := Averaged(ps);
    AveragedFromIsGroups(ks, vs, 0);
    forall p | p in ps
      ensures exists k :: 0 <= k < |r| && r[k].day == p.day
    {
      assert p in multiset(s);
      var q :| 0 <= q < |s| && s[q] == p;
      GroupsCoverKeys(ks, vs, 0, q);
      var m :| 0 <= m < |gs| && gs[m].key == ks[q];
      assert r[m].day == p.day;
    }
  }

  /** Every averaged point is on a day that occurs among the samples. */
  lemma {:induction false} AveragedDaysOccur(ps: seq<Point>)
    ensures forall k :: 0 <= k < |Averaged(ps)| ==> exists p :: p in ps && p.day == Averaged(ps)[k].day
  {
    var s := SortByDay(ps);
    var ks, vs := Days(s), Values(s);
    var gs := Groups(ks, vs, 0);
    var r := Averaged(ps);
    AveragedFromIsGroups(ks, vs, 0);
    GroupsShape(ks, vs, 0);
    forall k | 0 <= k < |r|
      ensures exists p :: p in ps && p.day == r[k].day
    {
      var q :| 0 <= q < |ks| && ks[q] == gs[k].key;
      assert s[q] in multiset(ps);
    }
  }

  /** Each averaged point holds the mean of all values recorded for its
      day, taken in insertion order. */
  lemma {:induction false} AveragedMeans(ps: seq<Point>)
    ensures forall k :: 0 <= k < |Averaged(ps)| ==>
      |WithDay(ps, Averaged(ps)[k].day)| > 0
      && Averaged(ps)[k].value == Mean(Values(WithDay(ps, Averaged(ps)[k].day)))
  {
    var s := SortByDay(ps);
    var ks, vs := Days(s), Values(s);
    var gs := Groups(ks, vs, 0);
    var r := Averaged(ps);
    AveragedFromIsGroups(ks, vs, 0);
    var le := (a: real, b: real) => a <= b;
    assert SortedBy(ks, le);
    GroupIsSelect(ks, vs, le, 0);
    assert s[0..] == s;
    forall k | 0 <= k < |r|
      ensures |WithDay(ps, r[k].day)| > 0 && r[k].value == Mean(Values(WithDay(ps, r[k].day)))
    {
      SelectIsWithDay(s, gs[k].key, 0);
      SortIsStable(ps, gs[k].key);
    }
  }

  /** A list with at most one point per day, in ascending order, is its own
      average from any position on. */
  lemma {:induction false} AveragedFromAscending(ps: seq<Point>, i: nat)
    requires StrictlyAscending(ps) && i <= |ps|
    ensures AveragedFrom(Days(ps), Values(ps), i) == ps[i..]
    decreases |ps| - i
  {
    if i < |ps| {
      var ks, vs := Days(ps), Values(ps);
      var j := RunEnd(ks, i);
      assert j == i + 1;
      AveragedFromAscending(ps, i + 1);
      assert vs[i..j] == [ps[i].value];
      assert Sum(vs[i..j]) == Sum([]) + ps[i].value;
      assert Mean(vs[i..j]) == ps[i].value;
      assert ps[i..] == [ps[i]] + ps[i + 1..];
    }
  }

  /** Averaging an averaged list changes nothing: every day already holds
      a single point. */
  lemma {:induction false} AveragedIdempotent(ps: seq<Point>)
    ensures Averaged(Averaged(ps)) == Averaged(ps)
  {
    var r := Averaged(ps);
    AveragedAscending(ps);
    SortOfSorted(r);
    AveragedFromAscending(r, 0);
  }

  /** The points the backward loop of `get_datapoints_seperated` visits:
      from the last one back while the day is not before `fromDay`, in the
      order visited. */
  function TakenBackward(ps: seq<Point>, fromDay: int): seq<Point>
    decreases |ps|
  {
    if ps == [] || ps[|ps| - 1].day < fromDay as real then []
    else [ps[|ps| - 1]] + TakenBackward(ps[..|ps| - 1], fromDay)
  }

  function Reversed<T>(s: seq<T>): (r: seq<T>)
    ensures |r| == |s| && forall k :: 0 <= k < |s| ==> r[k] == s[|s| - 1 - k]
  {
    if s == [] then [] else [s[|s| - 1]] + Reversed(s[..|s| - 1])
  }

  /** Whatever the order of the list, every visited day is at or after
      `fromDay`, and the visited points are a suffix of the list, latest
      first. */
  lemma {:induction false} TakenBackwardSuffix(ps: seq<Point>, fromDay: int)
    ensures |TakenBackward(ps, fromDay)| <= |ps|
    ensures TakenBackward(ps, fromDay) == Reversed(ps[|ps| - |TakenBackward(ps, fromDay)|..])
    ensures forall k :: 0 <= k < |TakenBackward(ps, fromDay)| ==> TakenBackward(ps, fromDay)[k].day >= fromDay as real
    decreases |ps|
  {
    if ps != [] && ps[|ps| - 1].day >= fromDay as real {
      var init := ps[..|ps| - 1];
      TakenBackwardSuffix(init, fromDay);
      var n := |TakenBackward(init, fromDay)|;
      assert init[|init| - n..] == ps[|ps| - 1 - n..|ps| - 1];
      assert ps[|ps| - 1 - n..][..n] == ps[|ps| - 1 - n..|ps| - 1];
    }
  }

  /** Appending a point to the filtered list: it is kept exactly when it is
      not earlier than `from`. */
  lemma {:induction false} AtOrAfterSnoc(a: seq<Point>, p: Point, from: real)
    ensures AtOrAfter(a + [p], from) == AtOrAfter(a, from) + (if p.day >= from then [p] else [])
    decreases |a|
  {
    if a != [] {
      AtOrAfterSnoc(a[1..], p, from);
      assert (a + [p])[1..] == a[1..] + [p];
    }
  }

  /** On a sorted list the backward loop yields exactly the stored points at
      or after `fromDay`, latest first. */
  lemma {:induction false} TakenBackwardSorted(ps: seq<Point>, fromDay: int)
    requires SortedByDay(ps)
    ensures TakenBackward(ps, fromDay) == Reversed(AtOrAfter(ps, fromDay as real))
    decreases |ps|
  {
    if ps != [] {
      var init, last := ps[..|ps| - 1], ps[|ps| - 1];
      assert ps == init + [last];
      AtOrAfterSnoc(init, last, fromDay as real);
      if last.day < fromDay as real {
        AtOrAfterIsSuffix(init, fromDay as real, |init|);
      } else {
        TakenBackwardSorted(init, fromDay);
      }
    }
  }

  /** The exception a lookup of an unknown team raises. */
  datatype TeamError = KeyError(teamName: string)

  /** A team's record of a standing value over the days. */
  class TeamData {
    var name: string
    var datapoints: seq<Point>
    var csvPath: string
    var csvPathRaw: string
    var color: string

    /** The stored points: one per day, days ascending. Every operation
        that changes them re-averages, so this always holds. */
    predicate Valid()
      reads this
    {
      StrictlyAscending(datapoints)
    }

    constructor (name: string, csvPath: string, csvPathRaw: string, color: string)
      ensures this.name == name && this.csvPath == csvPath && this.csvPathRaw == csvPathRaw && this.color == color
      ensures datapoints == [] && Valid()
    {
      this.name := name;
      this.datapoints := [];
      this.csvPath := csvPath;
      this.csvPathRaw := csvPathRaw;
      this.color := color;
    }

    /** `init_from_csv`, with the file's rows given: they are appended to the
        stored points, then everything is averaged. */
    method InitFromRows(rows: seq<Point>)
      modifies this
      ensures name == old(name) && csvPath == old(csvPath) && csvPathRaw == old(csvPathRaw) && color == old(color)
      ensures datapoints == Averaged(old(datapoints) + rows) && Valid()
    {
      var i := 0;
      while i < |rows|
        invariant 0 <= i <= |rows|
        invariant name == old(name) && csvPath == old(csvPath) && csvPathRaw == old(csvPathRaw) && color == old(color)
        invariant datapoints == old(datapoints) + rows[..i]
      {
        datapoints := datapoints + [rows[i]];
        i := i + 1;
      }
      assert rows[..i] == rows;
      datapoints := GetAveragedDatapoints();
      AveragedAscending(old(datapoints) + rows);
    }

    /** `add_data_point`: unless the state is being restored from a backup,
        append the point and re-average. */
    method AddDataPoint(point: Point, loadFromBackup: bool)
      modifies this
      ensures name == old(name) && csvPath == old(csvPath) && csvPathRaw == old(csvPathRaw) && color == old(color)
      ensures datapoints == if loadFromBackup then old(datapoints) else Averaged(old(datapoints) + [point])
      ensures old(Valid()) ==> Valid()
    {
      if !loadFromBackup {
        datapoints := datapoints + [point];
        datapoints := GetAveragedDatapoints();
        AveragedAscending(old(datapoints) + [point]);
      }
    }

    /** `add_multiple_data_points`: unless restoring from a backup, append
        every point in order and re-average once at the end. */
    method AddMultipleDataPoints(points: seq<Point>, loadFromBackup: bool)
      modifies this
      ensures name == old(name) && csvPath == old(csvPath) && csvPathRaw == old(csvPathRaw) && color == old(color)
      ensures datapoints == if loadFromBackup then old(datapoints) else Averaged(old(datapoints) + points)
      ensures old(Valid()) ==> Valid()
    {
      if !loadFromBackup {
        var i := 0;
        while i < |points|
          invariant 0 <= i <= |points|
          invariant name == old(name) && csvPath == old(csvPath) && csvPathRaw == old(csvPathRaw) && color == old(color)
          invariant datapoints == old(datapoints) + points[..i]
        {
          datapoints := datapoints + [points[i]];
          i := i + 1;
        }
        assert points[..i] == points;
        datapoints := GetAveragedDatapoints();
        AveragedAscending(old(datapoints) + points);
      }
    }

    /** `get_averaged_datapoints`: sort, then merge each run of equal days
        into one point with the mean of the run. */
    method GetAveragedDatapoints() returns (r: seq<Point>)
      ensures r == Averaged(datapoints)
    {
      var sorted := SortByDay(datapoints);
      r := AverageRuns(sorted);
    }

    /** The outer loop of `get_averaged_datapoints` over the sorted
        samples. */
    static method AverageRuns(sorted: seq<Point>) returns (r: seq<Point>)
      ensures r == AveragedFrom(Days(sorted), Values(sorted), 0)
    {
      ghost var ks, vs := Days(sorted), Values(sorted);
      r := [];
      var idx := 0;
      while idx < |sorted|
        invariant 0 <= idx <= |sorted|
        invariant AveragedFrom(ks, vs, 0) == r + AveragedFrom(ks, vs, idx)
      {
        ghost var start := idx;
        var day := sorted[idx].day;
        var sum, counter;
        sum, counter, idx := SumSameDay(sorted, idx);
        var avg := if counter > 0 then sum / counter as real else sum;
        AveragedFromStep(ks, vs, start, sum, counter);
        r := r + [Point(day, avg)];
      }
    }

    /** The inner loop of `get_averaged_datapoints`: from `start`, add up
        the values of the following samples on the same day. */
    static method SumSameDay(sorted: seq<Point>, start: nat) returns (sum: real, counter: int, idx: nat)
      requires start < |sorted|
      ensures idx == RunEnd(Days(sorted), start)
      ensures sum == Sum(Values(sorted)[start..idx]) && counter == idx - start
    {
      ghost var ks, vs := Days(sorted), Values(sorted);
      var day := sorted[start].day;
      sum := sorted[start].value;
      counter := 1;
      idx := start + 1;
      assert vs[start..start + 1][..0] == [];
      while idx < |sorted| && day == sorted[idx].day
        invariant start < idx <= RunEnd(ks, start)
        invariant counter == idx - start
        invariant sum == Sum(vs[start..idx])
      {
        Folds.SumSliceStep(vs, start, idx + 1);
        sum := sum + sorted[idx].value;
        idx := idx + 1;
        counter := counter + 1;
      }
      assert ks[start] == day && (idx < |sorted| ==> ks[idx] == sorted[idx].day);
    }

    /** `get_datapoints_seperated(from_day)`: the days and values met while
        walking back from the last point as long as the day is not before
        `fromDay`. */
    method GetDatapointsSeparated(fromDay: int) returns (x: seq<real>, y: seq<real>)
      ensures x == Days(TakenBackward(datapoints, fromDay))
      ensures y == Values(TakenBackward(datapoints, fromDay))
    {
      x, y := [], [];
      ghost var taken: seq<Point> := [];
      var idx := |datapoints| - 1;
      assert datapoints[..idx + 1] == datapoints;
      while idx >= 0 && datapoints[idx].day >= fromDay as real
        invariant -1 <= idx < |datapoints|
        invariant x == Days(taken) && y == Values(taken)
        invariant TakenBackward(datapoints, fromDay) == taken + TakenBackward(datapoints[..idx + 1], fromDay)
      {
        assert datapoints[..idx + 1][..idx] == datapoints[..idx];
        x := x + [datapoints[idx].day];
        y := y + [datapoints[idx].value];
        taken := taken + [datapoints[idx]];
        idx := idx - 1;
      }
    }
  }

  /** With the points kept averaged, `get_datapoints_seperated` returns the
      stored points at or after `fromDay`, latest first, so the days
      strictly descend. */
  lemma {:induction false} SeparatedIsStoredSuffix(ps: seq<Point>, fromDay: int)
    requires StrictlyAscending(ps)
    ensures TakenBackward(ps, fromDay) == Reversed(AtOrAfter(ps, fromDay as real))
    ensures forall a, b :: 0 <= a < b < |TakenBackward(ps, fromDay)| ==>
      TakenBackward(ps, fromDay)[a].day > TakenBackward(ps, fromDay)[b].day
  {
    TakenBackwardSorted(ps, fromDay);
    TakenBackwardSuffix(ps, fromDay);
  }

  class TeamStandingData {
    var teams: map<string, TeamData>
    var ownTeam: string

    /** A fresh standings object knows no team; the own team's name is the
        empty default. */
    constructor ()
      ensures teams == map[] && ownTeam == ""
    {
      teams := map[];
      ownTeam := "";
    }

    /** `add_team`, with the rows of the team's CSV file given: a new team
        record filled from them and stored under `teamName`. */
    method AddTeam(teamName: string, csvPath: string, csvPathRaw: string, color: string, rows: seq<Point>)
      returns (td: TeamData)
      modifies this
      ensures fresh(td) && teams == old(teams)[teamName := td] && ownTeam == old(ownTeam)
      ensures td.name == teamName && td.csvPath == csvPath && td.csvPathRaw == csvPathRaw && td.color == color
      ensures td.datapoints == Averaged(rows) && td.Valid()
    {
      td := new TeamData(teamName, csvPath, csvPathRaw, color);
      td.InitFromRows(rows);
      assert [] + rows == rows;
      teams := teams[teamName := td];
    }

    /** `add_point_to_team`: a point of the own team is ignored; any other
        goes to that team's `add_data_point`, and an unknown team is a
        `KeyError`. No other team changes. */
    method AddPointToTeam(teamName: string, point: Point, loadFromBackup: bool) returns (r: Result<(), TeamError>)
      modifies teams.Values
      ensures r == if teamName != ownTeam && teamName !in teams then Err(KeyError(teamName)) else Ok(())
      ensures teamName != ownTeam && teamName in teams ==>
        teams[teamName].datapoints ==
          (if loadFromBackup then old(teams[teamName].datapoints) else Averaged(old(teams[teamName].datapoints) + [point]))
      ensures forall t :: t in teams.Values && (teamName == ownTeam || teamName !in teams || t != teams[teamName]) ==>
        t.datapoints == old(t.datapoints)
      ensures teams == old(teams) && ownTeam == old(ownTeam)
      ensures forall t :: t in teams.Values ==>
        t.name == old(t.name) && t.csvPath == old(t.csvPath) && t.csvPathRaw == old(t.csvPathRaw) && t.color == old(t.color)
      ensures teamName in teams && old(teams[teamName].Valid()) ==> teams[teamName].Valid()
    {
      if teamName != ownTeam {
        if teamName !in teams {
          return Err(KeyError(teamName));
        }
        teams[teamName].AddDataPoint(point, loadFromBackup);
      }
      r := Ok(());
    }
  }
}
