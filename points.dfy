/** The `(day, value)` samples every series is made of, Python's stable
    `sorted(points, key=lambda l: l[0])`, and the "day at or after" filter. */
module Points {

  /** One sample: a (fractional) simulated day and the value on it. */
  datatype Point = Point(day: real, value: real)

  function Days(ps: seq<Point>): seq<real> {
    seq(|ps|, i requires 0 <= i < |ps| => ps[i].day)
  }

  function Values(ps: seq<Point>): seq<real> {
    seq(|ps|, i requires 0 <= i < |ps| => ps[i].value)
  }

  predicate SortedByDay(ps: seq<Point>) {
    forall i, j :: 0 <= i < j < |ps| ==> ps[i].day <= ps[j].day
  }

  /** Days strictly ascending: at most one sample per day. */
  predicate StrictlyAscending(ps: seq<Point>) {
    forall i, j :: 0 <= i < j < |ps| ==> ps[i].day < ps[j].day
  }

  /** Insert `p` in front of the first sample whose day is not earlier. */
  function Insert(p: Point, s: seq<Point>): (r: seq<Point>)
    ensures multiset(r) == multiset(s) + multiset{p}
  {
    if s == [] || p.day <= s[0].day then [p] + s
    else
      assert s == [s[0]] + s[1..];
      [s[0]] + Insert(p, s[1..])
  }

  lemma {:induction false} InsertSorted(p: Point, s: seq<Point>)
    requires SortedByDay(s)
    ensures SortedByDay(Insert(p, s))
  {
    if s != [] && p.day > s[0].day {
      var rest := Insert(p, s[1..]);
      InsertSorted(p, s[1..]);
      var r := Insert(p, s);
      assert r == [s[0]] + rest;
      forall j | 0 <= j < |rest| ensures s[0].day <= rest[j].day {
        var x := rest[j];
        assert x in multiset(rest);
        if x != p {
          assert x in multiset(s[1..]);
        }
      }
    }
  }

  /** Python's `sorted(points, key=lambda l: l[0])`: ascending by day, a
      permutation of the input (stability is `SortIsStable`). */
  function SortByDay(ps: seq<Point>): (r: seq<Point>)
    ensures SortedByDay(r)
    ensures multiset(r) == multiset(ps) && |r| == |ps|
  {
    if ps == [] then []
    else
      assert ps == [ps[0]] + ps[1..];
      InsertSorted(ps[0], SortByDay(ps[1..]));
      Insert(ps[0], SortByDay(ps[1..]))
  }

  /** The samples of one exact day, in order. */
  function WithDay(ps: seq<Point>, d: real): seq<Point> {
    if ps == [] then [] else (if ps[0].day == d then [ps[0]] else []) + WithDay(ps[1..], d)
  }

  lemma {:induction false} InsertStable(p: Point, s: seq<Point>, d: real)
    ensures WithDay(Insert(p, s), d) == WithDay([p] + s, d)
  {
    assert ([p] + s)[1..] == s;
    if s != [] && p.day > s[0].day {
      InsertStable(p, s[1..], d);
      assert ([s[0]] + Insert(p, s[1..]))[1..] == Insert(p, s[1..]);
      assert ([p] + s[1..])[1..] == s[1..];
    }
  }

  /** The sort is stable: the samples of any one day keep their order. */
  lemma {:induction false} SortIsStable(ps: seq<Point>, d: real)
    ensures WithDay(SortByDay(ps), d) == WithDay(ps, d)
  {
    if ps != [] {
      SortIsStable(ps[1..], d);
      InsertStable(ps[0], SortByDay(ps[1..]), d);
      assert ([ps[0]] + SortByDay(ps[1..]))[1..] == SortByDay(ps[1..]);
    }
  }

  /** Sorting an already sorted list changes nothing. */
  lemma {:induction false} SortOfSorted(ps: seq<Point>)
    requires SortedByDay(ps)
    ensures SortByDay(ps) == ps
  {
    if ps != [] {
      SortOfSorted(ps[1..]);
      assert ps == [ps[0]] + ps[1..];
    }
  }

  /** The samples whose day is at or after `from`, in order. */
  function AtOrAfter(ps: seq<Point>, from: real): seq<Point> {
    if ps == [] then [] else (if ps[0].day >= from then [ps[0]] else []) + AtOrAfter(ps[1..], from)
  }

  /** A sample is kept exactly when it is in the input and not earlier than
      `from`. */
  lemma {:induction false} AtOrAfterMembers(ps: seq<Point>, from: real)
    ensures forall p :: p in AtOrAfter(ps, from) <==> p in ps && p.day >= from
    ensures |AtOrAfter(ps, from)| <= |ps|
  {
    if ps != [] {
      AtOrAfterMembers(ps[1..], from);
      assert ps == [ps[0]] + ps[1..];
    }
  }

  /** When every sample before position `k` is earlier than `from` and none
      from `k` on is, the kept samples are exactly the suffix from `k`. */
  lemma {:induction false} AtOrAfterIsSuffix(ps: seq<Point>, from: real, k: nat)
    requires k <= |ps|
    requires forall j :: 0 <= j < k ==> ps[j].day < from
    requires forall j :: k <= j < |ps| ==> ps[j].day >= from
    ensures AtOrAfter(ps, from) == ps[k..]
  {
    if ps != [] {
      AtOrAfterIsSuffix(ps[1..], from, if k == 0 then 0 else k - 1);
      if k == 0 {
        assert ps == [ps[0]] + ps[1..];
      }
    }
  }

  /** Filtering a sorted list keeps it sorted. */
  lemma {:induction false} AtOrAfterSorted(ps: seq<Point>, from: real)
    requires SortedByDay(ps)
    ensures SortedByDay(AtOrAfter(ps, from))
  {
    if ps != [] {
      AtOrAfterSorted(ps[1..], from);
      AtOrAfterMembers(ps[1..], from);
      var rest := AtOrAfter(ps[1..], from);
      assert forall q :: q in rest ==> ps[0].day <= q.day;
    }
  }
}
