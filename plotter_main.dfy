/** The summary helpers of plotter_main.py: the file name a page is saved
    under, the "nothing but zeros" check, the pending orders and pending
    transports read off the plotted series of each region, the cells of the
    factory configuration table, and the pairing of a plot's point tokens
    into samples. The network, the files and the rendering around them are
    not modelled. */
module Plotter {
  import opened Outcomes
  import opened StringHelper
  import opened Values
  import opened Points
  import opened Folds
  import opened Series
  import opened Factory

  // ----- get_escaped_url_for_filesave -----

  /** The characters a file name may not hold. */
  predicate Unsafe(c: char) {
    c == ':' || c == '/' || c == '?'
  }

  /** `get_escaped_url_for_filesave(url)`. */
  function EscapedUrlForFilesave(url: string): string {
    ReplaceChar(ReplaceChar(ReplaceChar(url, ':', "_"), '/', "_"), '?', "_") + ".html"
  }

  /** Every ':', '/' and '?' becomes '_', every other character stays, and
      ".html" follows; no unsafe character is left. */
  lemma {:induction false} EscapedUrlShape(url: string)
    ensures var r := EscapedUrlForFilesave(url);
      && |r| == |url| + 5
      && r[|url|..] == ".html"
      && (forall i :: 0 <= i < |url| ==> r[i] == if Unsafe(url[i]) then '_' else url[i])
      && (forall i :: 0 <= i < |r| ==> !Unsafe(r[i]))
  {
    var a := ReplaceChar(url, ':', "_");
    var b := ReplaceChar(a, '/', "_");
    var c := ReplaceChar(b, '?', "_");
    var r := EscapedUrlForFilesave(url);
    assert r == c + ".html";
    forall i | 0 <= i < |r| ensures !Unsafe(r[i]) {
      if i < |url| {
        assert r[i] == c[i];
      } else {
        assert r[i] == ".html"[i - |url|];
      }
    }
  }

  // ----- check_list_only_zero -----

  /** An element of a list that may mix numbers and text. */
  datatype Entry = Num(n: real) | Text(s: string)

  /** The elements Python compares equal to 0 or to '0'. */
  predicate IsZero(e: Entry) {
    e == Num(0.0) || e == Text("0")
  }

  /** `check_list_only_zero(l)`: true for no list, an empty list, and a list
      of nothing but zeros. */
  method CheckListOnlyZero(l: Option<seq<Entry>>) returns (b: bool)
    ensures b <==> l.None? || forall k :: 0 <= k < |l.value| ==> IsZero(l.value[k])
  {
    if l.None? {
      return true;
    }
    if |l.value| <= 0 {
      return true;
    }
    var i := 0;
    while i < |l.value|
      invariant 0 <= i <= |l.value|
      invariant forall k :: 0 <= k < i ==> IsZero(l.value[k])
    {
      var x := l.value[i];
      if x != Num(0.0) && x != Text("0") {
        return false;
      }
      i := i + 1;
    }
    return true;
  }

  // ----- get_pending_orders_per_region -----

  /** The exception of an index past the list of regions. */
  datatype PlotterError = IndexError

  /** The backward scan from position `k` down to 1: the values added up
      until the first zero. */
  function PendingFrom(ps: seq<Point>, k: int): real
    requires k < |ps|
    decreases k
  {
    if k < 1 || ps[k].value == 0.0 then 0.0 else ps[k].value + PendingFrom(ps, k - 1)
  }

  /** The pending quantity of one warehouse series: the scan from the
      second-to-last sample back to the second one. */
  function PendingQuantity(ps: seq<Point>): real {
    PendingFrom(ps, |ps| - 2)
  }

  /** Where the run of non-zero values that ends at `k` starts, never
      before position 1. */
  function RunStart(ps: seq<Point>, k: int): (j: int)
    requires k < |ps|
    ensures k < 1 ==> j == k + 1
    ensures k >= 1 ==> 1 <= j <= k + 1
    decreases k
  {
    if k < 1 || ps[k].value == 0.0 then k + 1 else RunStart(ps, k - 1)
  }

  /** The scan adds exactly the run of non-zero values that ends at `k`:
      it stops at position 1 or just after a zero. */
  lemma {:induction false} PendingFromIsRun(ps: seq<Point>, k: int)
    requires 0 <= k < |ps|
    ensures var j := RunStart(ps, k);
      && (forall i :: j <= i <= k ==> ps[i].value != 0.0)
      && (j == 1 || (j <= k + 1 && ps[j - 1].value == 0.0))
      && PendingFrom(ps, k) == Sum(Points.Values(ps)[j..k + 1])
    decreases k
  {
    var vs := Points.Values(ps);
    if k < 1 {
      assert vs[k + 1..k + 1] == [];
    } else if ps[k].value == 0.0 {
      assert vs[k + 1..k + 1] == [];
    } else {
      PendingFromIsRun(ps, k - 1);
      var j := RunStart(ps, k - 1);
      assert RunStart(ps, k) == j;
      var run := vs[j..k + 1];
      assert vs[k] == ps[k].value;
      assert run[..|run| - 1] == vs[j..k] && run[|run| - 1] == vs[k];
      assert Sum(run) == Sum(vs[j..k]) + ps[k].value;
    }
  }

  /** The first and the last sample are never counted: the pending quantity
      is the sum of the trailing run of non-zero values among the samples
      from the second to the second-to-last. */
  lemma {:induction false} PendingQuantityIsRun(ps: seq<Point>)
    requires |ps| >= 3
    ensures var j := RunStart(ps, |ps| - 2);
      && 1 <= j <= |ps| - 1
      && (forall i :: j <= i < |ps| - 1 ==> ps[i].value != 0.0)
      && (j == 1 || ps[j - 1].value == 0.0)
      && PendingQuantity(ps) == Sum(Points.Values(ps)[j..|ps| - 1])
  {
    PendingFromIsRun(ps, |ps| - 2);
  }

  /** The inner loop of `get_pending_orders_per_region` for one warehouse. */
  method PendingQuantityOf(ps: seq<Point>) returns (q: real)
    ensures q == PendingQuantity(ps)
  {
    q := 0.0;
    var k := |ps| - 2;
    while k > 0
      invariant k <= |ps| - 2
      invariant q + PendingFrom(ps, k) == PendingQuantity(ps)
    {
      if ps[k].value == 0.0 {
        break;
      }
      q := q + ps[k].value;
      k := k - 1;
    }
  }

  /** A plotted series as a value: its name and its samples. */
  type Named = (string, seq<Point>)

  /** The series of a list of plots, as values. */
  function Snapshot(whs: seq<PlotData>): (r: seq<Named>)
    reads whs
    ensures |r| == |whs| && forall k :: 0 <= k < |whs| ==> r[k] == (whs[k].name, whs[k].points)
  {
    if whs == [] then [] else [(whs[0].name, whs[0].points)] + Snapshot(whs[1..])
  }

  /** Every plot in a list of lists. */
  function Plots(ls: seq<seq<PlotData>>): (r: set<PlotData>)
    ensures forall k, p :: 0 <= k < |ls| && p in ls[k] ==> p in r
  {
    if ls == [] then {} else (set p | p in ls[0]) + Plots(ls[1..])
  }

  /** The series of every list of plots, as values. */
  function SnapshotAll(ls: seq<seq<PlotData>>): (r: seq<seq<Named>>)
    reads Plots(ls)
    ensures |r| == |ls| && forall k :: 0 <= k < |ls| ==> r[k] == Snapshot(ls[k])
  {
    if ls == [] then [] else [Snapshot(ls[0])] + SnapshotAll(ls[1..])
  }

  /** One factory's entry: each warehouse with a positive pending quantity,
      by name, a later series of the same name replacing an earlier one. */
  function WarehousePending(whs: seq<Named>): map<string, real> {
    if whs == [] then map[]
    else
      var m := WarehousePending(whs[..|whs| - 1]);
      var (name, ps) := whs[|whs| - 1];
      if PendingQuantity(ps) > 0.0 then m[name := PendingQuantity(ps)] else m
  }

  /** Only positive quantities are stored, and only for warehouses listed. */
  lemma {:induction false} WarehousePendingPositive(whs: seq<Named>)
    ensures forall name :: name in WarehousePending(whs) ==>
      WarehousePending(whs)[name] > 0.0 && exists k :: 0 <= k < |whs| && whs[k].0 == name
  {
    if whs != [] {
      WarehousePendingPositive(whs[..|whs| - 1]);
      var m := WarehousePending(whs);
      forall name | name in m
        ensures exists k :: 0 <= k < |whs| && whs[k].0 == name
      {
        if name != whs[|whs| - 1].0 {
          var k :| 0 <= k < |whs| - 1 && whs[..|whs| - 1][k].0 == name;
          assert whs[k].0 == name;
        }
      }
    }
  }

  /** The middle loop of `get_pending_orders_per_region` for one factory. */
  method WarehousePendingOf(fact: seq<Named>) returns (m: map<string, real>)
    ensures m == WarehousePending(fact)
  {
    m := map[];
    var i := 0;
    while i < |fact|
      invariant 0 <= i <= |fact|
      invariant m == WarehousePending(fact[..i])
    {
      var (name, points) := fact[i];
      assert fact[..i + 1][..i] == fact[..i];
      var q := PendingQuantityOf(points);
      if q > 0.0 {
        m := m[name := q];
      }
      i := i + 1;
    }
    assert fact[..i] == fact;
  }

  /** A dictionary keyed by region: the `i`-th entry under the name of
      the `i`-th region. */
  function ByRegion<T>(entries: seq<T>): map<string, T>
    requires |entries| <= |Regions|
  {
    if entries == [] then map[]
    else ByRegion(entries[..|entries| - 1])[Regions[|entries| - 1] := entries[|entries| - 1]]
  }

  /** One more entry goes under the next region's name. */
  lemma {:induction false} ByRegionSnoc<T>(entries: seq<T>, x: T)
    requires |entries| < |Regions|
    ensures ByRegion(entries + [x]) == ByRegion(entries)[Regions[|entries|] := x]
  {
    assert (entries + [x])[..|entries|] == entries;
  }

  /** The keys are the names of the first regions, one per entry, and each
      holds its own entry: region names are distinct, so none is overwritten. */
  lemma {:induction false} ByRegionEntries<T>(entries: seq<T>)
    requires |entries| <= |Regions|
    ensures ByRegion(entries).Keys == set k | 0 <= k < |entries| :: Regions[k]
    ensures forall k :: 0 <= k < |entries| ==> ByRegion(entries)[Regions[k]] == entries[k]
  {
    if entries != [] {
      var n := |entries| - 1;
      ByRegionEntries(entries[..n]);
      RegionsDistinct();
      assert forall k :: 0 <= k < n ==> entries[..n][k] == entries[k];
    }
  }

  /** The outer loop of `get_pending_orders_per_region`, over the
      factories' series. */
  method PendingOrdersOf(facts: seq<seq<Named>>) returns (r: Result<map<string, map<string, real>>, PlotterError>)
    ensures |facts| > |Regions| <==> r.Err?
    ensures r.Ok? ==>
      && r.value.Keys == (set k | 0 <= k < |facts| :: Regions[k])
      && forall k :: 0 <= k < |facts| ==> r.value[Regions[k]] == WarehousePending(facts[k])
  {
    var ret: map<string, map<string, real>> := map[];
    ghost var entries: seq<map<string, real>> := [];
    var idx := 0;
    while idx < |facts|
      invariant 0 <= idx <= |facts| && idx <= |Regions| && |entries| == idx
      invariant ret == ByRegion(entries)
      invariant forall k :: 0 <= k < idx ==> entries[k] == WarehousePending(facts[k])
    {
      if idx >= |Regions| {
        return Err(IndexError);
      }
      var m := WarehousePendingOf(facts[idx]);
      ByRegionSnoc(entries, m);
      ret := ret[Regions[idx] := m];
      entries := entries + [m];
      idx := idx + 1;
    }
    ByRegionEntries(entries);
    r := Ok(ret);
  }

  /** `get_pending_orders_per_region(wip_list)`: one entry per factory,
      under the name of the region at the same position; more factories
      than regions raise IndexError. */
  method GetPendingOrdersPerRegion(wipList: seq<seq<PlotData>>) returns (r: Result<map<string, map<string, real>>, PlotterError>)
    ensures |wipList| > |Regions| <==> r.Err?
    ensures r.Ok? ==>
      && r.value.Keys == (set k | 0 <= k < |wipList| :: Regions[k])
      && forall k :: 0 <= k < |wipList| ==> r.value[Regions[k]] == WarehousePending(Snapshot(wipList[k]))
  {
    r := PendingOrdersOf(SnapshotAll(wipList));
  }

  // ----- get_pending_transport_per_region -----

  /** One expected arrival: the day the stock rose, the day it arrives and
      the quantity. */
  datatype Shipment = Shipment(day: real, arrival: real, quantity: real)

  /** Mail wins over truck when the name mentions both. */
  function ShippingDays(name: string): int {
    if Contains(name, "Mail") then ShippingMailDays else ShippingTruckDays
  }

  /** The backward search for the first relevant sample, from position `p`
      down to 1. */
  function StartSearchFrom(ps: seq<Point>, p: int, relevantFrom: real): int
    requires p < |ps|
    decreases p
  {
    if p < 1 then 0
    else if ps[p].day < relevantFrom then p
    else StartSearchFrom(ps, p - 1, relevantFrom)
  }

  /** The search finds the last sample from position 1 on that is earlier
      than `relevantFrom`, and 0 when there is none. */
  lemma {:induction false} StartSearchFromIsLast(ps: seq<Point>, p: int, relevantFrom: real)
    requires p < |ps|
    ensures var s := StartSearchFrom(ps, p, relevantFrom);
      && 0 <= s
      && (s > 0 ==> s <= p && ps[s].day < relevantFrom && forall q :: s < q <= p ==> ps[q].day >= relevantFrom)
      && (s == 0 ==> forall q :: 1 <= q <= p ==> ps[q].day >= relevantFrom)
    decreases p
  {
    if p >= 1 && ps[p].day >= relevantFrom {
      StartSearchFromIsLast(ps, p - 1, relevantFrom);
    }
  }

  /** The upward steps between positions `from` and `k`, in order, each as
      a shipment arriving `days` later. */
  /** The step from sample `q - 1` to sample `q` goes up. */
  predicate IsRise(ps: seq<Point>, q: int)
    requires 1 <= q < |ps|
  {
    ps[q].value > ps[q - 1].value
  }

  /** The shipment announced by the step into sample `q`. */
  function RiseAt(ps: seq<Point>, q: int, days: int): Shipment
    requires 1 <= q < |ps|
  {
    Shipment(ps[q].day, ps[q].day + days as real, ps[q].value - ps[q - 1].value)
  }

  /** The upward steps into the samples after `from` up to `k`, in order. */
  function Rises(ps: seq<Point>, from: int, k: int, days: int): seq<Shipment>
    requires k <= from || k < |ps|
    decreases k - from
  {
    if k <= from || k < 1 then []
    else Rises(ps, from, k - 1, days) + (if IsRise(ps, k) then [RiseAt(ps, k, days)] else [])
  }

  /** Every shipment comes from an upward step after `from`, has a positive
      quantity and arrives `days` after the step. */
  lemma {:induction false} RisesAreUpwardSteps(ps: seq<Point>, from: int, k: int, days: int)
    requires 0 <= from && k < |ps|
    ensures forall s :: s in Rises(ps, from, k, days) ==>
      && s.quantity > 0.0 && s.arrival == s.day + days as real
      && exists q :: from < q <= k && IsRise(ps, q) && s == RiseAt(ps, q, days)
    decreases k - from
  {
    if k > from && k >= 1 {
      RisesAreUpwardSteps(ps, from, k - 1, days);
      forall s | s in Rises(ps, from, k, days)
        ensures s.quantity > 0.0 && s.arrival == s.day + days as real
        ensures exists q :: from < q <= k && IsRise(ps, q) && s == RiseAt(ps, q, days)
      {
        if s !in Rises(ps, from, k - 1, days) {
          assert IsRise(ps, k) && s == RiseAt(ps, k, days);
        }
      }
    }
  }

  /** Every upward step after `from` announces a shipment. */
  lemma {:induction false} UpwardStepsAreRises(ps: seq<Point>, from: int, k: int, days: int)
    requires 0 <= from && k < |ps|
    ensures forall q :: from < q <= k && IsRise(ps, q) ==> RiseAt(ps, q, days) in Rises(ps, from, k, days)
    decreases k - from
  {
    if k > from && k >= 1 {
      UpwardStepsAreRises(ps, from, k - 1, days);
    }
  }

  /** The shipments one inventory series announces: none unless it is a
      mail or truck series, else every rise after the last sample that is
      already older than the shipping time. */
  function SeriesShipments(name: string, ps: seq<Point>, today: real): seq<Shipment> {
    if !Contains(name, "Mail") && !Contains(name, "Truck") then []
    else
      var days := ShippingDays(name);
      var start := StartSearchFrom(ps, |ps| - 1, today - days as real);
      Rises(ps, start, |ps| - 1, days)
  }

  /** One region's list: the shipments of its series, one series after the
      other. */
  function RegionShipments(series: seq<Named>, today: real): seq<Shipment> {
    if series == [] then []
    else RegionShipments(series[..|series| - 1], today) + SeriesShipments(series[|series| - 1].0, series[|series| - 1].1, today)
  }

  /** One more series appends its shipments. */
  lemma {:induction false} RegionShipmentsStep(series: seq<Named>, i: nat, today: real)
    requires i < |series|
    ensures RegionShipments(series[..i + 1], today)
      == RegionShipments(series[..i], today) + SeriesShipments(series[i].0, series[i].1, today)
  {
    assert series[..i + 1][..i] == series[..i];
  }

  /** The two loops of `get_pending_transport_per_region` for one series. */
  method SeriesShipmentsOf(name: string, ps: seq<Point>, today: real) returns (r: seq<Shipment>)
    ensures r == SeriesShipments(name, ps, today)
  {
    r := [];
    if !Contains(name, "Mail") && !Contains(name, "Truck") {
      return;
    }
    var shippingDays := if Contains(name, "Mail") then ShippingMailDays else ShippingTruckDays;
    var relevantFrom := today - shippingDays as real;
    var startSearchFrom := 0;
    var p := |ps| - 1;
    while p > 0
      invariant p < |ps| && startSearchFrom == 0
      invariant StartSearchFrom(ps, |ps| - 1, relevantFrom) == StartSearchFrom(ps, p, relevantFrom)
    {
      if ps[p].day < relevantFrom {
        startSearchFrom := p;
        break;
      }
      p := p - 1;
    }
    assert startSearchFrom == StartSearchFrom(ps, |ps| - 1, relevantFrom);
    var k := startSearchFrom;
    while k < |ps| - 1
      invariant startSearchFrom <= k && (k <= |ps| - 1 || k == startSearchFrom)
      invariant r == Rises(ps, startSearchFrom, k, shippingDays)
    {
      if ps[k + 1].value > ps[k].value {
        r := r + [Shipment(ps[k + 1].day, ps[k + 1].day + shippingDays as real, ps[k + 1].value - ps[k].value)];
      }
      k := k + 1;
    }
  }

  /** The loop over the series of one region. */
  method RegionShipmentsOf(region: seq<Named>, today: real) returns (list: seq<Shipment>)
    ensures list == RegionShipments(region, today)
  {
    list := [];
    var i := 0;
    while i < |region|
      invariant 0 <= i <= |region|
      invariant list == RegionShipments(region[..i], today)
    {
      var more := SeriesShipmentsOf(region[i].0, region[i].1, today);
      RegionShipmentsStep(region, i, today);
      list := list + more;
      i := i + 1;
    }
    assert region[..i] == region;
  }

  /** The outer loop of `get_pending_transport_per_region`, over the
      regions' series. */
  method PendingTransportOf(regions: seq<seq<Named>>, today: real)
    returns (r: Result<map<string, seq<Shipment>>, PlotterError>)
    ensures |regions| > |Regions| <==> r.Err?
    ensures r.Ok? ==>
      && r.value.Keys == (set k | 0 <= k < |regions| :: Regions[k])
      && forall k :: 0 <= k < |regions| ==> r.value[Regions[k]] == RegionShipments(regions[k], today)
  {
    var ret: map<string, seq<Shipment>> := map[];
    ghost var entries: seq<seq<Shipment>> := [];
    var idx := 0;
    while idx < |regions|
      invariant 0 <= idx <= |regions| && idx <= |Regions| && |entries| == idx
      invariant ret == ByRegion(entries)
      invariant forall k :: 0 <= k < idx ==> entries[k] == RegionShipments(regions[k], today)
    {
      if idx >= |Regions| {
        return Err(IndexError);
      }
      var list := RegionShipmentsOf(regions[idx], today);
      ByRegionSnoc(entries, list);
      ret := ret[Regions[idx] := list];
      entries := entries + [list];
      idx := idx + 1;
    }
    ByRegionEntries(entries);
    r := Ok(ret);
  }

  /** `get_pending_transport_per_region(transport_list, today)`: one list
      per region, under the region's name; more regions than names raise
      IndexError. */
  method GetPendingTransportPerRegion(transportList: seq<seq<PlotData>>, today: real)
    returns (r: Result<map<string, seq<Shipment>>, PlotterError>)
    ensures |transportList| > |Regions| <==> r.Err?
    ensures r.Ok? ==>
      && r.value.Keys == (set k | 0 <= k < |transportList| :: Regions[k])
      && forall k :: 0 <= k < |transportList| ==> r.value[Regions[k]] == RegionShipments(Snapshot(transportList[k]), today)
  {
    r := PendingTransportOf(SnapshotAll(transportList), today);
  }

  // ----- get_factory_configuration_summary -----

  /** The cell of the configuration table for the factory of one region and
      the target region at `idxTarget`. */
  function ConfigCell(factory: Option<FactoryData>, idxTarget: nat): string {
    if factory.None? || factory.value.shippingConfigs.None? || |factory.value.shippingConfigs.value| <= 0 then
      PlaceholderEmpty
    else if |factory.value.shippingConfigs.value| <= idxTarget then
      PlaceholderIndexError
    else if factory.value.shippingConfigs.value[idxTarget].orderPoint == 0 then
      PlaceholderEmpty
    else
      ShortSummaryOnlyValues(factory.value.shippingConfigs.value[idxTarget])
  }

  /** The cell tells the cases apart: "IDX_ERR" exactly when the factory has
      configurations but too few, "---" exactly when it has none or the
      target's order point is 0, and the summary otherwise. */
  lemma {:induction false} ConfigCellCases(factory: Option<FactoryData>, idxTarget: nat)
    ensures var none := factory.None? || factory.value.shippingConfigs.None? || |factory.value.shippingConfigs.value| == 0;
      && (ConfigCell(factory, idxTarget) == PlaceholderIndexError <==>
            !none && |factory.value.shippingConfigs.value| <= idxTarget)
      && (ConfigCell(factory, idxTarget) == PlaceholderEmpty <==>
            none || (idxTarget < |factory.value.shippingConfigs.value|
                     && factory.value.shippingConfigs.value[idxTarget].orderPoint == 0))
      && (!none && idxTarget < |factory.value.shippingConfigs.value|
            && factory.value.shippingConfigs.value[idxTarget].orderPoint != 0 ==>
          ConfigCell(factory, idxTarget) == ShortSummaryOnlyValues(factory.value.shippingConfigs.value[idxTarget]))
  {
    if factory.Some? && factory.value.shippingConfigs.Some? {
      var cs := factory.value.shippingConfigs.value;
      if 0 < |cs| && idxTarget < |cs| && cs[idxTarget].orderPoint != 0 {
        var s := ShortSummaryOnlyValues(cs[idxTarget]);
        SummaryStartsWithLabel(cs[idxTarget]);
        assert s[0] == 'S';
        assert PlaceholderIndexError[0] == 'I' && PlaceholderEmpty[0] == '-';
      }
    }
  }

  /** The body of the configuration table: a row per region with its name
      and a cell for each target region. */
  function ConfigRows(factories: seq<Option<FactoryData>>): (rows: seq<seq<string>>)
    requires |factories| <= |Regions|
    ensures |rows| == |factories|
    ensures forall i :: 0 <= i < |rows| ==>
      |rows[i]| == |Regions| + 1 && rows[i][0] == Regions[i]
      && forall j :: 0 <= j < |Regions| ==> rows[i][j + 1] == ConfigCell(factories[i], j)
  {
    seq(|factories|, i requires 0 <= i < |factories| =>
      [Regions[i]] + seq(|Regions|, j requires 0 <= j < |Regions| => ConfigCell(factories[i], j)))
  }

  // ----- get_plot_data: label and point pairing -----

  /** The characters `str.strip()` removes: Python's whitespace, that is
      tab to carriage return, the four information separators, space, next
      line, no-break space and the Unicode space and line separators. */
  predicate IsSpace(c: char) {
    var n := c as int;
    n == 0x20 || 0x09 <= n <= 0x0d || 0x1c <= n <= 0x1f || n == 0x85 || n == 0xa0 || n == 0x1680
    || 0x2000 <= n <= 0x200a || n == 0x2028 || n == 0x2029 || n == 0x202f || n == 0x205f || n == 0x3000
  }

  /** The first position at or after `i` that does not hold whitespace. */
  function SkipForward(s: string, i: nat): (j: nat)
    requires i <= |s|
    ensures i <= j <= |s|
    decreases |s| - i
  {
    if i < |s| && IsSpace(s[i]) then SkipForward(s, i + 1) else i
  }

  /** The end of the text before `j` once trailing whitespace down to `lo`
      is dropped. */
  function SkipBackward(s: string, lo: nat, j: nat): (e: nat)
    requires lo <= j <= |s|
    ensures lo <= e <= j
    decreases j
  {
    if lo < j && IsSpace(s[j - 1]) then SkipBackward(s, lo, j - 1) else j
  }

  /** Python's `s.strip()`: the string without its leading and trailing
      whitespace. */
  function Strip(s: string): string {
    var a := SkipForward(s, 0);
    s[a..SkipBackward(s, a, |s|)]
  }

  /** Everything skipped going forward is whitespace, and the scan stops at
      the end or at a character that is not. */
  lemma {:induction false} SkipForwardSpaces(s: string, i: nat)
    requires i <= |s|
    ensures var j := SkipForward(s, i);
      && (forall k :: i <= k < j ==> IsSpace(s[k]))
      && (j < |s| ==> !IsSpace(s[j]))
    decreases |s| - i
  {
    if i < |s| && IsSpace(s[i]) {
      SkipForwardSpaces(s, i + 1);
    }
  }

  /** Everything skipped going backward is whitespace, and the scan stops at
      `lo` or after a character that is not. */
  lemma {:induction false} SkipBackwardSpaces(s: string, lo: nat, j: nat)
    requires lo <= j <= |s|
    ensures var e := SkipBackward(s, lo, j);
      && (forall k :: e <= k < j ==> IsSpace(s[k]))
      && (lo < e ==> !IsSpace(s[e - 1]))
    decreases j
  {
    if lo < j && IsSpace(s[j - 1]) {
      SkipBackwardSpaces(s, lo, j - 1);
    }
  }

  /** The stripped string is a slice of the original with only whitespace
      before and after it, and it neither starts nor ends with whitespace. */
  lemma {:induction false} StripShape(s: string)
    ensures var a := SkipForward(s, 0);
      && var e := SkipBackward(s, a, |s|);
      && Strip(s) == s[a..e]
      && (forall k :: 0 <= k < a ==> IsSpace(s[k]))
      && (forall k :: e <= k < |s| ==> IsSpace(s[k]))
      && (Strip(s) != [] ==> !IsSpace(s[a]) && !IsSpace(s[e - 1]))
  {
    var a := SkipForward(s, 0);
    SkipForwardSpaces(s, 0);
    SkipBackwardSpaces(s, a, |s|);
  }

  /** The name of one plotted line: the text before the first quote,
      stripped, or the given name when that is empty; no quote is a
      ValueError. */
  function SeriesLabel(e: string, name: string): (r: Result<string, SearchError>)
    ensures r.Err? <==> !Contains(e, "'")
  {
    match FindFrom(e, "'", 0)
    case None =>
      MarkerMissing(e, "'");
      Err(NotFound)
    case Some(i) =>
      var raw := Strip(e[..i]);
      Ok(if raw == "" then name else raw)
  }

  /** A search from the start that finds nothing means the marker does not
      occur in the text at all. */
  lemma {:induction false} MarkerMissing(e: string, marker: string)
    requires FindFrom(e, marker, 0).None?
    ensures !Contains(e, marker)
  {
    forall i | 0 <= i <= |e| ensures !OccursAt(e, marker, i) { }
  }

  /** A label is the given name when only whitespace precedes the first
      quote; otherwise it is the slice of the text before the quote that
      drops exactly the leading and trailing whitespace, so it starts and
      ends with a character that is not whitespace. */
  lemma {:induction false} SeriesLabelFallback(e: string, name: string)
    requires SeriesLabel(e, name).Ok?
    ensures name != "" ==> SeriesLabel(e, name).value != ""
    ensures var i := FindFrom(e, "'", 0).value;
      && i < |e|
      && ((forall k :: 0 <= k < i ==> IsSpace(e[k])) ==> SeriesLabel(e, name).value == name)
      && (!(forall k :: 0 <= k < i ==> IsSpace(e[k])) ==>
            exists a, b :: 0 <= a < b <= i && SeriesLabel(e, name).value == e[a..b]
              && !IsSpace(e[a]) && !IsSpace(e[b - 1])
              && (forall k :: 0 <= k < a ==> IsSpace(e[k]))
              && (forall k :: b <= k < i ==> IsSpace(e[k])))
  {
    var i := FindFrom(e, "'", 0).value;
    var s := e[..i];
    StripShape(s);
    var a := SkipForward(s, 0);
    var b := SkipBackward(s, a, |s|);
    if !(forall k :: 0 <= k < i ==> IsSpace(e[k])) {
      var k :| 0 <= k < i && !IsSpace(e[k]);
      assert s[k] == e[k];
      assert a <= k;
      assert Strip(s) == e[a..b];
      assert SeriesLabel(e, name).value == e[a..b];
    } else {
      SkipForwardSpaces(s, 0);
      assert a == |s|;
    }
  }

  /** The samples a plot's point tokens describe: token `2i` is the day and
      token `2i + 1` the value of sample `i`, converted by `toFloat`. */
  function Pairs(tokens: seq<string>, toFloat: string -> real): (r: seq<Point>)
    ensures |r| == |tokens| / 2
  {
    seq(|tokens| / 2, i requires 0 <= i < |tokens| / 2 => Point(toFloat(tokens[2 * i]), toFloat(tokens[2 * i + 1])))
  }

  /** Days and values of the samples in turn. */
  function Flatten(ps: seq<Point>): (r: seq<real>)
    ensures |r| == 2 * |ps|
  {
    if ps == [] then [] else Flatten(ps[..|ps| - 1]) + [ps[|ps| - 1].day, ps[|ps| - 1].value]
  }

  function MapFloat(tokens: seq<string>, toFloat: string -> real): (r: seq<real>)
    ensures |r| == |tokens| && forall k :: 0 <= k < |tokens| ==> r[k] == toFloat(tokens[k])
  {
    seq(|tokens|, k requires 0 <= k < |tokens| => toFloat(tokens[k]))
  }

  /** The pairing uses every token exactly once, in order, except a trailing
      odd one, which is dropped. */
  lemma {:induction false} PairsUseTokens(tokens: seq<string>, toFloat: string -> real)
    ensures var used := 2 * (|tokens| / 2);
      && (used == |tokens| || used + 1 == |tokens|)
      && Flatten(Pairs(tokens, toFloat)) == MapFloat(tokens[..used], toFloat)
    decreases |tokens|
  {
    var n := |tokens| / 2;
    if n > 0 {
      var shorter := tokens[..2 * n - 2];
      PairsUseTokens(shorter, toFloat);
      var ps := Pairs(tokens, toFloat);
      assert Pairs(shorter, toFloat) == ps[..n - 1];
      var f := Flatten(ps);
      var g := MapFloat(tokens[..2 * n], toFloat);
      assert f == Flatten(ps[..n - 1]) + [ps[n - 1].day, ps[n - 1].value];
      assert shorter[..2 * (n - 1)] == shorter;
      forall k | 0 <= k < 2 * n ensures f[k] == g[k] {
        if k < 2 * n - 2 {
          assert f[k] == MapFloat(shorter, toFloat)[k];
        }
      }
    }
  }

  /** The pairing loop of `get_plot_data`: a list of `len(tokens) / 2`
      slots, filled pair by pair. */
  method PairTokens(tokens: seq<string>, toFloat: string -> real) returns (pts: seq<Point>)
    ensures pts == Pairs(tokens, toFloat)
  {
    var retList := new Point[|tokens| / 2](_ => Point(-1.0, -1.0));
    var i := 0;
    while i < retList.Length
      invariant 0 <= i <= retList.Length
      invariant forall k :: 0 <= k < i ==> retList[k] == Point(toFloat(tokens[2 * k]), toFloat(tokens[2 * k + 1]))
    {
      retList[i] := Point(toFloat(tokens[2 * i]), toFloat(tokens[2 * i + 1]));
      i := i + 1;
    }
    pts := retList[..];
  }

  /** The marker that opens the point text of a line. */
  const PointsOpener := "points:'"
  /** The marker that closes the point text of a line. */
  const PointsCloser := "'},"

  /** The point text of one line: what lies between the first `points:'`
      and the first `'},`, both searched from the start of the fragment.
      Either marker missing is a ValueError; a closing marker that comes
      before the end of the opening one gives the empty text. */
  function PointText(e: string): (r: Result<string, SearchError>)
    ensures r.Err? <==> !Contains(e, PointsOpener) || !Contains(e, PointsCloser)
    ensures r.Ok? ==> exists p, q ::
      && OccursAt(e, PointsOpener, p) && (forall k :: 0 <= k < p ==> !OccursAt(e, PointsOpener, k))
      && OccursAt(e, PointsCloser, q) && (forall k :: 0 <= k < q ==> !OccursAt(e, PointsCloser, k))
      && r.value == (if p + |PointsOpener| <= q then e[p + |PointsOpener|..q] else [])
  {
    match (FindFrom(e, PointsOpener, 0), FindFrom(e, PointsCloser, 0))
    case (None, _) =>
      MarkerMissing(e, PointsOpener);
      Err(NotFound)
    case (_, None) =>
      MarkerMissing(e, PointsCloser);
      Err(NotFound)
    case (Some(p), Some(q)) =>
      var start := p + |PointsOpener|;
      Ok(if start <= q then e[start..q] else [])
  }

  /** The samples of one line: its point text, split at single spaces and
      paired; a missing marker is a ValueError. */
  method PointsOfText(e: string, toFloat: string -> real) returns (r: Result<seq<Point>, SearchError>)
    ensures r.Err? <==> !Contains(e, PointsOpener) || !Contains(e, PointsCloser)
    ensures r.Ok? ==> PointText(e).Ok? && r.value == Pairs(Split(PointText(e).value, " "), toFloat)
  {
    var pointText := PointText(e);
    if pointText.Err? {
      return Err(pointText.error);
    }
    var pointList := Split(pointText.value, " ");
    var pts := PairTokens(pointList, toFloat);
    r := Ok(pts);
  }

  /** One fragment of `get_plot_data`: the label of the line and its
      samples; a fragment without a quote or without both point markers
      is a ValueError. */
  method LineOfFragment(e: string, name: string, toFloat: string -> real) returns (r: Result<(string, seq<Point>), SearchError>)
    ensures r.Err? <==> !Contains(e, "'") || !Contains(e, PointsOpener) || !Contains(e, PointsCloser)
    ensures r.Ok? ==>
      && SeriesLabel(e, name).Ok? && PointText(e).Ok?
      && r.value == (SeriesLabel(e, name).value, Pairs(Split(PointText(e).value, " "), toFloat))
  {
    var title := SeriesLabel(e, name);
    if title.Err? {
      return Err(title.error);
    }
    var pts := PointsOfText(e, toFloat);
    if pts.Err? {
      return Err(pts.error);
    }
    r := Ok((title.value, pts.value));
  }
}
