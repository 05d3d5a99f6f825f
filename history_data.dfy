/** The game's history table (history_data.py): the rows of the scraped
    HTML table become records, the records are grouped by the kind of
    operation, and the grouped records are filtered by day, among others to
    find the factory and warehouse changes still under way. The page
    download is not modelled; the page text is a parameter, and so is
    Python's `float()` on the day cell. */
module History {
  import opened Outcomes
  import opened StringHelper
  import opened Values

  /** One row of the history table. */
  datatype HistoryRecord = HistoryRecord(
    day: real,
    text: string,
    operation: HistoryOperationType,
    operationText: string,
    factory: string,
    warehouse: string,
    value: string)

  /** Python's `int()` on a number: truncation toward zero. */
  function Int(r: real): (n: int)
    ensures r >= 0.0 ==> n as real <= r < n as real + 1.0
    ensures r < 0.0 ==> n as real - 1.0 < r <= n as real
  {
    if r >= 0.0 then r.Floor else -((-r).Floor)
  }

  /** The marker that ends every table row. */
  const RowEnd: string := "</tr>"

  /** The positions of the next cell: the text after the next `opener`
      from `from` on, up to the following `</td>`. */
  function Cell(x: string, opener: string, from: nat): (r: Result<(nat, nat), SearchError>)
    ensures r.Ok? ==> from <= r.value.0 <= r.value.1 <= |x|
    ensures r.Err? ==> r.error == NotFound
  {
    var s :- GetIndex(Some(x), Some(opener), from, true);
    var e :- GetIndex(Some(x), Some("</td>"), s, false);
    Ok((s, e))
  }

  /** The loop body of `init_from_web_response`: the six cells of one row,
      the day with its thousands separators removed and converted by
      `toFloat`, the operation classified from its text. */
  function ParseRow(x: string, toFloat: string -> real): (r: Result<HistoryRecord, SearchError>)
    ensures r.Ok? ==> r.value.operation == GetHistoryOperationType(r.value.operationText)
    ensures r.Err? ==> r.error == NotFound
  {
    var day :- Cell(x, "right>", 0);
    var text :- Cell(x, "left>", day.1);
    var op :- Cell(x, "left>", text.1);
    var factory :- Cell(x, "left>", op.1);
    var warehouse :- Cell(x, "left>", factory.1);
    var value :- Cell(x, "right>", warehouse.1);
    var opText := x[op.0..op.1];
    Ok(HistoryRecord(
      toFloat(ReplaceChar(x[day.0..day.1], ',', "")),
      x[text.0..text.1],
      GetHistoryOperationType(opText),
      opText,
      x[factory.0..factory.1],
      x[warehouse.0..warehouse.1],
      x[value.0..value.1]))
  }

  /** The body of the history table: from just after the first `<tr>`
      behind `</thead>` up to `</tbody>`. */
  function TableBody(t: string): (r: Result<string, SearchError>)
    ensures r.Err? ==> r.error == NotFound
  {
    var head :- GetIndex(Some(t), Some("</thead>"), 0, false);
    var start :- GetIndex(Some(t), Some("<tr>"), head, true);
    var end :- GetIndex(Some(t), Some("</tbody>"), start, false);
    Ok(t[start..end])
  }

  /** The rows of a table body: split at every `</tr>`, the text after the
      last one dropped. */
  function Rows(body: string): seq<string> {
    var pieces := Split(body, RowEnd);
    pieces[..|pieces| - 1]
  }

  /** Each row followed by the separator, concatenated. */
  function Terminated(rows: seq<string>, sep: string): string {
    if rows == [] then [] else rows[0] + sep + Terminated(rows[1..], sep)
  }

  /** A string is its pieces but the last, each terminated by the separator,
      followed by the last piece. */
  lemma {:induction false} SplitTerminated(h: string, sep: string)
    requires |sep| > 0
    ensures var p := Split(h, sep);
      h == Terminated(p[..|p| - 1], sep) + p[|p| - 1]
    decreases |h|
  {
    match FindFrom(h, sep, 0)
    case None =>
    case Some(i) =>
      var rest := h[i + |sep|..];
      SplitTerminated(rest, sep);
      SplitAt(h, sep, i);
      TerminatedStep(h, sep, i, Split(h, sep), Split(rest, sep));
  }

  /** The induction step of `SplitTerminated`, on the pieces themselves. */
  lemma {:induction false} TerminatedStep(h: string, sep: string, i: nat, p: seq<string>, q: seq<string>)
    requires i + |sep| <= |h| && h[i..i + |sep|] == sep
    requires p == [h[..i]] + q && |q| > 0
    requires h[i + |sep|..] == Terminated(q[..|q| - 1], sep) + q[|q| - 1]
    ensures h == Terminated(p[..|p| - 1], sep) + p[|p| - 1]
  {
    var rest := h[i + |sep|..];
    var a, last := q[..|q| - 1], q[|q| - 1];
    assert p[..|p| - 1] == [h[..i]] + a && p[|p| - 1] == last;
    TerminatedCons(h[..i], a, sep);
    SliceThree(h, i, i + |sep|);
    calc {
      Terminated(p[..|p| - 1], sep) + p[|p| - 1];
      Terminated([h[..i]] + a, sep) + last;
      h[..i] + sep + Terminated(a, sep) + last;
      h[..i] + sep + (Terminated(a, sep) + last);
      h[..i] + sep + rest;
    }
  }

  lemma {:induction false} TerminatedCons(x: string, a: seq<string>, sep: string)
    ensures Terminated([x] + a, sep) == x + sep + Terminated(a, sep)
  {
    assert ([x] + a)[1..] == a;
  }

  /** The table body is exactly its rows, each ended by `</tr>`, and a tail
      without `</tr>` that is dropped; no row holds a `</tr>`. */
  lemma {:induction false} RowsAreTerminatedChunks(body: string)
    ensures var tail := Split(body, RowEnd)[|Split(body, RowEnd)| - 1];
      body == Terminated(Rows(body), RowEnd) + tail && !Contains(tail, RowEnd)
    ensures forall k :: 0 <= k < |Rows(body)| ==> !Contains(Rows(body)[k], RowEnd)
  {
    SplitTerminated(body, RowEnd);
    SplitPiecesFree(body, RowEnd);
  }

  /** The parser of one row, with the day conversion fixed. */
  function RowParser(toFloat: string -> real): string -> Result<HistoryRecord, SearchError> {
    x => ParseRow(x, toFloat)
  }

  /** The rows parsed by `parse` before the first one that fails, and that
      failure. */
  function ParseRows(rows: seq<string>, parse: string -> Result<HistoryRecord, SearchError>)
    : (seq<HistoryRecord>, Option<SearchError>)
  {
    if rows == [] then ([], None)
    else
      var (done, failed) := ParseRows(rows[..|rows| - 1], parse);
      if failed.Some? then (done, failed)
      else match parse(rows[|rows| - 1])
        case Err(e) => (done, Some(e))
        case Ok(rec) => (done + [rec], None)
  }

  /** When no row fails, there is one record per row, in order. */
  lemma {:induction false} ParseRowsAll(rows: seq<string>, parse: string -> Result<HistoryRecord, SearchError>)
    requires ParseRows(rows, parse).1.None?
    ensures |ParseRows(rows, parse).0| == |rows|
    ensures forall k :: 0 <= k < |rows| ==> parse(rows[k]) == Ok(ParseRows(rows, parse).0[k])
  {
    if rows != [] {
      var init := rows[..|rows| - 1];
      ParseRowsAll(init, parse);
      forall k | 0 <= k < |init| ensures rows[k] == init[k] { }
    }
  }

  /** When no row fails, each record's operation is the classification of
      its operation text. */
  lemma {:induction false} ParsedOperations(rows: seq<string>, toFloat: string -> real)
    requires ParseRows(rows, RowParser(toFloat)).1.None?
    ensures forall d :: d in ParseRows(rows, RowParser(toFloat)).0 ==>
      d.operation == GetHistoryOperationType(d.operationText)
  {
    var done := ParseRows(rows, RowParser(toFloat)).0;
    ParseRowsAll(rows, RowParser(toFloat));
    forall d | d in done ensures d.operation == GetHistoryOperationType(d.operationText) {
      var k :| 0 <= k < |done| && done[k] == d;
      assert ParseRow(rows[k], toFloat) == Ok(d);
    }
  }

  /** `init_data_by_operation` on the records `ds`: each appended to the
      list of its operation, a new list started for an operation not yet
      present. */
  function AddByOperation(m: map<HistoryOperationType, seq<HistoryRecord>>, ds: seq<HistoryRecord>)
    : map<HistoryOperationType, seq<HistoryRecord>>
  {
    if ds == [] then m
    else
      var m' := AddByOperation(m, ds[..|ds| - 1]);
      var d := ds[|ds| - 1];
      m'[d.operation := (if d.operation in m' then m'[d.operation] else []) + [d]]
  }

  /** The records of one operation, in order. */
  function OfOperation(ds: seq<HistoryRecord>, o: HistoryOperationType): seq<HistoryRecord> {
    if ds == [] then []
    else OfOperation(ds[..|ds| - 1], o) + (if ds[|ds| - 1].operation == o then [ds[|ds| - 1]] else [])
  }

  /** Starting from no groups, an operation has a list exactly when one of
      the records has it, and its list is its records in order. */
  lemma {:induction false} ByOperationFromEmpty(ds: seq<HistoryRecord>)
    ensures forall o :: o in AddByOperation(map[], ds) <==> exists k :: 0 <= k < |ds| && ds[k].operation == o
    ensures forall o :: o in AddByOperation(map[], ds) ==> AddByOperation(map[], ds)[o] == OfOperation(ds, o)
    ensures forall o :: o !in AddByOperation(map[], ds) ==> OfOperation(ds, o) == []
  {
    if ds != [] {
      var init := ds[..|ds| - 1];
      ByOperationFromEmpty(init);
      forall o ensures o in AddByOperation(map[], ds) <==> exists k :: 0 <= k < |ds| && ds[k].operation == o {
        if exists k :: 0 <= k < |init| && init[k].operation == o {
          var k :| 0 <= k < |init| && init[k].operation == o;
          assert ds[k] == init[k];
        }
      }
    }
  }

  /** Every record is in exactly one operation's list: the list sizes add
      up to the number of records. */
  lemma {:induction false} ByOperationSizes(ds: seq<HistoryRecord>)
    ensures |OfOperation(ds, Shipping)| + |OfOperation(ds, ServeRegion)| + |OfOperation(ds, ScheduleWarehouse)|
      + |OfOperation(ds, ScheduleFactory)| + |OfOperation(ds, FulfillmentPolicy)| + |OfOperation(ds, OrderPoint)|
      + |OfOperation(ds, OrderQuantity)| + |OfOperation(ds, OrderPriority)| + |OfOperation(ds, Undefined)| == |ds|
  {
    if ds != [] {
      ByOperationSizes(ds[..|ds| - 1]);
    }
  }

  /** The records whose day, truncated to an integer, is at least
      `fromDate`, in order. */
  function FromDate(ds: seq<HistoryRecord>, fromDate: real): seq<HistoryRecord> {
    if ds == [] then []
    else FromDate(ds[..|ds| - 1], fromDate) + (if Int(ds[|ds| - 1].day) as real >= fromDate then [ds[|ds| - 1]] else [])
  }

  /** The day filter keeps exactly the records on or after the date, and
      never more than there are. */
  lemma {:induction false} FromDateMembers(ds: seq<HistoryRecord>, fromDate: real)
    ensures |FromDate(ds, fromDate)| <= |ds|
    ensures forall d :: d in FromDate(ds, fromDate) <==> d in ds && Int(d.day) as real >= fromDate
  {
    if ds != [] {
      FromDateMembers(ds[..|ds| - 1], fromDate);
      assert ds == ds[..|ds| - 1] + [ds[|ds| - 1]];
    }
  }

  /** Filtering by operation and by date commute. */
  lemma {:induction false} FromDateOfOperation(ds: seq<HistoryRecord>, o: HistoryOperationType, fromDate: real)
    ensures FromDate(OfOperation(ds, o), fromDate) == OfOperation(FromDate(ds, fromDate), o)
  {
    if ds != [] {
      var init, d := ds[..|ds| - 1], ds[|ds| - 1];
      FromDateOfOperation(init, o, fromDate);
      var a := OfOperation(init, o);
      if d.operation == o {
        assert (a + [d])[..|a|] == a;
      } else {
        assert a + [] == a;
      }
      var b := FromDate(init, fromDate);
      if Int(d.day) as real >= fromDate {
        assert (b + [d])[..|b|] == b;
      } else {
        assert b + [] == b;
      }
    }
  }

  /** The records of operation `o` on or after the date are the records
      that have that operation and are on or after the date. */
  lemma {:induction false} OfOperationFromDateMembers(ds: seq<HistoryRecord>, o: HistoryOperationType, fromDate: real)
    ensures forall d :: d in FromDate(OfOperation(ds, o), fromDate) <==>
      d in ds && d.operation == o && Int(d.day) as real >= fromDate
  {
    FromDateMembers(OfOperation(ds, o), fromDate);
    OfOperationMembers(ds, o);
  }

  lemma {:induction false} OfOperationMembers(ds: seq<HistoryRecord>, o: HistoryOperationType)
    ensures forall d :: d in OfOperation(ds, o) <==> d in ds && d.operation == o
  {
    if ds != [] {
      OfOperationMembers(ds[..|ds| - 1], o);
      assert ds == ds[..|ds| - 1] + [ds[|ds| - 1]];
    }
  }

  /** `get_data_by_operation_from_date` on the groups `m`. */
  function ByOperationFromDate(m: map<HistoryOperationType, seq<HistoryRecord>>, o: HistoryOperationType, fromDate: real)
    : seq<HistoryRecord>
  {
    if o in m then FromDate(m[o], fromDate) else []
  }

  /** On groups built from the records, the lookup gives the records of the
      operation on or after the date, and nothing for an operation without
      records. */
  lemma {:induction false} ByOperationFromDateOfRecords(ds: seq<HistoryRecord>, o: HistoryOperationType, fromDate: real)
    ensures ByOperationFromDate(AddByOperation(map[], ds), o, fromDate) == FromDate(OfOperation(ds, o), fromDate)
    ensures (forall k :: 0 <= k < |ds| ==> ds[k].operation != o) ==>
      ByOperationFromDate(AddByOperation(map[], ds), o, fromDate) == []
  {
    ByOperationFromEmpty(ds);
  }

  class HistoryData {
    var allData: seq<HistoryRecord>
    var dataByOperation: map<HistoryOperationType, seq<HistoryRecord>>

    /** The groups are the records grouped by operation. */
    predicate Consistent()
      reads this
    {
      dataByOperation == AddByOperation(map[], allData)
    }

    constructor ()
      ensures allData == [] && dataByOperation == map[] && Consistent()
    {
      allData := [];
      dataByOperation := map[];
    }

    /** `init_data_by_operation`: every record appended, in order, to the
        list of its operation. */
    method InitDataByOperation()
      modifies this
      ensures allData == old(allData)
      ensures dataByOperation == AddByOperation(old(dataByOperation), allData)
    {
      var i := 0;
      while i < |allData|
        invariant 0 <= i <= |allData| && allData == old(allData)
        invariant dataByOperation == AddByOperation(old(dataByOperation), allData[..i])
      {
        var d := allData[i];
        assert allData[..i + 1][..i] == allData[..i];
        if d.operation !in dataByOperation {
          dataByOperation := dataByOperation[d.operation := []];
        }
        dataByOperation := dataByOperation[d.operation := dataByOperation[d.operation] + [d]];
        i := i + 1;
      }
      assert allData[..i] == allData;
    }

    /** `init_from_web_response(t)`: nothing for no page; otherwise every
        row of the table body parsed and appended, then all records grouped
        again. A missing marker stops with `NotFound`, keeping the records
        of the rows before it and leaving the groups alone. */
    method InitFromWebResponse(t: Option<string>, toFloat: string -> real) returns (r: Result<(), SearchError>)
      modifies this
      ensures t.None? ==> r == Ok(()) && allData == old(allData) && dataByOperation == old(dataByOperation)
      ensures t.Some? && TableBody(t.value).Err? ==>
        r == Err(NotFound) && allData == old(allData) && dataByOperation == old(dataByOperation)
      ensures t.Some? && TableBody(t.value).Ok? ==>
        var (done, failed) := ParseRows(Rows(TableBody(t.value).value), RowParser(toFloat));
        && allData == old(allData) + done
        && (failed.Some? ==> r == Err(failed.value) && dataByOperation == old(dataByOperation))
        && (failed.None? ==> r == Ok(()) && dataByOperation == AddByOperation(old(dataByOperation), allData))
      ensures old(allData) == [] && old(dataByOperation) == map[] && r.Ok? ==> Consistent()
    {
      if t.None? {
        return Ok(());
      }
      var body :- TableBody(t.value);
      var failed := AppendRows(Rows(body), toFloat);
      if failed.Some? {
        return Err(failed.value);
      }
      InitDataByOperation();
      r := Ok(());
    }

    /** The row loop of `init_from_web_response`: parse each row and append
        its record, stopping at the first row that fails. */
    method AppendRows(rows: seq<string>, toFloat: string -> real) returns (failed: Option<SearchError>)
      modifies this
      ensures allData == old(allData) + ParseRows(rows, RowParser(toFloat)).0
      ensures failed == ParseRows(rows, RowParser(toFloat)).1
      ensures dataByOperation == old(dataByOperation)
    {
      ghost var done: seq<HistoryRecord> := [];
      ghost var parse := RowParser(toFloat);
      var i := 0;
      assert rows[..0] == [];
      while i < |rows|
        invariant 0 <= i <= |rows| && dataByOperation == old(dataByOperation)
        invariant allData == old(allData) + done
        invariant ParseRows(rows[..i], parse) == (done, None)
      {
        var row := ParseRow(rows[i], toFloat);
        assert row == parse(rows[i]);
        ParseRowsStep(rows, parse, i, done);
        if row.Err? {
          ParseRowsFailed(rows, parse, i + 1);
          return Some(row.error);
        }
        allData := allData + [row.value];
        done := done + [row.value];
        i := i + 1;
      }
      assert rows[..i] == rows;
      failed := None;
    }

    /** `get_data_from_date(from_date)`. */
    method GetDataFromDate(fromDate: real) returns (ret: seq<HistoryRecord>)
      ensures ret == FromDate(allData, fromDate)
    {
      ret := [];
      var i := 0;
      while i < |allData|
        invariant 0 <= i <= |allData| && ret == FromDate(allData[..i], fromDate)
      {
        assert allData[..i + 1][..i] == allData[..i];
        if Int(allData[i].day) as real >= fromDate {
          ret := ret + [allData[i]];
        }
        i := i + 1;
      }
      assert allData[..i] == allData;
    }

    /** `get_data_by_operation_from_date(o, from_date)`. */
    method GetDataByOperationFromDate(o: HistoryOperationType, fromDate: real) returns (ret: seq<HistoryRecord>)
      ensures ret == ByOperationFromDate(dataByOperation, o, fromDate)
    {
      ret := [];
      if o in dataByOperation {
        var lst := dataByOperation[o];
        var i := 0;
        while i < |lst|
          invariant 0 <= i <= |lst| && ret == FromDate(lst[..i], fromDate)
        {
          assert lst[..i + 1][..i] == lst[..i];
          if Int(lst[i].day) as real >= fromDate {
            ret := ret + [lst[i]];
          }
          i := i + 1;
        }
        assert lst[..i] == lst;
      }
    }

    /** `get_pending_factory_modification(current_day)`: the scheduled
        capacity changes started in the last 90 days. */
    method GetPendingFactoryModification(currentDay: real) returns (ret: seq<HistoryRecord>)
      ensures ret == ByOperationFromDate(dataByOperation, ScheduleFactory, currentDay - FactoryInvestmentDays as real)
    {
      ret := GetDataByOperationFromDate(ScheduleFactory, currentDay - FactoryInvestmentDays as real);
    }

    /** `get_pending_warehouse_modification(current_day)`: the scheduled
        warehouse openings started in the last 60 days. */
    method GetPendingWarehouseModification(currentDay: real) returns (ret: seq<HistoryRecord>)
      ensures ret == ByOperationFromDate(dataByOperation, ScheduleWarehouse, currentDay - WarehouseInvestmentDays as real)
    {
      ret := GetDataByOperationFromDate(ScheduleWarehouse, currentDay - WarehouseInvestmentDays as real);
    }
  }

  /** One more row: its record joins the parsed ones, or its failure ends
      the parse. */
  lemma {:induction false} ParseRowsStep(rows: seq<string>, parse: string -> Result<HistoryRecord, SearchError>,
                                         i: nat, done: seq<HistoryRecord>)
    requires i < |rows| && ParseRows(rows[..i], parse) == (done, None)
    ensures parse(rows[i]).Ok? ==> ParseRows(rows[..i + 1], parse) == (done + [parse(rows[i]).value], None)
    ensures parse(rows[i]).Err? ==> ParseRows(rows[..i + 1], parse) == (done, Some(parse(rows[i]).error))
  {
    assert rows[..i + 1][..i] == rows[..i];
  }

  /** Once a row fails, the rows after it are not looked at. */
  lemma {:induction false} ParseRowsFailed(rows: seq<string>, parse: string -> Result<HistoryRecord, SearchError>, n: nat)
    requires 0 < n <= |rows| && ParseRows(rows[..n], parse).1.Some?
    ensures ParseRows(rows, parse) == ParseRows(rows[..n], parse)
    decreases |rows|
  {
    if n < |rows| {
      var init := rows[..|rows| - 1];
      assert init[..n] == rows[..n];
      ParseRowsFailed(init, parse, n);
    } else {
      assert rows[..n] == rows;
    }
  }

  /** On consistent groups, the pending factory changes are exactly the
      capacity-change records started no more than 90 days before the
      current day. */
  lemma {:induction false} PendingFactoryMembers(ds: seq<HistoryRecord>, currentDay: real)
    ensures forall d :: d in ByOperationFromDate(AddByOperation(map[], ds), ScheduleFactory, currentDay - 90.0) <==>
      d in ds && d.operation == ScheduleFactory && Int(d.day) as real >= currentDay - 90.0
  {
    ByOperationFromDateOfRecords(ds, ScheduleFactory, currentDay - 90.0);
    OfOperationFromDateMembers(ds, ScheduleFactory, currentDay - 90.0);
  }

  /** On consistent groups, the pending warehouse openings are exactly the
      warehouse records started no more than 60 days before the current
      day. */
  lemma {:induction false} PendingWarehouseMembers(ds: seq<HistoryRecord>, currentDay: real)
    ensures forall d :: d in ByOperationFromDate(AddByOperation(map[], ds), ScheduleWarehouse, currentDay - 60.0) <==>
      d in ds && d.operation == ScheduleWarehouse && Int(d.day) as real >= currentDay - 60.0
  {
    ByOperationFromDateOfRecords(ds, ScheduleWarehouse, currentDay - 60.0);
    OfOperationFromDateMembers(ds, ScheduleWarehouse, currentDay - 60.0);
  }
}
