/** The data side of the dashboard in main.py: fetching the telemetry
    records and flattening each into a table row, falling back to mock data
    when no store is connected, and the four figures of the enterprise view
    (active fleet, utilisation, critical alerts, estimated revenue). */
module Dashboard {
  import opened Records
  import opened Frames
  import opened Instrument
  import opened Fleet
  import opened MockData

  /** The errors Python would raise on the way: an AttributeError when a
      record's metrics is not a dictionary, a KeyError when a column the code
      indexes is missing. */
  datatype DashError = MetricsNotDictionary | MissingColumn(name: string)

  /** The metrics copied up into the row. */
  const MetricKeys: set<string> := {"temperature", "vibration", "throughput"}

  // ---------------------------------------------------------------------
  // Flattening one record (the body of the loop in fetch_data)

  /** The keys of the flattened row: the record's own keys without metrics
      and meta, plus the three metric keys when the record has metrics. */
  function RowKeys(d: Doc): set<string>
  {
    (d.Keys - {"metrics", "meta"}) + (if "metrics" in d then MetricKeys else {})
  }

  /** The field of the flattened row under key k: the metric (None when the
      metrics dictionary lacks it) for a metric key of a record with metrics,
      the record's own field otherwise. */
  function RowField(d: Doc, k: string): Field
    requires k in RowKeys(d) && ("metrics" in d ==> d["metrics"].Nested?)
  {
    if "metrics" in d && k in MetricKeys then Leaf(Get(d["metrics"].fields, k)) else d[k]
  }

  /** The flattened row of a record, described key by key; the record's
      metrics must be a dictionary when present. */
  function Flattened(d: Doc): Result<Row, DashError>
  {
    if "metrics" in d && d["metrics"].Leaf? then Failure(MetricsNotDictionary)
    else Success(map k | k in RowKeys(d) :: RowField(d, k))
  }

  /** What flattening does: it fails exactly on a non-dictionary metrics; the
      row has no metrics or meta key, carries every other key of the record
      unchanged unless a metric overrides it, and holds each metric of a
      record with metrics, None when missing. */
  lemma FlattenedShape(d: Doc)
    ensures Flattened(d).Failure? <==> "metrics" in d && !d["metrics"].Nested?
    ensures Flattened(d).Success? ==>
      var row := Flattened(d).value;
      "metrics" !in row && "meta" !in row &&
      (forall k :: k in d && k != "metrics" && k != "meta" && !("metrics" in d && k in MetricKeys) ==>
         k in row && row[k] == d[k]) &&
      ("metrics" in d ==> forall k :: k in MetricKeys ==>
         k in row && row[k] == Leaf(Get(d["metrics"].fields, k))) &&
      ("metrics" !in d ==> row == d - {"meta"})
  {
  }

  /** The loop body of fetch_data: copy the record, overwrite the three
      metric fields from the metrics dictionary and delete it, delete meta. */
  method FlattenRecord(d: Doc) returns (r: Result<Row, DashError>)
    ensures r == Flattened(d)
  {
    var flat := d;
    if "metrics" in d {
      var metrics := d["metrics"];
      if metrics.Leaf? {
        return Failure(MetricsNotDictionary);
      }
      flat := flat["temperature" := Leaf(Get(metrics.fields, "temperature"))];
      flat := flat["vibration" := Leaf(Get(metrics.fields, "vibration"))];
      flat := flat["throughput" := Leaf(Get(metrics.fields, "throughput"))];
      flat := flat - {"metrics"};
    }
    if "meta" in d {
      flat := flat - {"meta"};
    }
    assert flat.Keys == RowKeys(d);
    forall k | k in flat ensures flat[k] == RowField(d, k) {
      if "metrics" in d && k in MetricKeys {
        assert flat[k] == Leaf(Get(d["metrics"].fields, k));
      } else {
        assert flat[k] == d[k];
      }
    }
    assert flat == map k | k in RowKeys(d) :: RowField(d, k);
    return Success(flat);
  }

  /** A record the simulator writes flattens to a row of six columns that
      holds its metrics at the top level. */
  lemma TelemetryFlattens(t: Telemetry)
    ensures Flattened(Encode(t)).Success?
    ensures var row := Flattened(Encode(t)).value;
      row.Keys == {"device_id", "timestamp", "status", "temperature", "vibration", "throughput"} &&
      row["device_id"] == Leaf(Str(t.deviceId)) && row["timestamp"] == Leaf(Int(t.timestamp)) &&
      row["status"] == Leaf(Str(StatusName(t.status))) &&
      row["temperature"] == Leaf(Num(t.temperature)) && row["vibration"] == Leaf(Num(t.vibration)) &&
      row["throughput"] == Leaf(Int(t.throughput))
  {
    var d := Encode(t);
    assert RowKeys(d) == {"device_id", "timestamp", "status", "temperature", "vibration", "throughput"};
  }

  // ---------------------------------------------------------------------
  // fetch_data

  /** The loop of fetch_data over the fetched records: the rows in record
      order, or the error of the first record whose metrics is not a
      dictionary. */
  method FetchRows(docs: seq<Doc>) returns (res: Result<seq<Row>, DashError>)
    ensures res.Success? <==> forall i :: 0 <= i < |docs| ==> Flattened(docs[i]).Success?
    ensures res.Success? ==> (|res.value| == |docs| &&
      forall i :: 0 <= i < |docs| ==> res.value[i] == Flattened(docs[i]).value)
    ensures res.Failure? ==> res.error == MetricsNotDictionary
  {
    var data: seq<Row> := [];
    var i := 0;
    while i < |docs|
      invariant 0 <= i <= |docs| && |data| == i
      invariant forall k :: 0 <= k < i ==> Flattened(docs[k]).Success? && data[k] == Flattened(docs[k]).value
    {
      var flat := FlattenRecord(docs[i]);
      if flat.Failure? {
        return Failure(flat.error);
      }
      data := data + [flat.value];
      i := i + 1;
    }
    return Success(data);
  }

  /** The columns of the empty table fetch_data returns when there are no records. */
  const EmptyColumns: set<string> := {"device_id", "timestamp", "status", "temperature", "vibration"}

  /** fetch_data. `store` is None when no store is connected, otherwise the
      records the query returned; `now` and `mockDraws` feed the mock data.
      With records, the table holds their flattened rows in order, and
      indexing its timestamp column fails when no row has one. */
  method FetchData(store: Option<seq<Doc>>, now: int, mockDraws: seq<MockDraw>)
    returns (res: Result<Table, DashError>)
    requires store.None? ==>
      |mockDraws| == MockSize && forall k :: 0 <= k < |mockDraws| ==> ValidMockDraw(mockDraws[k])
    ensures store.None? ==> (res.Success? &&
      |res.value.rows| == MockSize && SortedByTime(res.value.rows) &&
      multiset(res.value.rows) == multiset(MockRows(now, mockDraws)) &&
      (forall k :: 0 <= k < |res.value.rows| ==> Plausible(res.value.rows[k])) &&
      res.value.columns == MockColumns)
    ensures store.Some? ==>
      var docs := store.value;
      if exists i :: 0 <= i < |docs| && Flattened(docs[i]).Failure? then
        res == Failure(MetricsNotDictionary)
      else if docs == [] then
        res == Success(Table(EmptyColumns, []))
      else
        var rows := seq(|docs|, i requires 0 <= i < |docs| => Flattened(docs[i]).value);
        if forall i :: 0 <= i < |docs| ==> "timestamp" !in rows[i] then
          res == Failure(MissingColumn("timestamp"))
        else
          res == Success(MakeTable(rows))
  {
    if store.None? {
      var t := GetMockData(now, mockDraws);
      return Success(t);
    }
    var docs := store.value;
    var data := FetchRows(docs);
    if data.Failure? {
      return Failure(data.error);
    }
    var rows := data.value;
    if rows == [] {
      return Success(Table(EmptyColumns, []));
    }
    var df := MakeTable(rows);
    assert rows == seq(|docs|, i requires 0 <= i < |docs| => Flattened(docs[i]).value);
    if "timestamp" !in df.columns {
      return Failure(MissingColumn("timestamp"));
    }
    return Success(df);
  }

  // ---------------------------------------------------------------------
  // The KPI section

  /** The rows whose status cell is `status`, in order: df[df['status'] == status]. */
  function Filter(rows: seq<Row>, status: string): (r: seq<Row>)
    ensures |r| <= |rows|
    ensures forall x :: x in r <==> x in rows && Cell(x, "status") == Leaf(Str(status))
  {
    if rows == [] then []
    else
      var init, last := rows[..|rows| - 1], rows[|rows| - 1];
      assert rows == init + [last];
      Filter(init, status) + (if Cell(last, "status") == Leaf(Str(status)) then [last] else [])
  }

  /** The filter keeps every matching row as often as it occurs and drops
      every other row: no row is merged with an equal one. */
  lemma {:induction false} FilterCount(rows: seq<Row>, status: string)
    ensures forall x :: (multiset(Filter(rows, status))[x] ==
                         if Cell(x, "status") == Leaf(Str(status)) then multiset(rows)[x] else 0)
  {
    if rows != [] {
      var init, last := rows[..|rows| - 1], rows[|rows| - 1];
      FilterCount(init, status);
      assert rows == init + [last];
      assert multiset(rows) == multiset(init) + multiset{last};
    }
  }

  /** The distinct non-missing device ids of the rows: what nunique counts. */
  function DeviceIds(rows: seq<Row>): (ids: set<Field>)
    ensures |ids| <= |rows|
    ensures forall x :: x in ids <==> x != Leaf(Null) && exists row :: row in rows && Cell(row, "device_id") == x
  {
    if rows == [] then {}
    else
      var init, last := rows[..|rows| - 1], rows[|rows| - 1];
      assert rows == init + [last];
      var id := Cell(last, "device_id");
      DeviceIds(init) + (if id == Leaf(Null) then {} else {id})
  }

  /** A subset is no larger than its superset. */
  lemma {:induction false} SubsetCardinality<T>(a: set<T>, b: set<T>)
    requires a <= b
    ensures |a| <= |b|
  {
    if a != {} {
      var x :| x in a;
      SubsetCardinality(a - {x}, b - {x});
    }
  }

  /** The throughput column summed, missing values skipped; cells that are
      not numbers add nothing. */
  function ThroughputSum(rows: seq<Row>): real
  {
    if rows == [] then 0.0
    else
      var v := match Cell(rows[|rows| - 1], "throughput")
        case Leaf(Int(i)) => i as real
        case Leaf(Num(x)) => x
        case _ => 0.0;
      ThroughputSum(rows[..|rows| - 1]) + v
  }

  /** part / whole * 100: the share of `part` in `whole`, in percent. */
  function Percent(part: nat, whole: nat): (p: real)
    requires part <= whole && whole > 0
    ensures 0.0 <= p <= 100.0 && p * (whole as real) == 100.0 * (part as real)
    ensures p == 100.0 <==> part == whole
    ensures p == 0.0 <==> part == 0
  {
    var ratio := part as real / whole as real;
    assert ratio * (whole as real) == part as real;
    assert (whole as real) * (1.0 - ratio) == (whole - part) as real;
    ratio * 100.0
  }

  /** The four figures of the enterprise view. */
  datatype Kpis = Kpis(
    activeDevices: nat,
    totalDevices: nat,
    utilization: real,
    criticalErrors: nat,
    revenue: real)

  /** Revenue is estimated at 10 per unit of throughput. */
  const RevenuePerUnit: real := 10.0

  /** The KPI section: with rows and a device_id column, the distinct devices
      RUNNING and overall, the share of RUNNING rows in percent, the number of
      ERROR rows and ten times the summed throughput (0 without that column);
      indexing a missing status column fails; otherwise every figure is 0. */
  function ComputeKpis(t: Table): (r: Result<Kpis, DashError>)
    ensures r.Failure? <==> |t.rows| > 0 && "device_id" in t.columns && "status" !in t.columns
    ensures r.Failure? ==> r.error == MissingColumn("status")
    ensures r.Success? && (|t.rows| == 0 || "device_id" !in t.columns) ==> r.value == Kpis(0, 0, 0.0, 0, 0.0)
    ensures r.Success? ==>
      r.value.activeDevices <= r.value.totalDevices <= |t.rows| &&
      r.value.criticalErrors <= |t.rows| &&
      0.0 <= r.value.utilization <= 100.0
  {
    if |t.rows| > 0 && "device_id" in t.columns then
      if "status" !in t.columns then Failure(MissingColumn("status"))
      else
        var running := Filter(t.rows, "RUNNING");
        SubsetCardinality(DeviceIds(running), DeviceIds(t.rows));
        var utilization := Percent(|running|, |t.rows|);
        var revenue := if "throughput" in t.columns then ThroughputSum(t.rows) * RevenuePerUnit else 0.0;
        Success(Kpis(
          |DeviceIds(running)|, |DeviceIds(t.rows)|, utilization,
          |Filter(t.rows, "ERROR")|, revenue))
    else
      Success(Kpis(0, 0, 0.0, 0, 0.0))
  }

  /** The figures are counts over the rows: the active and total devices are
      the distinct ids of the RUNNING rows and of all rows; utilisation is the share of
      RUNNING rows in percent, so it is 100 exactly when every
      row is RUNNING and 0 exactly when none is; RUNNING and ERROR rows
      together are at most all rows; revenue is ten times the summed
      throughput when there is such a column. */
  lemma KpiCounts(t: Table)
    requires |t.rows| > 0 && "device_id" in t.columns && "status" in t.columns
    ensures var k := ComputeKpis(t).value;
      k.utilization == Percent(|Filter(t.rows, "RUNNING")|, |t.rows|) &&
      k.activeDevices == |DeviceIds(Filter(t.rows, "RUNNING"))| &&
      k.totalDevices == |DeviceIds(t.rows)| &&
      k.criticalErrors == |Filter(t.rows, "ERROR")| &&
      |Filter(t.rows, "RUNNING")| + |Filter(t.rows, "ERROR")| <= |t.rows| &&
      (k.utilization == 100.0 <==> forall row :: row in t.rows ==> Cell(row, "status") == Leaf(Str("RUNNING"))) &&
      (k.utilization == 0.0 <==> forall row :: row in t.rows ==> Cell(row, "status") != Leaf(Str("RUNNING"))) &&
      k.revenue == (if "throughput" in t.columns then 10.0 * ThroughputSum(t.rows) else 0.0)
  {
    StatusCounts(t.rows);
    FilterAll(t.rows, "RUNNING");
    FilterNone(t.rows, "RUNNING");
  }

  /** A row is RUNNING or ERROR or neither, never both. */
  lemma {:induction false} StatusCounts(rows: seq<Row>)
    ensures |Filter(rows, "RUNNING")| + |Filter(rows, "ERROR")| <= |rows|
  {
    if rows != [] {
      var init := rows[..|rows| - 1];
      StatusCounts(init);
      assert rows == init + [rows[|rows| - 1]];
    }
  }

  /** Every row passes the filter exactly when none is dropped. */
  lemma {:induction false} FilterAll(rows: seq<Row>, status: string)
    ensures |Filter(rows, status)| == |rows| <==> forall row :: row in rows ==> Cell(row, "status") == Leaf(Str(status))
  {
    if rows != [] {
      var init, last := rows[..|rows| - 1], rows[|rows| - 1];
      FilterAll(init, status);
      assert rows == init + [last];
      assert forall row :: row in rows <==> row in init || row == last;
    }
  }

  /** The filter is empty exactly when no row has the status. */
  lemma FilterNone(rows: seq<Row>, status: string)
    ensures |Filter(rows, status)| == 0 <==> forall row :: row in rows ==> Cell(row, "status") != Leaf(Str(status))
  {
    if Filter(rows, status) != [] {
      assert Filter(rows, status)[0] in Filter(rows, status);
    }
  }

  /** On mock data the revenue estimate lies between 100 and 200 per RUNNING
      row, since exactly those rows carry a throughput of 10 to 20. */
  lemma {:induction false} MockThroughput(rows: seq<Row>)
    requires forall k :: 0 <= k < |rows| ==> Plausible(rows[k])
    ensures 10.0 * (|Filter(rows, "RUNNING")| as real) <= ThroughputSum(rows) <= 20.0 * (|Filter(rows, "RUNNING")| as real)
  {
    if rows != [] {
      var init, last := rows[..|rows| - 1], rows[|rows| - 1];
      assert rows == init + [last];
      MockThroughput(init);
      assert Plausible(last);
    }
  }

  /** The device id cells of the fleet. */
  const FleetCells: set<Field> := {Leaf(Str("INST-001")), Leaf(Str("INST-002")), Leaf(Str("INST-003")),
                                   Leaf(Str("INST-004")), Leaf(Str("INST-005"))}

  /** A fleet id's cell is one of the fleet cells. */
  lemma FleetCell(k: nat)
    requires k < NumDevices
    ensures Leaf(Str(FleetIds()[k])) in FleetCells
  {
    FleetIdsSpelledOut();
  }

  /** Rows that name only fleet devices count at most the fleet's cells. */
  lemma FleetDeviceIds(rows: seq<Row>)
    requires forall k :: 0 <= k < |rows| ==> FleetDevice(rows[k])
    ensures DeviceIds(rows) <= FleetCells
  {
    forall x | x in DeviceIds(rows) ensures x in FleetCells {
      var row :| row in rows && Cell(row, "device_id") == x;
      var i :| 0 <= i < |rows| && rows[i] == row;
      assert FleetDevice(rows[i]);
      var k :| 0 <= k < NumDevices && row["device_id"] == Leaf(Str(FleetIds()[k]));
      FleetCell(k);
    }
  }

  /** On mock data every figure is computed (the table has device_id and
      status columns), at most the five fleet devices are counted, and the
      revenue lies between 100 and 200 per RUNNING row. */
  lemma MockKpis(t: Table)
    requires |t.rows| > 0 && t.columns == MockColumns
    requires forall k :: 0 <= k < |t.rows| ==> Plausible(t.rows[k])
    ensures ComputeKpis(t).Success?
    ensures var k := ComputeKpis(t).value;
      k.totalDevices <= NumDevices &&
      100.0 * (|Filter(t.rows, "RUNNING")| as real) <= k.revenue <= 200.0 * (|Filter(t.rows, "RUNNING")| as real)
  {
    MockThroughput(t.rows);
    assert forall k :: 0 <= k < |t.rows| ==> FleetDevice(t.rows[k]);
    FleetDeviceIds(t.rows);
    SubsetCardinality(DeviceIds(t.rows), FleetCells);
    assert |FleetCells| <= NumDevices;
  }
}
