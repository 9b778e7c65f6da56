/** get_mock_data of main.py: fifty made-up rows for the dashboard when no
    store is connected, in which status, throughput and vibration agree with
    each other, sorted by timestamp. */
module MockData {
  import opened Records
  import opened Frames
  import opened Instrument
  import opened Fleet

  const MockSize: nat := 50

  /** random.choice picks the status from this list: RUNNING three times in five. */
  const StatusChoices: seq<string> := ["RUNNING", "IDLE", "RUNNING", "RUNNING", "ERROR"]

  /** The draws behind one mock row: randint(0, 15) minutes back, the
      random.choice of device and of status, and the random() behind the
      temperature and vibration uniforms and the randint(10, 20) throughput. */
  datatype MockDraw = MockDraw(
    minutesAgo: int,
    devicePick: nat,
    statusPick: nat,
    temperatureDraw: real,
    vibrationDraw: real,
    throughputDraw: int)

  predicate ValidMockDraw(d: MockDraw)
  {
    0 <= d.minutesAgo <= 15 && d.devicePick < NumDevices && d.statusPick < |StatusChoices| &&
    IsUnit(d.temperatureDraw) && IsUnit(d.vibrationDraw) && 10 <= d.throughputDraw <= 20
  }

  /** One mock row, stamped `minutesAgo` minutes before `now` (in seconds). */
  function MockRow(now: int, d: MockDraw): Row
    requires ValidMockDraw(d)
  {
    var status := StatusChoices[d.statusPick];
    map[
      "device_id" := Leaf(Str(FleetIds()[d.devicePick])),
      "timestamp" := Leaf(Int(now - 60 * d.minutesAgo)),
      "status" := Leaf(Str(status)),
      "temperature" := Leaf(Num(Uniform(20.0, 80.0, d.temperatureDraw))),
      "vibration" := Leaf(Num(if status == "ERROR" then Uniform(0.01, 1.5, d.vibrationDraw)
                              else Uniform(0.01, 0.4, d.vibrationDraw))),
      "throughput" := Leaf(Int(if status == "RUNNING" then d.throughputDraw else 0))]
  }

  /** The columns every mock row has. */
  const MockColumns: set<string> := {"device_id", "timestamp", "status", "temperature", "vibration", "throughput"}

  /** What every mock row satisfies: a fleet id, one of the three live
      statuses, a throughput in [10, 20] exactly when RUNNING and 0 otherwise,
      a temperature in [20, 80] and a vibration in [0.01, 0.4], or up to 1.5
      in ERROR. */
  predicate Plausible(row: Row)
  {
    row.Keys == MockColumns && FleetDevice(row) &&
    row["timestamp"].Leaf? && row["timestamp"].scalar.Int? &&
    row["status"] in {Leaf(Str("RUNNING")), Leaf(Str("IDLE")), Leaf(Str("ERROR"))} &&
    row["throughput"].Leaf? && row["throughput"].scalar.Int? &&
    (row["status"] == Leaf(Str("RUNNING")) ==> 10 <= row["throughput"].scalar.i <= 20) &&
    (row["status"] != Leaf(Str("RUNNING")) ==> row["throughput"].scalar.i == 0) &&
    row["temperature"].Leaf? && row["temperature"].scalar.Num? &&
    20.0 <= row["temperature"].scalar.x <= 80.0 &&
    row["vibration"].Leaf? && row["vibration"].scalar.Num? &&
    0.01 <= row["vibration"].scalar.x <= 1.5 &&
    (row["status"] != Leaf(Str("ERROR")) ==> row["vibration"].scalar.x <= 0.4)
  }

  /** The row names one of the fleet's devices. */
  predicate FleetDevice(row: Row)
  {
    "device_id" in row && exists k :: 0 <= k < NumDevices && row["device_id"] == Leaf(Str(FleetIds()[k]))
  }

  lemma MockRowPlausible(now: int, d: MockDraw)
    requires ValidMockDraw(d)
    ensures Plausible(MockRow(now, d))
  {
    var row := MockRow(now, d);
    assert row["device_id"] == Leaf(Str(FleetIds()[d.devicePick]));
    assert row.Keys == MockColumns;
  }

  /** The rows in the order the loop appends them. */
  function MockRows(now: int, draws: seq<MockDraw>): (rows: seq<Row>)
    requires forall k :: 0 <= k < |draws| ==> ValidMockDraw(draws[k])
    ensures |rows| == |draws| && forall k :: 0 <= k < |draws| ==> rows[k] == MockRow(now, draws[k])
  {
    if draws == [] then [] else MockRows(now, draws[..|draws| - 1]) + [MockRow(now, draws[|draws| - 1])]
  }

  // ---------------------------------------------------------------------
  // sort_values("timestamp")

  /** The sort key: the integer timestamp of a row (0 when it has none). */
  function TimeOf(row: Row): int
  {
    match Cell(row, "timestamp")
    case Leaf(Int(t)) => t
    case _ => 0
  }

  predicate SortedByTime(rows: seq<Row>)
  {
    forall i, j :: 0 <= i < j < |rows| ==> TimeOf(rows[i]) <= TimeOf(rows[j])
  }

  /** Inserts a row into a list after the rows that are earlier. */
  function Insert(row: Row, rows: seq<Row>): (r: seq<Row>)
    ensures multiset(r) == multiset(rows) + multiset{row}
    ensures forall x :: x in r ==> x in rows || x == row
  {
    if rows == [] then [row]
    else if TimeOf(row) <= TimeOf(rows[0]) then [row] + rows
    else
      assert rows == [rows[0]] + rows[1..];
      [rows[0]] + Insert(row, rows[1..])
  }

  /** Inserting into a sorted list keeps it sorted. */
  lemma {:induction false} InsertSorted(row: Row, rows: seq<Row>)
    requires SortedByTime(rows)
    ensures SortedByTime(Insert(row, rows))
  {
    if rows != [] && TimeOf(row) > TimeOf(rows[0]) {
      var tail := rows[1..];
      assert SortedByTime(tail);
      InsertSorted(row, tail);
      var rest := Insert(row, tail);
      forall x | x in rest ensures TimeOf(rows[0]) <= TimeOf(x) {
        if x != row {
          var j :| 0 <= j < |tail| && tail[j] == x;
          assert rows[j + 1] == x;
        }
      }
      assert Insert(row, rows) == [rows[0]] + rest;
    }
  }

  /** The rows ordered by timestamp: a sorted permutation of the input. */
  function SortByTime(rows: seq<Row>): (r: seq<Row>)
    ensures multiset(r) == multiset(rows) && |r| == |rows| && SortedByTime(r)
  {
    if rows == [] then []
    else
      var init, last := rows[..|rows| - 1], rows[|rows| - 1];
      assert rows == init + [last];
      var sortedInit := SortByTime(init);
      InsertSorted(last, sortedInit);
      var r := Insert(last, sortedInit);
      assert |r| == |multiset(r)|;
      r
  }

  /** Reordering keeps every row plausible. */
  lemma PermutationPlausible(a: seq<Row>, b: seq<Row>)
    requires multiset(a) == multiset(b) && forall k :: 0 <= k < |a| ==> Plausible(a[k])
    ensures forall k :: 0 <= k < |b| ==> Plausible(b[k])
  {
    forall k | 0 <= k < |b| ensures Plausible(b[k]) {
      assert b[k] in multiset(a);
    }
  }

  /** All generated rows are plausible. */
  lemma MockRowsPlausible(now: int, draws: seq<MockDraw>)
    requires forall k :: 0 <= k < |draws| ==> ValidMockDraw(draws[k])
    ensures forall k :: 0 <= k < |draws| ==> Plausible(MockRows(now, draws)[k])
  {
    forall k | 0 <= k < |draws| ensures Plausible(MockRows(now, draws)[k]) {
      MockRowPlausible(now, draws[k]);
    }
  }

  /** Together the generated rows have exactly the six mock columns. */
  lemma MockRowsColumns(now: int, draws: seq<MockDraw>)
    requires |draws| > 0 && forall k :: 0 <= k < |draws| ==> ValidMockDraw(draws[k])
    ensures MakeTable(MockRows(now, draws)).columns == MockColumns
  {
    var rows := MockRows(now, draws);
    var columns := MakeTable(rows).columns;
    forall c ensures c in columns <==> c in MockColumns {
      if c in MockColumns {
        assert rows[0] == MockRow(now, draws[0]);
        assert c in rows[0];
      }
      if c in columns {
        var i :| 0 <= i < |rows| && c in rows[i];
        assert rows[i] == MockRow(now, draws[i]);
      }
    }
  }

  /** get_mock_data: fifty rows, each plausible, sorted by timestamp, the
      same rows the loop generated, with the six columns of a mock row. */
  method GetMockData(now: int, draws: seq<MockDraw>) returns (t: Table)
    requires |draws| == MockSize && forall k :: 0 <= k < |draws| ==> ValidMockDraw(draws[k])
    ensures |t.rows| == MockSize && SortedByTime(t.rows)
    ensures multiset(t.rows) == multiset(MockRows(now, draws))
    ensures forall k :: 0 <= k < |t.rows| ==> Plausible(t.rows[k])
    ensures t.columns == MockColumns
  {
    var data: seq<Row> := [];
    for i := 0 to MockSize
      invariant data == MockRows(now, draws[..i])
    {
      assert draws[..i + 1][..i] == draws[..i];
      data := data + [MockRow(now, draws[i])];
    }
    assert draws[..MockSize] == draws;
    MockRowsPlausible(now, draws);
    MockRowsColumns(now, draws);
    var frame := MakeTable(data);
    t := Table(frame.columns, SortByTime(frame.rows));
    PermutationPlausible(data, t.rows);
  }
}
