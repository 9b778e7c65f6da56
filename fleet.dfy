/** The fleet driver of simulator.py: a fixed number of instruments with
    sequential ids, each cycle ticking every instrument once, in fleet order,
    and taking its telemetry record. Writing the records to the store, the
    console lines and the sleep between cycles are not part of this model. */
module Fleet {
  import opened Records
  import opened Text
  import opened Instrument

  const NumDevices: nat := 5

  /** f"INST-{i:03d}" */
  function DeviceId(i: nat): string
  {
    "INST-" + ZeroPad3(i)
  }

  /** The ids the fleet is built with, in fleet order: INST-001 upward. */
  function FleetIds(): (ids: seq<string>)
    ensures |ids| == NumDevices
    ensures forall k :: 0 <= k < NumDevices ==> ids[k] == DeviceId(k + 1)
  {
    seq(NumDevices, k requires 0 <= k < NumDevices => DeviceId(k + 1))
  }

  /** Ids below 1000 are ordered like their numbers, so they are distinct. */
  lemma DeviceIdsOrdered(i: nat, j: nat)
    requires i < j < 1000
    ensures LexLess(DeviceId(i), DeviceId(j)) && DeviceId(i) != DeviceId(j)
  {
    ZeroPad3Ordered(i, j);
    LexLessCommonPrefix("INST-", ZeroPad3(i), ZeroPad3(j));
    LexLessIrreflexive(DeviceId(i));
  }

  /** The fleet's ids are INST-001 ... INST-005. */
  lemma FleetIdsSpelledOut()
    ensures FleetIds() == ["INST-001", "INST-002", "INST-003", "INST-004", "INST-005"]
  {
    forall k | 1 <= k <= NumDevices
      ensures DeviceId(k) == "INST-" + ['0', '0', Digit(k)]
    {
      ZeroPad3Digits(k);
    }
    assert Digit(1) == '1' && Digit(2) == '2' && Digit(3) == '3' && Digit(4) == '4' && Digit(5) == '5';
    var ids := FleetIds();
    assert ids[0] == "INST-001" && ids[1] == "INST-002" && ids[2] == "INST-003";
    assert ids[3] == "INST-004" && ids[4] == "INST-005";
    assert ids == [ids[0], ids[1], ids[2], ids[3], ids[4]];
  }

  /** The fleet's ids are distinct and strictly increasing in fleet order. */
  lemma FleetIdsIncreasing()
    ensures forall i, j :: 0 <= i < j < NumDevices ==>
      LexLess(FleetIds()[i], FleetIds()[j]) && FleetIds()[i] != FleetIds()[j]
  {
    forall i, j | 0 <= i < j < NumDevices
      ensures LexLess(FleetIds()[i], FleetIds()[j]) && FleetIds()[i] != FleetIds()[j]
    {
      DeviceIdsOrdered(i + 1, j + 1);
    }
  }

  /** The draws behind one instrument's static attributes: the index of the
      random.choice of model, randint(1, 5) for the lab, and the Faker
      commissioning date. */
  datatype Setup = Setup(modelPick: nat, lab: nat, commissionDate: string)

  predicate ValidSetup(u: Setup)
  {
    u.modelPick < |Models| && 1 <= u.lab <= 5
  }

  predicate Distinct(fleet: seq<AnalyticalInstrument>)
  {
    forall i, j :: 0 <= i < j < |fleet| ==> fleet[i] != fleet[j]
  }

  /** Builds the fleet: NumDevices fresh, distinct instruments with ids
      INST-001 upward, each in the initial state. */
  method BuildFleet(setups: seq<Setup>) returns (fleet: seq<AnalyticalInstrument>)
    requires |setups| == NumDevices
    requires forall k :: 0 <= k < |setups| ==> ValidSetup(setups[k])
    ensures |fleet| == NumDevices && Distinct(fleet)
    ensures forall k :: 0 <= k < |fleet| ==>
      (ValidSetup(setups[k]) && fresh(fleet[k]) && fleet[k].deviceId == FleetIds()[k] &&
       fleet[k].model == Models[setups[k].modelPick] &&
       fleet[k].location == "Lab-" + DecimalString(setups[k].lab) &&
       fleet[k].commissionDate == setups[k].commissionDate &&
       fleet[k].State() == Initial())
  {
    fleet := [];
    var i := 0;
    while i < NumDevices
      invariant 0 <= i <= NumDevices && |fleet| == i && Distinct(fleet)
      invariant forall k :: 0 <= k < i ==>
        fresh(fleet[k]) && fleet[k].deviceId == FleetIds()[k] &&
        fleet[k].model == Models[setups[k].modelPick] &&
        fleet[k].location == "Lab-" + DecimalString(setups[k].lab) &&
        fleet[k].commissionDate == setups[k].commissionDate &&
        fleet[k].State() == Initial()
    {
      var u := setups[i];
      var inst := new AnalyticalInstrument(DeviceId(i + 1), u.modelPick, u.lab, u.commissionDate);
      fleet := fleet + [inst];
      i := i + 1;
    }
  }

  /** The states of the fleet's instruments, in fleet order. */
  function States(fleet: seq<AnalyticalInstrument>): (r: seq<OpState>)
    reads set k | 0 <= k < |fleet| :: fleet[k]
    ensures |r| == |fleet| && forall k :: 0 <= k < |fleet| ==> r[k] == fleet[k].State()
  {
    seq(|fleet|, k requires 0 <= k < |fleet| reads set j | 0 <= j < |fleet| :: fleet[j] => fleet[k].State())
  }

  /** One cycle on the states: device k takes draw k. */
  function StepAll(states: seq<OpState>, draws: seq<TickDraws>): (r: seq<OpState>)
    requires |draws| == |states|
    ensures |r| == |states| && forall k :: 0 <= k < |states| ==> r[k] == Step(states[k], draws[k])
  {
    seq(|states|, k requires 0 <= k < |states| => Step(states[k], draws[k]))
  }

  /** The records of one cycle: instrument k reports state k stamped with
      clock reading k, in fleet order. */
  function Reports(fleet: seq<AnalyticalInstrument>, states: seq<OpState>, clock: seq<int>): (r: seq<Doc>)
    requires |states| == |fleet| && |clock| == |fleet|
    ensures |r| == |fleet|
    ensures forall k :: 0 <= k < |fleet| ==> r[k] == fleet[k].Report(states[k], clock[k])
  {
    seq(|fleet|, k requires 0 <= k < |fleet| => fleet[k].Report(states[k], clock[k]))
  }

  /** One cycle: each instrument, in fleet order, ticks once with its own
      draws and reports its telemetry, stamped with its clock reading. The
      records come out in fleet order. */
  method RunCycle(fleet: seq<AnalyticalInstrument>, draws: seq<TickDraws>, clock: seq<int>)
    returns (records: seq<Doc>)
    requires |draws| == |fleet| && |clock| == |fleet| && Distinct(fleet)
    modifies set k | 0 <= k < |fleet| :: fleet[k]
    ensures States(fleet) == StepAll(old(States(fleet)), draws)
    ensures |records| == |fleet|
    ensures forall k :: 0 <= k < |fleet| ==> records[k] == fleet[k].GetTelemetry(clock[k])
    ensures records == Reports(fleet, States(fleet), clock)
  {
    records := [];
    var i := 0;
    while i < |fleet|
      invariant 0 <= i <= |fleet| && |records| == i
      invariant forall k :: 0 <= k < i ==>
        fleet[k].State() == Step(old(fleet[k].State()), draws[k]) &&
        records[k] == fleet[k].GetTelemetry(clock[k])
      invariant forall k :: i <= k < |fleet| ==> fleet[k].State() == old(fleet[k].State())
    {
      var dev := fleet[i];
      dev.Tick(draws[i]);
      var data := dev.GetTelemetry(clock[i]);
      records := records + [data];
      i := i + 1;
    }
    ghost var before, after := old(States(fleet)), States(fleet);
    assert forall k :: 0 <= k < |fleet| ==> after[k] == StepAll(before, draws)[k];
    TelemetryReports(fleet, records, clock);
  }

  /** Records that are the instruments' telemetry, in fleet order, are the
      reports of the fleet's current states. */
  lemma TelemetryReports(fleet: seq<AnalyticalInstrument>, records: seq<Doc>, clock: seq<int>)
    requires |records| == |fleet| && |clock| == |fleet|
    requires forall k :: 0 <= k < |fleet| ==> records[k] == fleet[k].GetTelemetry(clock[k])
    ensures records == Reports(fleet, States(fleet), clock)
  {
    var expected := Reports(fleet, States(fleet), clock);
    assert forall k :: 0 <= k < |fleet| ==> records[k] == expected[k];
  }

  /** The draws of device k across a run of cycles. */
  function Column(cycles: seq<seq<TickDraws>>, k: nat): (ds: seq<TickDraws>)
    requires forall c :: 0 <= c < |cycles| ==> k < |cycles[c]|
    ensures |ds| == |cycles| && forall c :: 0 <= c < |cycles| ==> ds[c] == cycles[c][k]
  {
    if cycles == [] then [] else Column(cycles[..|cycles| - 1], k) + [cycles[|cycles| - 1][k]]
  }

  /** A run of cycles on the states, the last cycle applied last. */
  function RunAll(states: seq<OpState>, cycles: seq<seq<TickDraws>>): (r: seq<OpState>)
    requires forall c :: 0 <= c < |cycles| ==> |cycles[c]| == |states|
    ensures |r| == |states|
  {
    if cycles == [] then states else StepAll(RunAll(states, cycles[..|cycles| - 1]), cycles[|cycles| - 1])
  }

  lemma TicksSnoc(s: OpState, ds: seq<TickDraws>, d: TickDraws)
    ensures Ticks(s, ds + [d]) == Step(Ticks(s, ds), d)
  {
    assert (ds + [d])[..|ds|] == ds;
  }

  /** After a run of cycles each device is in the state its own column of
      draws leads it to. */
  lemma {:induction false} RunAllTicks(states: seq<OpState>, cycles: seq<seq<TickDraws>>, k: nat)
    requires forall c :: 0 <= c < |cycles| ==> |cycles[c]| == |states|
    requires k < |states|
    ensures RunAll(states, cycles)[k] == Ticks(states[k], Column(cycles, k))
  {
    if cycles != [] {
      var init := cycles[..|cycles| - 1];
      RunAllTicks(states, init, k);
      assert Column(cycles, k) == Column(init, k) + [cycles[|cycles| - 1][k]];
      TicksSnoc(states[k], Column(init, k), cycles[|cycles| - 1][k]);
    }
  }

  /** Any run of cycles with valid draws keeps every device's invariant. */
  lemma FleetRunKeepsInv(states: seq<OpState>, cycles: seq<seq<TickDraws>>)
    requires forall c :: 0 <= c < |cycles| ==> |cycles[c]| == |states|
    requires forall k :: 0 <= k < |states| ==> Inv(states[k])
    requires forall c, k :: 0 <= c < |cycles| && 0 <= k < |cycles[c]| ==> ValidDraws(cycles[c][k])
    ensures forall k :: 0 <= k < |states| ==> Inv(RunAll(states, cycles)[k])
  {
    forall k | 0 <= k < |states| ensures Inv(RunAll(states, cycles)[k]) {
      RunAllTicks(states, cycles, k);
      TicksPreserveInv(states[k], Column(cycles, k));
    }
  }

  lemma MulSucc(c: nat, n: nat)
    ensures (c + 1) * n == c * n + n
  {
  }

  /** Every row has `width` elements. */
  predicate Rectangular<T>(rows: seq<seq<T>>, width: nat)
  {
    forall c :: 0 <= c < |rows| ==> |rows[c]| == width
  }

  lemma RectangularTake<T>(rows: seq<seq<T>>, width: nat, n: nat)
    requires Rectangular(rows, width) && n <= |rows|
    ensures Rectangular(rows[..n], width)
  {
  }

  lemma TakeSnoc<T>(xs: seq<T>, n: nat)
    requires n < |xs|
    ensures xs[..n + 1] == xs[..n] + [xs[n]]
  {
  }

  lemma TakeTake<T>(xs: seq<T>, n: nat)
    requires n < |xs|
    ensures xs[..n + 1][..n] == xs[..n]
  {
  }

  /** The blocks one after the other. */
  function Concat<T>(blocks: seq<seq<T>>): seq<T>
  {
    if blocks == [] then [] else Concat(blocks[..|blocks| - 1]) + blocks[|blocks| - 1]
  }

  lemma ConcatSnoc<T>(blocks: seq<seq<T>>, b: seq<T>)
    ensures Concat(blocks + [b]) == Concat(blocks) + b
  {
    assert (blocks + [b])[..|blocks|] == blocks;
  }

  lemma {:induction false} ConcatLength<T>(blocks: seq<seq<T>>, n: nat)
    requires Rectangular(blocks, n)
    ensures |Concat(blocks)| == |blocks| * n
  {
    if blocks != [] {
      ConcatLength(blocks[..|blocks| - 1], n);
      MulSucc(|blocks| - 1, n);
    }
  }

  /** With blocks of n elements each, element k of block c sits at c * n + k
      of the concatenation, whose length is the number of blocks times n. */
  lemma {:induction false} ConcatAt<T>(blocks: seq<seq<T>>, n: nat, c: nat, k: nat)
    requires Rectangular(blocks, n)
    requires c < |blocks| && k < n
    ensures |Concat(blocks)| == |blocks| * n
    ensures c * n + k < |Concat(blocks)| && Concat(blocks)[c * n + k] == blocks[c][k]
  {
    var m := |blocks| - 1;
    ConcatLength(blocks[..m], n);
    MulSucc(m, n);
    if c < m {
      ConcatAt(blocks[..m], n, c, k);
    }
  }

  /** The fleet's states after each cycle of a run, cycle by cycle. */
  function Snapshots(states: seq<OpState>, cycles: seq<seq<TickDraws>>): (r: seq<seq<OpState>>)
    requires Rectangular(cycles, |states|)
    ensures |r| == |cycles| && Rectangular(r, |states|)
  {
    if cycles == [] then []
    else
      RectangularTake(cycles, |states|, |cycles| - 1);
      Snapshots(states, cycles[..|cycles| - 1]) + [RunAll(states, cycles)]
  }

  lemma RunAllPrefix(states: seq<OpState>, cycles: seq<seq<TickDraws>>, m: nat, c: nat)
    requires Rectangular(cycles, |states|)
    requires c < m <= |cycles|
    ensures RunAll(states, cycles[..m][..c + 1]) == RunAll(states, cycles[..c + 1])
  {
    assert cycles[..m][..c + 1] == cycles[..c + 1];
  }

  /** Snapshot c is the state after the first c + 1 cycles. */
  lemma {:induction false} SnapshotsAt(states: seq<OpState>, cycles: seq<seq<TickDraws>>, c: nat)
    requires Rectangular(cycles, |states|)
    requires c < |cycles|
    ensures Snapshots(states, cycles)[c] == RunAll(states, cycles[..c + 1])
  {
    var m := |cycles| - 1;
    if c == m {
      assert cycles[..c + 1] == cycles;
    } else {
      RectangularTake(cycles, |states|, m);
      SnapshotsAt(states, cycles[..m], c);
      RunAllPrefix(states, cycles, m, c);
    }
  }

  /** One more cycle adds the states after it as one more snapshot. */
  lemma SnapshotsSnoc(states: seq<OpState>, cycles: seq<seq<TickDraws>>, n: nat)
    requires Rectangular(cycles, |states|)
    requires n < |cycles|
    ensures Rectangular(cycles[..n], |states|) && Rectangular(cycles[..n + 1], |states|)
    ensures Snapshots(states, cycles[..n + 1]) == Snapshots(states, cycles[..n]) + [RunAll(states, cycles[..n + 1])]
  {
    RectangularTake(cycles, |states|, n);
    RectangularTake(cycles, |states|, n + 1);
    TakeTake(cycles, n);
  }

  /** The records of each cycle, cycle by cycle: instrument k reports its
      state in that cycle's snapshot. */
  function Blocks(fleet: seq<AnalyticalInstrument>, snaps: seq<seq<OpState>>, clocks: seq<seq<int>>): (b: seq<seq<Doc>>)
    requires |clocks| == |snaps| && Rectangular(snaps, |fleet|) && Rectangular(clocks, |fleet|)
    ensures |b| == |snaps| && Rectangular(b, |fleet|)
  {
    seq(|snaps|, c requires 0 <= c < |snaps| => Reports(fleet, snaps[c], clocks[c]))
  }

  lemma BlocksSnoc(fleet: seq<AnalyticalInstrument>, snaps: seq<seq<OpState>>, clocks: seq<seq<int>>,
                   s: seq<OpState>, clock: seq<int>)
    requires |clocks| == |snaps| && Rectangular(snaps, |fleet|) && Rectangular(clocks, |fleet|)
    requires |s| == |fleet| && |clock| == |fleet|
    ensures Rectangular(snaps + [s], |fleet|) && Rectangular(clocks + [clock], |fleet|)
    ensures Blocks(fleet, snaps + [s], clocks + [clock]) == Blocks(fleet, snaps, clocks) + [Reports(fleet, s, clock)]
  {
  }

  /** The records of a run of cycles from `states`: cycle by cycle, each
      cycle's records in fleet order. */
  function AllRecords(fleet: seq<AnalyticalInstrument>, states: seq<OpState>,
                      cycles: seq<seq<TickDraws>>, clocks: seq<seq<int>>): seq<Doc>
    requires |states| == |fleet| && |clocks| == |cycles|
    requires Rectangular(cycles, |fleet|) && Rectangular(clocks, |fleet|)
  {
    Concat(Blocks(fleet, Snapshots(states, cycles), clocks))
  }

  /** One more cycle applies one more StepAll. */
  lemma RunAllSnoc(states: seq<OpState>, cycles: seq<seq<TickDraws>>, n: nat)
    requires Rectangular(cycles, |states|)
    requires n < |cycles|
    ensures RunAll(states, cycles[..n + 1]) == StepAll(RunAll(states, cycles[..n]), cycles[n])
  {
    TakeTake(cycles, n);
  }

  /** One more cycle appends that cycle's records. */
  lemma AllRecordsSnoc(fleet: seq<AnalyticalInstrument>, states: seq<OpState>,
                       cycles: seq<seq<TickDraws>>, clocks: seq<seq<int>>, n: nat)
    requires |states| == |fleet| && |clocks| == |cycles| && n < |cycles|
    requires Rectangular(cycles, |fleet|) && Rectangular(clocks, |fleet|)
    ensures Rectangular(cycles[..n], |fleet|) && Rectangular(clocks[..n], |fleet|)
    ensures Rectangular(cycles[..n + 1], |fleet|) && Rectangular(clocks[..n + 1], |fleet|)
    ensures AllRecords(fleet, states, cycles[..n + 1], clocks[..n + 1]) ==
      AllRecords(fleet, states, cycles[..n], clocks[..n]) + Reports(fleet, RunAll(states, cycles[..n + 1]), clocks[n])
  {
    RectangularTake(clocks, |fleet|, n);
    RectangularTake(clocks, |fleet|, n + 1);
    SnapshotsSnoc(states, cycles, n);
    TakeSnoc(clocks, n);
    var snaps, x := Snapshots(states, cycles[..n]), RunAll(states, cycles[..n + 1]);
    BlocksSnoc(fleet, snaps, clocks[..n], x, clocks[n]);
    ConcatSnoc(Blocks(fleet, snaps, clocks[..n]), Reports(fleet, x, clocks[n]));
  }

  /** Record c * |fleet| + k of a run is what instrument k reports after
      cycle c: its telemetry (see Report) for the state its first c + 1 draws
      lead it to, stamped with cycle c's clock reading for it. */
  lemma AllRecordsAt(fleet: seq<AnalyticalInstrument>, states: seq<OpState>,
                     cycles: seq<seq<TickDraws>>, clocks: seq<seq<int>>, c: nat, k: nat)
    requires |states| == |fleet| && |clocks| == |cycles|
    requires Rectangular(cycles, |fleet|) && Rectangular(clocks, |fleet|)
    requires c < |cycles| && k < |fleet|
    ensures |AllRecords(fleet, states, cycles, clocks)| == |cycles| * |fleet|
    ensures c * |fleet| + k < |cycles| * |fleet|
    ensures AllRecords(fleet, states, cycles, clocks)[c * |fleet| + k] ==
      fleet[k].Report(Ticks(states[k], Column(cycles[..c + 1], k)), clocks[c][k])
  {
    var blocks := Blocks(fleet, Snapshots(states, cycles), clocks);
    ConcatAt(blocks, |fleet|, c, k);
    SnapshotsAt(states, cycles, c);
    RunAllTicks(states, cycles[..c + 1], k);
  }

  /** A bounded number of cycles: after them every instrument has ticked once
      per cycle with its own draws, and the records are one per instrument
      per cycle, cycle by cycle in fleet order, each taken right after that
      instrument's tick (see AllRecordsAt). */
  method RunCycles(fleet: seq<AnalyticalInstrument>, cycles: seq<seq<TickDraws>>, clocks: seq<seq<int>>)
    returns (records: seq<Doc>)
    requires Distinct(fleet) && |clocks| == |cycles|
    requires Rectangular(cycles, |fleet|) && Rectangular(clocks, |fleet|)
    modifies set k | 0 <= k < |fleet| :: fleet[k]
    ensures |records| == |cycles| * |fleet|
    ensures States(fleet) == RunAll(old(States(fleet)), cycles)
    ensures records == AllRecords(fleet, old(States(fleet)), cycles, clocks)
  {
    records := [];
    var c := 0;
    while c < |cycles|
      invariant 0 <= c <= |cycles| && |records| == c * |fleet|
      invariant Rectangular(cycles[..c], |fleet|) && Rectangular(clocks[..c], |fleet|)
      invariant States(fleet) == RunAll(old(States(fleet)), cycles[..c])
      invariant records == AllRecords(fleet, old(States(fleet)), cycles[..c], clocks[..c])
    {
      var cycleRecords := RunCycle(fleet, cycles[c], clocks[c]);
      RunAllSnoc(old(States(fleet)), cycles, c);
      AllRecordsSnoc(fleet, old(States(fleet)), cycles, clocks, c);
      records := records + cycleRecords;
      MulSucc(c, |fleet|);
      c := c + 1;
    }
    assert cycles[..|cycles|] == cycles;
    assert clocks[..|clocks|] == clocks;
  }
}
