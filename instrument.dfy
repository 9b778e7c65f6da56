/** One simulated analytical instrument (class AnalyticalInstrument of
    simulator.py): its operational state, the four status transitions, the
    per-tick state machine with its metric model and temperature smoothing,
    and the telemetry record it reports.

    Every random draw of the source is an explicit input: a `real` in [0, 1)
    for each random.random() (random.uniform(a, b) is a + (b - a) * random(),
    exactly as CPython computes it) and the chosen value for each randint and
    choice. */
module Instrument {
  import opened Records
  import opened Text

  /** The status of an instrument. MAINTENANCE is named by the source but no
      rule ever assigns it; it is kept so that this can be proved. */
  datatype Status = Idle | Running | Error | Maintenance

  function StatusName(st: Status): string
  {
    match st
    case Idle => "IDLE"
    case Running => "RUNNING"
    case Error => "ERROR"
    case Maintenance => "MAINTENANCE"
  }

  function ParseStatus(name: string): Option<Status>
  {
    if name == "IDLE" then Some(Idle)
    else if name == "RUNNING" then Some(Running)
    else if name == "ERROR" then Some(Error)
    else if name == "MAINTENANCE" then Some(Maintenance)
    else None
  }

  datatype ErrorCode = ErrOverheat | ErrCalibration | ErrSensorFail

  function ErrorCodeName(e: ErrorCode): string
  {
    match e
    case ErrOverheat => "ERR_OVERHEAT"
    case ErrCalibration => "ERR_CALIBRATION"
    case ErrSensorFail => "ERR_SENSOR_FAIL"
  }

  function ParseErrorCode(name: string): Option<ErrorCode>
  {
    if name == "ERR_OVERHEAT" then Some(ErrOverheat)
    else if name == "ERR_CALIBRATION" then Some(ErrCalibration)
    else if name == "ERR_SENSOR_FAIL" then Some(ErrSensorFail)
    else None
  }

  /** The instrument models random.choice picks from. */
  const Models: seq<string> := ["Spectro-X200", "Chroma-9000", "AnalyzePro-V1"]

  // Transition probabilities and metric constants of tick().
  const StartChance: real := 0.1
  const FinishChance: real := 0.05
  const FailChance: real := 0.02
  const ResolveChance: real := 0.2
  const RunTemperature: real := 60.0
  const IdleTemperature: real := 22.0
  const IdleVibration: real := 0.01
  const Smoothing: real := 0.1

  /** The mutable part of an instrument: status, metrics, error code,
      operator and the hidden temperature target. */
  datatype OpState = OpState(
    status: Status,
    temperature: real,
    vibration: real,
    throughput: int,
    errorCode: Option<ErrorCode>,
    operatorId: Option<string>,
    tempTarget: real)

  /** The state every instrument starts in. */
  function Initial(): OpState
  {
    OpState(Idle, 25.0, IdleVibration, 0, None, None, 25.0)
  }

  /** f"OP-{n}" */
  function OperatorId(n: nat): string
  {
    "OP-" + DecimalString(n)
  }

  /** The shape of an operator id drawn with randint(10, 99): "OP-" and two
      digits, the first not zero. */
  predicate IsOperatorId(o: string)
  {
    |o| == 5 && o[..3] == "OP-" && '1' <= o[3] <= '9' && IsDigit(o[4])
  }

  /** A number drawn from [10, 99] gives a well-formed operator id that
      reads back as that number. */
  lemma OperatorIdShape(n: nat)
    ensures 10 <= n <= 99 ==> IsOperatorId(OperatorId(n)) && DigitsValue(OperatorId(n)[3..]) == n
  {
    if 10 <= n <= 99 {
      assert DecimalString(n) == [Digit(n / 10), Digit(n % 10)];
      assert OperatorId(n)[3..] == DecimalString(n);
      DecimalStringRoundTrip(n);
    }
  }

  /** The state invariant the transitions keep: the status is IDLE, RUNNING
      or ERROR; an error code is present exactly in ERROR; a running
      instrument has an operator. (An operator may outlive its run: the
      error transitions do not clear it.) */
  predicate Inv(s: OpState)
  {
    s.status != Maintenance &&
    (s.errorCode.Some? <==> s.status == Error) &&
    (s.status == Running ==> s.operatorId.Some? && IsOperatorId(s.operatorId.value))
  }

  lemma InitialInv()
    ensures Inv(Initial()) && Initial().status == Idle
  {
  }

  // ---------------------------------------------------------------------
  // The four transitions

  /** start_run: RUNNING, a fresh operator, no error code. */
  function Started(s: OpState, operatorNum: nat): (r: OpState)
    ensures 10 <= operatorNum <= 99 ==> Inv(r)
    ensures r.status == Running && r.errorCode == None
    ensures r.temperature == s.temperature && r.tempTarget == s.tempTarget
  {
    OperatorIdShape(operatorNum);
    s.(status := Running, operatorId := Some(OperatorId(operatorNum)), errorCode := None)
  }

  /** finish_run: IDLE without an operator; the error code is left alone. */
  function Finished(s: OpState): (r: OpState)
    ensures Inv(s) && s.status == Running ==> Inv(r)
    ensures r.status == Idle && r.operatorId == None && r.errorCode == s.errorCode
  {
    s.(status := Idle, operatorId := None)
  }

  /** trigger_error: ERROR with an error code; the operator is left alone. */
  function Errored(s: OpState, code: ErrorCode): (r: OpState)
    ensures Inv(r)
    ensures r.status == Error && r.operatorId == s.operatorId
  {
    s.(status := Error, errorCode := Some(code))
  }

  /** resolve_error: IDLE without an error code; the operator is left alone. */
  function Resolved(s: OpState): (r: OpState)
    ensures Inv(r)
    ensures r.status == Idle && r.operatorId == s.operatorId
  {
    s.(status := Idle, errorCode := None)
  }

  // ---------------------------------------------------------------------
  // One tick

  /** The random draws one tick may consume. */
  datatype TickDraws = TickDraws(
    first: real,          // random.random(), the first transition test
    second: real,         // random.random(), the error test while RUNNING
    operatorNum: nat,     // randint(10, 99) in start_run
    code: ErrorCode,      // random.choice of the error code in trigger_error
    targetDraw: real,     // random.random() behind uniform(-5, 5)
    vibrationDraw: real,  // random.random() behind the vibration uniform
    throughputDraw: int)  // randint(10, 20)

  predicate IsUnit(u: real) { 0.0 <= u < 1.0 }

  /** What Python's random module guarantees of the draws. */
  predicate ValidDraws(d: TickDraws)
  {
    IsUnit(d.first) && IsUnit(d.second) && 10 <= d.operatorNum <= 99 &&
    IsUnit(d.targetDraw) && IsUnit(d.vibrationDraw) && 10 <= d.throughputDraw <= 20
  }

  /** random.uniform(lo, hi) given the underlying random.random() draw u. */
  function Uniform(lo: real, hi: real, u: real): (r: real)
    ensures lo <= hi && IsUnit(u) ==> lo <= r <= hi
  {
    var width := hi - lo;
    ScaledUnit(width, u);
    lo + width * u
  }

  lemma ScaledUnit(w: real, u: real)
    ensures w >= 0.0 && IsUnit(u) ==> 0.0 <= w * u <= w
  {
    if w >= 0.0 && IsUnit(u) {
      assert w - w * u == w * (1.0 - u);
    }
  }

  /** Step 1 of tick(): at most one status transition. */
  function Transition(s: OpState, d: TickDraws): OpState
  {
    match s.status
    case Idle => if d.first < StartChance then Started(s, d.operatorNum) else s
    case Running =>
      if d.first < FinishChance then Finished(s)
      else if d.second < FailChance then Errored(s, d.code)
      else s
    case Error => if d.first < ResolveChance then Resolved(s) else s
    case Maintenance => s
  }

  /** Step 2 of tick(): metrics recomputed from the (post-transition) status. */
  function Metrics(s: OpState, d: TickDraws): OpState
  {
    if s.status == Running then
      s.(tempTarget := RunTemperature + Uniform(-5.0, 5.0, d.targetDraw),
         vibration := Uniform(0.1, 0.4, d.vibrationDraw),
         throughput := d.throughputDraw)
    else if s.status == Error then
      s.(vibration := Uniform(0.5, 1.2, d.vibrationDraw), throughput := 0)
    else
      s.(tempTarget := IdleTemperature, vibration := IdleVibration, throughput := 0)
  }

  /** Step 3 of tick(): move the temperature a tenth of the way to the target. */
  function Smooth(s: OpState): OpState
  {
    s.(temperature := s.temperature + (s.tempTarget - s.temperature) * Smoothing)
  }

  /** tick(): the whole step. */
  function Step(s: OpState, d: TickDraws): OpState
  {
    Smooth(Metrics(Transition(s, d), d))
  }

  /** A number of ticks in a row, the last draw applied last. */
  function Ticks(s: OpState, ds: seq<TickDraws>): OpState
  {
    if ds == [] then s else Step(Ticks(s, ds[..|ds| - 1]), ds[|ds| - 1])
  }

  // ---------------------------------------------------------------------
  // Properties of one tick

  /** A tick keeps the state invariant: it never reaches MAINTENANCE, it
      keeps the error code present exactly in ERROR, and a running instrument
      keeps an operator. */
  lemma StepPreservesInv(s: OpState, d: TickDraws)
    requires Inv(s) && ValidDraws(d)
    ensures Inv(Step(s, d))
  {
    var t := Transition(s, d);
    assert Inv(t);
    assert Metrics(t, d).status == t.status && Metrics(t, d).errorCode == t.errorCode;
  }

  /** The status moves along at most one edge of IDLE -> RUNNING,
      RUNNING -> IDLE, RUNNING -> ERROR, ERROR -> IDLE per tick. */
  predicate Edge(a: Status, b: Status)
  {
    (a == Idle && b == Running) || (a == Running && b == Idle) ||
    (a == Running && b == Error) || (a == Error && b == Idle)
  }

  lemma StepStatusEdges(s: OpState, d: TickDraws)
    ensures var t := Step(s, d); t.status == s.status || Edge(s.status, t.status)
    // finishing is tested before failing: a RUNNING instrument whose first draw
    // fires goes to IDLE whatever the second draw is
    ensures s.status == Running && d.first < FinishChance ==> Step(s, d).status == Idle
    // draws above every threshold leave the status alone
    ensures d.first >= ResolveChance && d.second >= FailChance ==> Step(s, d).status == s.status
    // the transitions fire exactly when their draw is below the threshold
    ensures s.status == Idle ==> (Step(s, d).status == Running <==> d.first < StartChance)
    ensures s.status == Running ==>
      (Step(s, d).status == Error <==> d.first >= FinishChance && d.second < FailChance)
    ensures s.status == Running ==> (Step(s, d).status == Idle <==> d.first < FinishChance)
    ensures s.status == Error ==> (Step(s, d).status == Idle <==> d.first < ResolveChance)
  {
  }

  /** After a tick the metrics depend only on the post-transition status. */
  lemma StepMetrics(s: OpState, d: TickDraws)
    requires ValidDraws(d)
    ensures var t := Step(s, d);
      (t.status == Running ==>
         0.1 <= t.vibration <= 0.4 && 10 <= t.throughput <= 20 && 55.0 <= t.tempTarget <= 65.0) &&
      (t.status == Error ==>
         0.5 <= t.vibration <= 1.2 && t.throughput == 0 && t.tempTarget == s.tempTarget) &&
      (t.status != Running && t.status != Error ==>
         t.tempTarget == IdleTemperature && t.vibration == IdleVibration && t.throughput == 0)
  {
    var u := Transition(s, d);
    assert u.tempTarget == s.tempTarget;
  }

  /** The temperature moves a tenth of the way from its old value to the new
      target: it stays between the two, and the gap shrinks to 0.9 of itself. */
  lemma StepTemperature(s: OpState, d: TickDraws)
    ensures var t := Step(s, d);
      t.temperature - s.temperature == 0.1 * (t.tempTarget - s.temperature) &&
      (s.temperature <= t.tempTarget ==> s.temperature <= t.temperature <= t.tempTarget) &&
      (t.tempTarget <= s.temperature ==> t.tempTarget <= t.temperature <= s.temperature) &&
      t.tempTarget - t.temperature == 0.9 * (t.tempTarget - s.temperature)
  {
    assert Metrics(Transition(s, d), d).temperature == s.temperature;
  }

  /** How far a temperature is from the running band [55, 65]. */
  function BandDistance(x: real): (r: real)
    ensures r >= 0.0 && (r == 0.0 <==> 55.0 <= x <= 65.0)
  {
    if x < 55.0 then 55.0 - x else if x > 65.0 then x - 65.0 else 0.0
  }

  /** A tick that ends RUNNING keeps a temperature inside [55, 65] inside it
      and shrinks its distance to the band to at most 0.9 of what it was. */
  lemma RunningTickApproachesBand(s: OpState, d: TickDraws)
    requires ValidDraws(d) && Step(s, d).status == Running
    ensures BandDistance(Step(s, d).temperature) <= 0.9 * BandDistance(s.temperature)
  {
    StepMetrics(s, d);
    StepTemperature(s, d);
  }

  /** 0.9^n * d: a distance after n contractions by 0.9. */
  function Decayed(d: real, n: nat): real
  {
    if n == 0 then d else 0.9 * Decayed(d, n - 1)
  }

  /** Every tick of ds, applied from s, ends RUNNING. */
  predicate StaysRunning(s: OpState, ds: seq<TickDraws>)
  {
    ds == [] || (StaysRunning(s, ds[..|ds| - 1]) && Ticks(s, ds).status == Running)
  }

  /** While an instrument stays RUNNING, n ticks bring its temperature to
      within 0.9^n of the initial distance from the band [55, 65]. */
  lemma {:induction false} RunningTicksConverge(s: OpState, ds: seq<TickDraws>)
    requires forall k :: 0 <= k < |ds| ==> ValidDraws(ds[k])
    requires StaysRunning(s, ds)
    ensures BandDistance(Ticks(s, ds).temperature) <= Decayed(BandDistance(s.temperature), |ds|)
  {
    if ds != [] {
      var n := |ds|;
      var prefix := ds[..n - 1];
      RunningTicksConverge(s, prefix);
      RunningTickApproachesBand(Ticks(s, prefix), ds[n - 1]);
    }
  }

  /** Any number of ticks keeps the invariant; in particular MAINTENANCE is
      never reached from the initial state. */
  lemma {:induction false} TicksPreserveInv(s: OpState, ds: seq<TickDraws>)
    requires Inv(s) && forall k :: 0 <= k < |ds| ==> ValidDraws(ds[k])
    ensures Inv(Ticks(s, ds)) && Ticks(s, ds).status != Maintenance
  {
    if ds != [] {
      TicksPreserveInv(s, ds[..|ds| - 1]);
      StepPreservesInv(Ticks(s, ds[..|ds| - 1]), ds[|ds| - 1]);
    }
  }

  /** The operator outlives its run: from the initial state, a first tick
      starts a run and a second one fails it; the instrument is then in ERROR
      and still holds the operator of that run, so "operator set" does not
      imply RUNNING. */
  lemma OperatorOutlivesRun()
    ensures var d0 := TickDraws(0.0, 0.5, 42, ErrOverheat, 0.5, 0.5, 15);
      var d1 := TickDraws(0.5, 0.0, 42, ErrOverheat, 0.5, 0.5, 15);
      var s := Ticks(Initial(), [d0, d1]);
      ValidDraws(d0) && ValidDraws(d1) && Inv(s) &&
      s.status == Error && s.operatorId == Some(OperatorId(42))
  {
    var d0 := TickDraws(0.0, 0.5, 42, ErrOverheat, 0.5, 0.5, 15);
    var d1 := TickDraws(0.5, 0.0, 42, ErrOverheat, 0.5, 0.5, 15);
    assert [d0, d1][..1] == [d0];
    assert [d0][..0] == [];
    assert Ticks(Initial(), []) == Initial();
    var s1 := Ticks(Initial(), [d0]);
    assert s1 == Step(Ticks(Initial(), []), d0);
    assert s1.status == Running && s1.operatorId == Some(OperatorId(42));
    assert Ticks(Initial(), [d0, d1]) == Step(s1, d1);
    InitialInv();
    TicksPreserveInv(Initial(), [d0, d1]);
  }

  /** Starting from 25.0 with a run target of exactly 60.0, one tick gives 28.5. */
  lemma FirstRunningTick()
    ensures var d := TickDraws(0.0, 0.5, 42, ErrOverheat, 0.5, 0.5, 15);
      var s := Initial().(temperature := 25.0);
      ValidDraws(d) && Step(s, d).status == Running && Step(s, d).tempTarget == 60.0 &&
      Step(s, d).temperature == 28.5
  {
  }

  // ---------------------------------------------------------------------
  // The telemetry record

  /** The content of one telemetry record. */
  datatype Telemetry = Telemetry(
    deviceId: string,
    timestamp: int,
    status: Status,
    temperature: real,
    vibration: real,
    throughput: int,
    operator: Option<string>,
    errorCode: Option<ErrorCode>,
    model: string,
    location: string)

  /** The record as get_telemetry lays it out: device_id, timestamp, status,
      a nested metrics dictionary and a nested meta dictionary. */
  function Encode(t: Telemetry): Doc
  {
    map[
      "device_id" := Leaf(Str(t.deviceId)),
      "timestamp" := Leaf(Int(t.timestamp)),
      "status" := Leaf(Str(StatusName(t.status))),
      "metrics" := Nested(map[
        "temperature" := Num(t.temperature),
        "vibration" := Num(t.vibration),
        "throughput" := Int(t.throughput)]),
      "meta" := Nested(map[
        "operator" := OptionalText(t.operator),
        "error_code" := OptionalText(if t.errorCode.Some? then Some(ErrorCodeName(t.errorCode.value)) else None),
        "model" := Str(t.model),
        "location" := Str(t.location)])]
  }

  function TextAt(d: Doc, key: string): Option<string>
  {
    if key in d && d[key].Leaf? && d[key].scalar.Str? then Some(d[key].scalar.s) else None
  }

  function NestedAt(d: Doc, key: string): Option<map<string, Scalar>>
  {
    if key in d && d[key].Nested? then Some(d[key].fields) else None
  }

  function RealIn(m: map<string, Scalar>, key: string): Option<real>
  {
    if key in m && m[key].Num? then Some(m[key].x) else None
  }

  function IntIn(m: map<string, Scalar>, key: string): Option<int>
  {
    if key in m && m[key].Int? then Some(m[key].i) else None
  }

  function TextIn(m: map<string, Scalar>, key: string): Option<string>
  {
    if key in m && m[key].Str? then Some(m[key].s) else None
  }

  /** Some(None) for a stored null, Some(Some(t)) for a stored text. */
  function OptionalTextIn(m: map<string, Scalar>, key: string): Option<Option<string>>
  {
    if key in m && m[key] == Null then Some(None)
    else if key in m && m[key].Str? then Some(Some(m[key].s))
    else None
  }

  /** Reads a telemetry record back; None when the document does not have
      the record's shape. */
  function Decode(d: Doc): Option<Telemetry>
  {
    var id :- TextAt(d, "device_id");
    var ts :- if "timestamp" in d && d["timestamp"] .Leaf? && d["timestamp"].scalar.Int?
              then Some(d["timestamp"].scalar.i) else None;
    var statusName :- TextAt(d, "status");
    var status :- ParseStatus(statusName);
    var metrics :- NestedAt(d, "metrics");
    var meta :- NestedAt(d, "meta");
    var temperature :- RealIn(metrics, "temperature");
    var vibration :- RealIn(metrics, "vibration");
    var throughput :- IntIn(metrics, "throughput");
    var operator :- OptionalTextIn(meta, "operator");
    var codeName :- OptionalTextIn(meta, "error_code");
    var code :- if codeName.None? then Some(None)
                else var c :- ParseErrorCode(codeName.value); Some(Some(c));
    var model :- TextIn(meta, "model");
    var location :- TextIn(meta, "location");
    Some(Telemetry(id, ts, status, temperature, vibration, throughput, operator, code, model, location))
  }

  lemma StatusNameRoundTrip(st: Status)
    ensures ParseStatus(StatusName(st)) == Some(st)
  {
  }

  lemma ErrorCodeNameRoundTrip(e: ErrorCode)
    ensures ParseErrorCode(ErrorCodeName(e)) == Some(e)
  {
  }

  /** Every field of the record reads back as it was written. */
  lemma EncodeDecode(t: Telemetry)
    ensures Decode(Encode(t)) == Some(t)
  {
    StatusNameRoundTrip(t.status);
    if t.errorCode.Some? { ErrorCodeNameRoundTrip(t.errorCode.value); }
  }

  // ---------------------------------------------------------------------
  // The instrument object

  class AnalyticalInstrument {
    const deviceId: string
    const model: string
    const location: string
    const commissionDate: string

    var status: Status
    var temperature: real
    var vibration: real
    var throughput: int
    var errorCode: Option<ErrorCode>
    var operatorId: Option<string>
    var tempTarget: real

    /** The operational state as a value. */
    function State(): OpState
      reads this
    {
      OpState(status, temperature, vibration, throughput, errorCode, operatorId, tempTarget)
    }

    /** A new instrument: the model is Models[modelPick], the location
        "Lab-<lab>", the commissioning date is given; the state is initial. */
    constructor (id: string, modelPick: nat, lab: nat, commissioned: string)
      requires modelPick < |Models|
      ensures deviceId == id && model == Models[modelPick]
      ensures location == "Lab-" + DecimalString(lab) && commissionDate == commissioned
      ensures State() == Initial() && Inv(State())
    {
      deviceId := id;
      model := Models[modelPick];
      location := "Lab-" + DecimalString(lab);
      commissionDate := commissioned;
      status := Idle;
      temperature := 25.0;
      vibration := IdleVibration;
      throughput := 0;
      errorCode := None;
      operatorId := None;
      tempTarget := 25.0;
    }

    method StartRun(operatorNum: nat)
      modifies this
      ensures State() == Started(old(State()), operatorNum)
    {
      status := Running;
      operatorId := Some(OperatorId(operatorNum));
      errorCode := None;
    }

    method FinishRun()
      modifies this
      ensures State() == Finished(old(State()))
    {
      status := Idle;
      operatorId := None;
    }

    method TriggerError(code: ErrorCode)
      modifies this
      ensures State() == Errored(old(State()), code)
    {
      status := Error;
      errorCode := Some(code);
    }

    method ResolveError()
      modifies this
      ensures State() == Resolved(old(State()))
    {
      status := Idle;
      errorCode := None;
    }

    /** Advances this instrument by one step. */
    method Tick(d: TickDraws)
      modifies this
      ensures State() == Step(old(State()), d)
    {
      // 1. at most one status transition
      if status == Idle {
        if d.first < StartChance {
          StartRun(d.operatorNum);
        }
      } else if status == Running {
        if d.first < FinishChance {
          FinishRun();
        } else if d.second < FailChance {
          TriggerError(d.code);
        }
      } else if status == Error {
        if d.first < ResolveChance {
          ResolveError();
        }
      }
      ghost var afterTransition := State();
      assert afterTransition == Transition(old(State()), d);

      // 2. metrics from the new status
      if status == Running {
        tempTarget := RunTemperature + Uniform(-5.0, 5.0, d.targetDraw);
        vibration := Uniform(0.1, 0.4, d.vibrationDraw);
        throughput := d.throughputDraw;
      } else if status == Error {
        vibration := Uniform(0.5, 1.2, d.vibrationDraw);
        throughput := 0;
      } else {
        tempTarget := IdleTemperature;
        vibration := IdleVibration;
        throughput := 0;
      }
      assert State() == Metrics(afterTransition, d);

      // 3. smooth the temperature toward the target
      temperature := temperature + (tempTarget - temperature) * Smoothing;
    }

    /** The record this instrument reports when in state `s` at clock
        reading `now`: its static attributes and every field of `s`. */
    function Report(s: OpState, now: int): (r: Doc)
      ensures Decode(r) == Some(Telemetry(deviceId, now, s.status, s.temperature, s.vibration, s.throughput,
                                          s.operatorId, s.errorCode, model, location))
    {
      var t := Telemetry(deviceId, now, s.status, s.temperature, s.vibration, s.throughput,
                         s.operatorId, s.errorCode, model, location);
      EncodeDecode(t);
      Encode(t)
    }

    /** get_telemetry: a record of the current state, stamped with the clock
        reading `now`; it reports every field as it currently is. */
    function GetTelemetry(now: int): (r: Doc)
      reads this
      ensures Decode(r) == Some(Telemetry(deviceId, now, status, temperature, vibration, throughput,
                                          operatorId, errorCode, model, location))
    {
      Report(State(), now)
    }
  }
}
