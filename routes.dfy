/** The arithmetic and the small state machines embedded in the HTTP and
    WebSocket handlers of backend/routes.py: the history-limit clamp, the
    PED report, the energy-series window, the inputs and unit conversion of
    the optimizer endpoint, the WebSocket command loop and the stale-run
    status refresh. */
module Routes {
  import opened Wrappers
  import opened Numeric
  import opened Optimizer
  import opened Simulation
  import opened Strings

  // ---------------------------------------------------------------------
  // Python slicing
  // ---------------------------------------------------------------------

  /** `s[start:stop]` for non-negative bounds: both are clipped to the
      length, and a stop before the start gives an empty slice. */
  function Slice<T>(s: seq<T>, start: nat, stop: nat): (r: seq<T>)
    ensures |r| == if MinInt(stop, |s|) <= start then 0 else MinInt(stop, |s|) - start
    ensures forall i :: 0 <= i < |r| ==> r[i] == s[start + i]
  {
    var lo := MinInt(start, |s|);
    var hi := MinInt(stop, |s|);
    if hi <= lo then [] else s[lo..hi]
  }

  /** `s[:k]`. */
  function Take<T>(s: seq<T>, k: nat): (r: seq<T>)
    ensures |r| == MinInt(k, |s|) && r == s[..|r|]
  {
    s[..MinInt(k, |s|)]
  }

  lemma TakeAppend<T>(s: seq<T>, k1: nat, k2: nat)
    requires k1 <= k2 <= |s|
    ensures Take(s, k2) == Take(s, k1) + s[k1..k2]
  {
    assert s[..k2] == s[..k1] + s[k1..k2];
  }

  // ---------------------------------------------------------------------
  // get_run_history
  // ---------------------------------------------------------------------

  /** The number of stored snapshots a history request may return. */
  function HistoryLimit(limit: int): (r: int)
    ensures 1 <= r <= 1000
    ensures 1 <= limit <= 1000 ==> r == limit
    ensures limit < 1 ==> r == 1
    ensures limit > 1000 ==> r == 1000
  {
    MaxInt(1, MinInt(limit, 1000))
  }

  // ---------------------------------------------------------------------
  // get_run_ped
  // ---------------------------------------------------------------------

  /** The PED endpoint assumes ten-minute steps. */
  const StepHours: real := 10.0 / 60.0

  /** The rows the PED report covers: at least one, at most the data. */
  function PedWindow(t: int, n: nat): (upto: nat)
    ensures 1 <= upto
    ensures n > 0 ==> upto <= n
    ensures 1 <= t <= n ==> upto == t
    ensures t < 1 || n == 0 ==> upto == 1
    ensures t > n > 0 ==> upto == n
  {
    MaxInt(1, MinInt(t, n))
  }

  datatype PedReport = PedReport(steps: nat, periodHours: real, totalGenMwh: real,
                                 totalDemandMwh: real, pedAbsoluteMwh: real, pedRatio: real)

  datatype RouteError = DivisionByZero | DispatchFailed(e: DispatchError) | ConfigFailed(c: ConfigError)

  /** Renewable generation per row over a window. */
  function Generation(wind: seq<real>, solar: seq<real>, hydro: seq<real>): (r: seq<real>)
    requires |wind| == |solar| == |hydro|
    ensures |r| == |wind| && forall i :: 0 <= i < |r| ==> r[i] == wind[i] + solar[i] + hydro[i]
  {
    AddSeq(AddSeq(wind, solar), hydro)
  }

  /** The PED report over the first `upto` rows, at ten minutes per row;
      Python's float division by zero raises when the demand is -1e-9. */
  function Ped(t: int, wind: seq<real>, solar: seq<real>, hydro: seq<real>, load: seq<real>)
    : (r: Result<PedReport, RouteError>)
    requires |wind| == |solar| == |hydro| == |load|
    ensures var upto := PedWindow(t, |load|);
            var gen := TotalEnergy(Generation(Take(wind, upto), Take(solar, upto), Take(hydro, upto)), StepHours);
            var demand := TotalEnergy(Take(load, upto), StepHours);
            && (r.Failure? <==> demand + Eps9 == 0.0)
            && (r.Success? ==>
                  && r.value.steps == upto && r.value.periodHours == upto as real * StepHours
                  && r.value.totalGenMwh == gen && r.value.totalDemandMwh == demand
                  && r.value.pedAbsoluteMwh == gen - demand
                  && r.value.pedRatio * (demand + Eps9) == gen)
  {
    var upto := PedWindow(t, |load|);
    var gen := TotalEnergy(Generation(Take(wind, upto), Take(solar, upto), Take(hydro, upto)), StepHours);
    var demand := TotalEnergy(Take(load, upto), StepHours);
    if demand + Eps9 == 0.0 then Failure(DivisionByZero)
    else Success(PedReport(upto, upto as real * StepHours, gen, demand, gen - demand, gen / (demand + Eps9)))
  }

  /** The row-by-row reading of the PED totals: generation is the sum of
      (wind + solar + hydro) / 6 over the rows in the window. */
  function RowEnergies(power: seq<real>): (r: seq<real>)
    ensures |r| == |power| && forall i :: 0 <= i < |r| ==> r[i] == power[i] / 6.0
  {
    seq(|power|, i requires 0 <= i < |power| => power[i] / 6.0)
  }

  lemma TotalEnergyByRows(power: seq<real>)
    ensures TotalEnergy(power, StepHours) == Sum(RowEnergies(power))
  {
    SumScale(power, StepHours);
    assert ScaleSeq(power, StepHours) == RowEnergies(power);
  }

  /** With non-negative data, the PED totals only grow as the cursor moves. */
  lemma {:induction false} PedTotalsGrow(x: seq<real>, k1: nat, k2: nat)
    requires k1 <= k2
    requires forall i :: 0 <= i < |x| ==> 0.0 <= x[i]
    ensures 0.0 <= TotalEnergy(Take(x, k1), StepHours) <= TotalEnergy(Take(x, k2), StepHours)
  {
    var a := Take(x, k1);
    var b := Take(x, k2);
    var rest := x[|a|..|b|];
    TakeAppend(x, |a|, |b|);
    assert Take(x, |a|) == a && Take(x, |b|) == b;
    SumAppend(a, rest);
    SumNonNegative(a);
    SumNonNegative(rest);
    MulMonotone(0.0, Sum(a), StepHours);
    MulMonotone(Sum(a), Sum(b), StepHours);
  }

  /** The PED report of a session over the fallback environment. */
  function SessionPed(s: Session): (r: Result<PedReport, RouteError>)
    reads s, s.env
    requires s.env.Aligned()
    ensures r.Success? ==> 1 <= r.value.steps && (|s.env.load| > 0 ==> r.value.steps <= |s.env.load|)
    ensures r.Success? && 1 <= s.env.t <= |s.env.load| ==> r.value.steps == s.env.t
  {
    Ped(s.env.t, s.env.wind, s.env.solar, s.env.hydro, s.env.load)
  }

  // ---------------------------------------------------------------------
  // get_energy_series
  // ---------------------------------------------------------------------

  /** The window `[start, upto)` ending at the cursor and at most `limit`
      (itself clamped into [1, 50000]) rows long. */
  function SeriesWindow(t: int, limit: int): (w: (nat, nat))
    ensures 0 <= w.0 < w.1
    ensures w.1 == MaxInt(1, t)
    ensures w.1 - w.0 == MinInt(w.1, MaxInt(1, MinInt(limit, 50000)))
  {
    var upto := MaxInt(1, t);
    var start := MaxInt(0, upto - MaxInt(1, MinInt(limit, 50000)));
    (start, upto)
  }

  datatype EnergySeries = EnergySeries(start: nat, end: nat, steps: seq<int>,
                                       timestamps: Option<seq<string>>,
                                       genMw: seq<real>, loadMw: seq<real>)

  function Range(lo: int, hi: int): (r: seq<int>)
    ensures |r| == if hi <= lo then 0 else hi - lo
    ensures forall i :: 0 <= i < |r| ==> r[i] == lo + i
  {
    if hi <= lo then [] else seq(hi - lo, i requires 0 <= i < hi - lo => lo + i)
  }

  /** The energy-series payload: generation and load over the window, the
      step indices and, when the table has them, the timestamps. */
  function GetEnergySeries(t: int, limit: int, wind: seq<real>, solar: seq<real>, hydro: seq<real>,
                           load: seq<real>, timestamps: Option<seq<string>>): (r: EnergySeries)
    requires |wind| == |solar| == |hydro| == |load|
    ensures (r.start, r.end) == SeriesWindow(t, limit)
    ensures r.steps == Range(r.start, r.end)
    ensures r.timestamps.Some? <==> timestamps.Some?
    ensures timestamps.Some? ==>
              var ts := r.timestamps.value;
              |ts| == |Slice(timestamps.value, r.start, r.end)| &&
              forall i :: 0 <= i < |ts| ==> ts[i] == timestamps.value[r.start + i]
    ensures |r.genMw| == |r.loadMw| == |Slice(load, r.start, r.end)|
    ensures forall i :: 0 <= i < |r.genMw| ==>
              r.genMw[i] == wind[r.start + i] + solar[r.start + i] + hydro[r.start + i] &&
              r.loadMw[i] == load[r.start + i]
    ensures 0 < t <= |load| ==> |r.genMw| == |r.steps|
  {
    var (start, upto) := SeriesWindow(t, limit);
    var ts := if timestamps.Some? then Some(Slice(timestamps.value, start, upto)) else None;
    EnergySeries(start, upto, Range(start, upto), ts,
                 Generation(Slice(wind, start, upto), Slice(solar, start, upto), Slice(hydro, start, upto)),
                 Slice(load, start, upto))
  }

  /** Before the first step the window still covers row 0, so on an empty
      table the step list is longer than the data. */
  lemma EmptyTableSeries(limit: int)
    ensures var r := GetEnergySeries(0, limit, [], [], [], [], None);
            r.steps == [0] && r.genMw == [] && r.loadMw == []
  {
    var r := GetEnergySeries(0, limit, [], [], [], [], None);
    assert r.steps == Range(0, 1);
  }

  // ---------------------------------------------------------------------
  // optimize_run_merit_order
  // ---------------------------------------------------------------------

  /** The time step of the optimizer run: ten minutes unless the first two
      timestamps of the window are a positive number of hours apart.
      Timestamps are seconds; None is a timestamp the parser rejected. */
  function InferDt(t: int, timestamps: Option<seq<Option<real>>>): (dt: real)
    ensures dt > 0.0
    ensures timestamps.None? || t <= 1 ==> dt == TenMinutes
    ensures dt != TenMinutes ==>
              t > 1 && timestamps.Some? && |timestamps.value| >= 2 &&
              timestamps.value[0].Some? && timestamps.value[1].Some? &&
              dt == (timestamps.value[1].value - timestamps.value[0].value) / 3600.0
    ensures t > 1 && timestamps.Some? && |timestamps.value| >= 2 &&
            timestamps.value[0].Some? && timestamps.value[1].Some? &&
            timestamps.value[1].value - timestamps.value[0].value > 0.0 ==>
              dt == (timestamps.value[1].value - timestamps.value[0].value) / 3600.0
  {
    if timestamps.Some? && t > 1 && |timestamps.value| >= 2
       && timestamps.value[0].Some? && timestamps.value[1].Some?
    then
      var delta := (timestamps.value[1].value - timestamps.value[0].value) / 3600.0;
      if delta > 0.0 then delta else TenMinutes
    else TenMinutes
  }

  /** MWh per step back to MW: each entry divided by the step length, kept
      away from zero. */
  function PerHour(x: seq<real>, dt: real): (r: seq<real>)
    ensures |r| == |x|
    ensures forall i :: 0 <= i < |r| ==> r[i] * Max(dt, Eps9) == x[i]
  {
    var d := Max(dt, Eps9);
    seq(|x|, i requires 0 <= i < |x| => DivideBack(x[i], d))
  }

  function DivideBack(e: real, d: real): (p: real)
    requires d > 0.0
    ensures p * d == e
  {
    e / d
  }

  /** The `series_mw` block: the seven series of the run in MW, each key's
      `_mwh` suffix read as `_mw`. */
  type SeriesMw = SeriesMwh

  /** Every entry of `mw` is the matching entry of `mwh` per hour of `d`. */
  predicate ScaledBack(mw: seq<real>, mwh: seq<real>, d: real) {
    |mw| == |mwh| && forall i :: 0 <= i < |mw| ==> mw[i] * d == mwh[i]
  }

  function ToMw(s: SeriesMwh, dt: real): (r: SeriesMw)
    ensures var d := Max(dt, Eps9);
            && ScaledBack(r.pvToLoad, s.pvToLoad, d) && ScaledBack(r.pvToBatt, s.pvToBatt, d)
            && ScaledBack(r.pvExport, s.pvExport, d) && ScaledBack(r.battToLoad, s.battToLoad, d)
            && ScaledBack(r.gridImport, s.gridImport, d) && ScaledBack(r.dsmCharge, s.dsmCharge, d)
            && ScaledBack(r.dsmDischarge, s.dsmDischarge, d)
  {
    SeriesMwh(PerHour(s.pvToLoad, dt), PerHour(s.pvToBatt, dt), PerHour(s.pvExport, dt),
              PerHour(s.battToLoad, dt), PerHour(s.gridImport, dt), PerHour(s.dsmCharge, dt),
              PerHour(s.dsmDischarge, dt))
  }

  datatype OptimizeReport = OptimizeReport(config: MeritOrderConfig, output: DispatchOutput, seriesMw: SeriesMw)

  /** The optimizer endpoint: the solar and load columns up to the cursor,
      the inferred step, the scenario's overrides, one merit-order run and
      the series converted to MW. */
  function Optimize(overrides: Option<map<string, OverrideValue>>, t: nat, solar: seq<real>, load: seq<real>,
                    timestamps: Option<seq<Option<real>>>): (r: Result<OptimizeReport, RouteError>)
    ensures r.Success? ==>
              var n := MinInt(t, |load|);
              && r.value.config.dtHours == InferDt(t, timestamps)
              && r.value.output.dtHours == r.value.config.dtHours
              && SeriesLength(r.value.output.series, n) && SeriesLength(r.value.seriesMw, n)
              && Success(r.value.output) == MeritOrder(r.value.config, Take(solar, t), Take(load, t))
    ensures r.Success? ==>
              && Success(r.value.config) == BuildConfigFromOverrides(overrides, InferDt(t, timestamps))
              && r.value.seriesMw == ToMw(r.value.output.series, r.value.output.dtHours)
    ensures (r.Failure? && r.error.ConfigFailed?) <==> BuildConfigFromOverrides(overrides, InferDt(t, timestamps)).Failure?
    ensures (r.Failure? && r.error.DispatchFailed?) <==>
              var cfg := BuildConfigFromOverrides(overrides, InferDt(t, timestamps));
              cfg.Success? && MeritOrder(cfg.value, Take(solar, t), Take(load, t)).Failure?
    ensures r.Failure? ==> r.error.ConfigFailed? || r.error.DispatchFailed?
    ensures |solar| == |load| ==> r != Failure(DispatchFailed(ShapeMismatch))
  {
    var dt := InferDt(t, timestamps);
    match BuildConfigFromOverrides(overrides, dt)
    case Failure(e) => Failure(ConfigFailed(e))
    case Success(cfg) =>
      match MeritOrder(cfg, Take(solar, t), Take(load, t))
      case Failure(e) => Failure(DispatchFailed(e))
      case Success(out) =>
        Success(OptimizeReport(cfg, out, ToMw(out.series, out.dtHours)))
  }

  // ---------------------------------------------------------------------
  // run_stream
  // ---------------------------------------------------------------------

  function LowerChar(c: char): (d: char)
    ensures 'A' <= c <= 'Z' ==> d as int == c as int + 32
    ensures !('A' <= c <= 'Z') ==> d == c
    ensures !('A' <= d <= 'Z')
  {
    if 'A' <= c <= 'Z' then (c as int + 32) as char else c
  }

  /** `str.lower` on ASCII letters. */
  function Lower(s: string): (r: string)
    ensures |r| == |s| && forall i :: 0 <= i < |s| ==> r[i] == LowerChar(s[i])
  {
    seq(|s|, i requires 0 <= i < |s| => LowerChar(s[i]))
  }

  lemma LowerIdempotent(s: string)
    ensures Lower(Lower(s)) == Lower(s)
  {
    forall i | 0 <= i < |s| ensures LowerChar(LowerChar(s[i])) == LowerChar(s[i]) {
    }
  }

  /** A message received on the socket: a JSON object, given by its
      `command` and `steps` entries, or a text that is not JSON or whose JSON
      value is not an object, on which `receive_json` or `message.get` raises. */
  datatype Message =
    | Message(command: Option<string>, steps: Option<PyValue>)
    | NotAnObject

  /** `str(message.get("command", "")).lower()` of an object message. */
  function CommandName(m: Message): string {
    if m.Message? then Lower(m.command.GetOr("")) else ""
  }

  datatype Command = Ping | StepCommand | StateCommand | UnknownCommand

  /** The command a message names, compared after lower-casing; a message
      without one names the empty command. */
  function Classify(m: Message): Command {
    var cmd := CommandName(m);
    if cmd == "ping" then Ping
    else if cmd == "step" then StepCommand
    else if cmd == "state" then StateCommand
    else UnknownCommand
  }

  /** Each command is recognised exactly when the lower-cased name is its
      own, whatever the letter case it was sent in. */
  lemma ClassifyNames(m: Message)
    ensures Classify(m) == Ping <==> CommandName(m) == "ping"
    ensures Classify(m) == StepCommand <==> CommandName(m) == "step"
    ensures Classify(m) == StateCommand <==> CommandName(m) == "state"
    ensures Classify(m) == UnknownCommand <==> CommandName(m) !in {"ping", "step", "state"}
  {
  }

  /** Python's `int()` on the values a JSON message can carry: floats are
      truncated toward zero, texts are read as decimal integers. */
  function ToInt(v: PyValue): (r: Option<int>)
    ensures v.PInt? ==> r == Some(v.i)
    ensures v.PFloat? ==> r.Some? && (r.value as real) * v.x >= 0.0 &&
                          Abs(r.value as real) <= Abs(v.x) < Abs(r.value as real) + 1.0
    ensures v.PStr? ==> r == ParseInt(v.s)
    ensures (v.PNone? || v.PList? || v.PDict?) ==> r.None?
    decreases v
  {
    match v
    case PInt(i) => Some(i)
    case PBool(b) => Some(if b then 1 else 0)
    case PFloat(x) => Some(if x >= 0.0 then x.Floor else -((-x).Floor))
    case PStr(s) => ParseInt(s)
    case NpScalar(item) => ToInt(item)
    case _ => None
  }

  function Abs(x: real): real {
    if x >= 0.0 then x else -x
  }

  /** The step count a message asks for: 1 when it gives none. */
  function StepsOf(m: Message): Option<int> {
    if m.NotAnObject? then None
    else if m.steps.None? then Some(1) else ToInt(m.steps.value)
  }

  /** A message the loop cannot answer: one that is not a JSON object, or a
      step command whose step count `int()` rejects. Either raises into the
      stream's generic handler. */
  predicate Malformed(m: Message) {
    m.NotAnObject? || (Classify(m) == StepCommand && StepsOf(m).None?)
  }

  /** A step count sent as decimal text is read as that number. */
  lemma TextStepCount(n: nat)
    ensures var m := Message(Some("step"), Some(PStr(NatDigits(n))));
            !Malformed(m) && Moves(m) && StepsOf(m) == Some(n as int)
  {
    var m := Message(Some("step"), Some(PStr(NatDigits(n))));
    ParseIntNat(n);
    assert StepsOf(m) == ParseInt(NatDigits(n));
    var l := Lower("step");
    assert l[0] == 's' && l[1] == 't' && l[2] == 'e' && l[3] == 'p';
    assert CommandName(m) == l == "step";
  }

  /** The index of the first malformed message, or the number of messages. */
  function FirstMalformed(ms: seq<Message>): (k: nat)
    ensures k <= |ms|
    ensures forall j :: 0 <= j < k ==> !Malformed(ms[j])
    ensures k < |ms| ==> Malformed(ms[k])
  {
    if ms == [] then 0
    else if Malformed(ms[0]) then 0
    else 1 + FirstMalformed(ms[1..])
  }

  /** The messages before the first malformed one are well-formed. */
  lemma PastFirstMalformed(ms: seq<Message>, i: nat)
    requires i <= FirstMalformed(ms) && i < |ms|
    ensures Malformed(ms[i]) <==> i == FirstMalformed(ms)
  {
  }

  datatype Reply = Pong | State(payload: Snapshot) | Error(message: string) | Fatal

  datatype StreamEnd = Disconnected | Closed(code: int)

  /** The reply a well-formed message gets. */
  predicate Answers(m: Message, r: Reply, sessionId: string) {
    match Classify(m)
    case Ping => r == Pong
    case StepCommand => r.State? && r.payload.sessionId == sessionId
    case StateCommand => r.State? && r.payload.sessionId == sessionId
    case UnknownCommand => r == Error("Unknown command")
  }

  /** A step command with a step count `int()` accepts: the only message
      that moves the session. */
  predicate Moves(m: Message) {
    Classify(m) == StepCommand && StepsOf(m).Some?
  }

  /** The cursor and the step count of a session over `n` rows after it
      answered `msg`, from cursor `p.0` and count `p.1`. */
  function Advanced(p: (nat, nat), n: nat, msg: Message): (r: (nat, nat))
    requires p.0 <= n
    ensures r.0 <= n
  {
    if Moves(msg) then
      var steps := StepsOf(msg).value;
      (Stepped(p.0, n, steps), p.1 + StepCalls(p.0, n, steps))
    else p
  }

  /** The cursor and the step count after answering every message of `ms`. */
  function Replay(t: nat, taken: nat, n: nat, ms: seq<Message>): (r: (nat, nat))
    requires t <= n
    ensures r.0 <= n && r.1 >= taken
    decreases |ms|
  {
    if ms == [] then (t, taken)
    else Advanced(Replay(t, taken, n, ms[..|ms| - 1]), n, ms[|ms| - 1])
  }

  /** What a State reply reports about the session: its cursor and count. */
  predicate Reports(r: Reply, p: (nat, nat)) {
    r.State? ==> r.payload.metrics.timestep == p.0 && r.payload.metrics.stepsTaken == p.1
  }

  /** The cursor and the count after the first `j` messages. */
  function ReplayAt(t: nat, taken: nat, n: nat, ms: seq<Message>, j: nat): (r: (nat, nat))
    requires t <= n && j <= |ms|
    ensures r.0 <= n
  {
    Replay(t, taken, n, ms[..j])
  }

  /** Answering message `i` moves the session on from where the first `i`
      messages left it. */
  lemma ReplayNext(t: nat, taken: nat, n: nat, ms: seq<Message>, i: nat)
    requires t <= n && i < |ms|
    ensures ReplayAt(t, taken, n, ms, i + 1) == Advanced(ReplayAt(t, taken, n, ms, i), n, ms[i])
  {
    assert ms[..i + 1][..i] == ms[..i];
  }

  /** How many messages move the session. */
  function MovesCount(ms: seq<Message>): (k: nat)
    ensures k <= |ms|
    decreases |ms|
  {
    if ms == [] then 0
    else MovesCount(ms[..|ms| - 1]) + (if Moves(ms[|ms| - 1]) then 1 else 0)
  }

  /** Messages that do not step leave the cursor and the count alone. */
  lemma {:induction false} ReplayWithoutSteps(t: nat, taken: nat, n: nat, ms: seq<Message>)
    requires t <= n && MovesCount(ms) == 0
    ensures Replay(t, taken, n, ms) == (t, taken)
    decreases |ms|
  {
    if ms != [] {
      ReplayWithoutSteps(t, taken, n, ms[..|ms| - 1]);
    }
  }

  /** Every step command counts at least one step, and at most what it asked for. */
  lemma {:induction false} ReplayCountsSteps(t: nat, taken: nat, n: nat, ms: seq<Message>)
    requires t <= n
    ensures Replay(t, taken, n, ms).1 >= taken + MovesCount(ms)
    ensures Replay(t, taken, n, ms).1 <= taken + AskedSteps(ms)
    decreases |ms|
  {
    if ms != [] {
      ReplayCountsSteps(t, taken, n, ms[..|ms| - 1]);
    }
  }

  /** The steps the messages ask for, `max(1, steps)` per step command. */
  function AskedSteps(ms: seq<Message>): (k: nat)
    decreases |ms|
  {
    if ms == [] then 0
    else
      var m := ms[|ms| - 1];
      AskedSteps(ms[..|ms| - 1]) + (if Moves(m) then MaxInt(1, StepsOf(m).value) else 0)
  }

  /** One pass of the command loop: the reply to a message, or None when
      its step count does not convert. */
  method Answer(m: SimulationManager, id: string, msg: Message) returns (reply: Option<Reply>)
    requires m.Valid() && id in m.sessions
    modifies m.sessions[id], m.sessions[id].env
    ensures m.Valid() && m.sessions == old(m.sessions)
    ensures reply.None? <==> Malformed(msg)
    ensures reply.Some? ==> Answers(msg, reply.value, id)
    ensures var s := m.sessions[id];
            Moves(msg) ==>
              var steps := StepsOf(msg).value;
              var t0 := old(s.env.t);
              var c := StepCalls(t0, |s.env.load|, steps);
              && reply == Some(State(BuildStateSnapshot(s)))
              && s.stepsTaken == old(s.stepsTaken) + c
              && s.env.t == Stepped(t0, |s.env.load|, steps)
              && s.env.lastRevenue == s.env.RevenueAt(t0 + c - 1)
              && (EndsInReset(t0, |s.env.load|, steps) ==> s.Restarted())
              && (!EndsInReset(t0, |s.env.load|, steps) ==> s.Ongoing())
    ensures Classify(msg) == StateCommand ==> reply == Some(State(BuildStateSnapshot(m.sessions[id])))
    ensures !Moves(msg) ==> unchanged(m.sessions[id], m.sessions[id].env)
    ensures var s := m.sessions[id];
            (s.env.t, s.stepsTaken) == Advanced(old((s.env.t, s.stepsTaken)), |s.env.load|, msg)
    ensures reply.Some? ==> Reports(reply.value, (m.sessions[id].env.t, m.sessions[id].stepsTaken))
  {
    if msg.NotAnObject? {
      return None;
    }
    match Classify(msg) {
      case Ping =>
        reply := Some(Pong);
      case StepCommand =>
        var steps := StepsOf(msg);
        if steps.None? {
          return None;
        }
        var snap := m.StepSession(id, steps.value);
        reply := Some(State(snap.value));
      case StateCommand =>
        var s := m.GetSession(id);
        reply := Some(State(BuildStateSnapshot(s.value)));
      case UnknownCommand =>
        reply := Some(Error("Unknown command"));
    }
  }

  /** The replies and the close of the command loop: one answer per message
      up to the first malformed one, then the fatal reply and code 1011 if
      there is one, else a disconnect. */
  predicate Outcome(messages: seq<Message>, replies: seq<Reply>, end: StreamEnd, id: string) {
    var k := FirstMalformed(messages);
    && (k == |messages| ==> |replies| == |messages| && end == Disconnected)
    && (k < |messages| ==> |replies| == k + 1 && replies[k] == Fatal && end == Closed(1011))
    && (forall i :: 0 <= i < k ==> Answers(messages[i], replies[i], id))
  }

  /** The session of the command loop starts at `start` over `n` rows and
      ends at `finish`, where Replay of the answered messages puts it; each
      state reply reports Replay of the messages up to and including its own. */
  predicate Tracks(messages: seq<Message>, replies: seq<Reply>, n: nat, start: (nat, nat), finish: (nat, nat))
    requires start.0 <= n && FirstMalformed(messages) <= |replies|
  {
    var k := FirstMalformed(messages);
    && finish == ReplayAt(start.0, start.1, n, messages, k)
    && forall i :: 0 <= i < k ==> Reports(replies[i], ReplayAt(start.0, start.1, n, messages, i + 1))
  }

  /** The command loop of `run_stream` over an open session: answers each
      message until the messages run out or a step count fails to convert,
      which ends with a fatal error and close code 1011. */
  method Serve(m: SimulationManager, id: string, messages: seq<Message>)
    returns (replies: seq<Reply>, end: StreamEnd)
    requires m.Valid() && id in m.sessions
    modifies m.sessions[id], m.sessions[id].env
    ensures m.Valid() && m.sessions == old(m.sessions)
    ensures Outcome(messages, replies, end, id)
    ensures var s := m.sessions[id];
            Tracks(messages, replies, |s.env.load|, (old(s.env.t), old(s.stepsTaken)), (s.env.t, s.stepsTaken))
  {
    var s := m.sessions[id];
    ghost var t0, taken0, n := s.env.t, s.stepsTaken, |s.env.load|;
    ghost var positions: seq<(nat, nat)> := [];
    replies := [];
    var i := 0;
    while i < |messages|
      invariant 0 <= i <= FirstMalformed(messages)
      invariant m.Valid() && m.sessions == old(m.sessions) && s == m.sessions[id]
      invariant |replies| == i
      invariant forall j :: 0 <= j < i ==> Answers(messages[j], replies[j], id)
      invariant (s.env.t, s.stepsTaken) == ReplayAt(t0, taken0, n, messages, i)
      invariant |positions| == i
      invariant forall j :: 0 <= j < i ==> Reports(replies[j], positions[j])
      invariant forall j :: 0 <= j < i ==> positions[j] == ReplayAt(t0, taken0, n, messages, j + 1)
    {
      ghost var at := (s.env.t, s.stepsTaken);
      PastFirstMalformed(messages, i);
      var reply := Answer(m, id, messages[i]);
      if reply.None? {
        return replies + [Fatal], Closed(1011);
      }
      ReplayNext(t0, taken0, n, messages, i);
      assert (s.env.t, s.stepsTaken) == Advanced(at, n, messages[i]) == ReplayAt(t0, taken0, n, messages, i + 1);
      ghost var before := replies;
      replies := replies + [reply.value];
      forall j | 0 <= j <= i
        ensures Answers(messages[j], replies[j], id)
      {
        if j < i {
          assert replies[j] == before[j];
        }
      }
      ghost var seen := positions;
      positions := positions + [(s.env.t, s.stepsTaken)];
      forall j | 0 <= j <= i
        ensures Reports(replies[j], positions[j])
        ensures positions[j] == ReplayAt(t0, taken0, n, messages, j + 1)
      {
        if j < i {
          assert replies[j] == before[j] && positions[j] == seen[j];
        }
      }
      i := i + 1;
    }
    end := Disconnected;
  }

  /** `run_stream`: checks the run's session, sends its state, then serves
      the messages. */
  method RunStream(m: SimulationManager, sessionId: Option<string>, messages: seq<Message>)
    returns (replies: seq<Reply>, end: StreamEnd)
    requires m.Valid()
    modifies if sessionId.Some? && sessionId.value in m.sessions
             then {m.sessions[sessionId.value], m.sessions[sessionId.value].env} else {}
    ensures m.Valid() && m.sessions == old(m.sessions)
    ensures sessionId.None? || sessionId.value == "" ==>
              replies == [Error("Run has no active session")] && end == Closed(4400)
    ensures sessionId.Some? && sessionId.value != "" && sessionId.value !in m.sessions ==>
              replies == [Error("Simulation session expired")] && end == Closed(4404)
    ensures sessionId.Some? && sessionId.value in m.sessions && sessionId.value != "" ==>
              var s := m.sessions[sessionId.value];
              && 1 <= |replies| && replies[0] == old(State(BuildStateSnapshot(s)))
              && Outcome(messages, replies[1..], end, sessionId.value)
              && Tracks(messages, replies[1..], |s.env.load|, (old(s.env.t), old(s.stepsTaken)), (s.env.t, s.stepsTaken))
  {
    if sessionId.None? || sessionId.value == "" {
      return [Error("Run has no active session")], Closed(4400);
    }
    var id := sessionId.value;
    var found := m.GetSession(id);
    if found.Failure? {
      return [Error("Simulation session expired")], Closed(4404);
    }
    var initial := State(BuildStateSnapshot(found.value));
    var answers;
    answers, end := Serve(m, id, messages);
    replies := [initial] + answers;
    assert replies[1..] == answers;
  }

  // ---------------------------------------------------------------------
  // _refresh_run_status_if_needed
  // ---------------------------------------------------------------------

  datatype Status = Pending | Running | Completed | Failed | Cancelled

  /** The columns of a persisted run that the refresh looks at. */
  class RunRecord {
    var status: Status
    var sessionId: Option<string>

    constructor (status: Status, sessionId: Option<string>)
      ensures this.status == status && this.sessionId == sessionId
    {
      this.status := status;
      this.sessionId := sessionId;
    }
  }

  /** A run points at a session the registry no longer holds; an empty id
      is falsy and does not count. */
  predicate Stale(sessionId: Option<string>, live: set<string>) {
    sessionId.Some? && sessionId.value != "" && sessionId.value !in live
  }

  /** The status and session id of a run after the refresh. */
  function Refreshed(status: Status, sessionId: Option<string>, live: set<string>): (r: (Status, Option<string>))
    ensures Stale(sessionId, live) ==> r == (Completed, None)
    ensures !Stale(sessionId, live) ==> r == (status, sessionId)
    ensures !Stale(r.1, live)
  {
    if Stale(sessionId, live) then (Completed, None) else (status, sessionId)
  }

  lemma RefreshIdempotent(status: Status, sessionId: Option<string>, live: set<string>)
    ensures var r := Refreshed(status, sessionId, live);
            Refreshed(r.0, r.1, live) == r
  {
  }

  method RefreshRunStatusIfNeeded(run: RunRecord, m: SimulationManager)
    modifies run
    ensures (run.status, run.sessionId) == Refreshed(old(run.status), old(run.sessionId), m.sessions.Keys)
  {
    if run.sessionId.Some? && run.sessionId.value != "" && run.sessionId.value !in m.sessions {
      run.status := Completed;
      run.sessionId := None;
    }
  }
}
