/** The merit-order dispatcher: a greedy single pass over the time steps that
    sends PV energy to the load, then to the virtual demand-side-management
    (DSM) store, then to the battery, then to export, and covers what load is
    left from the DSM store, then the battery, then the grid. Energies are MWh
    per step; the battery and DSM states carry from one step to the next. */
module Optimizer {
  import opened Wrappers
  import opened Numeric
  import opened Strings

  /** The guards of the source: a capacity or power below Eps9 counts as
      absent, an energy below Eps12 as nothing. */
  const Eps9: real := 0.000000001
  const Eps12: real := 0.000000000001

  /** The default step length, ten minutes in hours. */
  const TenMinutes: real := 1.0 / 6.0

  datatype MeritOrderConfig = MeritOrderConfig(
    dtHours: real,
    batteryEnergyMwh: real,
    batteryCRate: real,
    etaCharge: real,
    etaDischarge: real,
    exportOnlyFromPv: bool,
    flexibleLoadShare: real,
    maxShiftHours: real)

  /** The dataclass defaults, with the step length given. */
  function DefaultConfig(dtHours: real): MeritOrderConfig {
    MeritOrderConfig(dtHours, 0.0, 0.25, 0.95, 0.95, true, 0.0, 3.0)
  }

  // ---------------------------------------------------------------------
  // build_config_from_overrides
  // ---------------------------------------------------------------------

  /** A JSON value of a scenario's overrides as far as float() sees it: a
      list or an object is known only by its number of entries. */
  datatype OverrideValue = Null | Number(x: real) | Flag(b: bool) | Text(s: string) | Collection(size: nat)

  /** Python truthiness of an override value. */
  predicate Truthy(v: OverrideValue) {
    match v
    case Null => false
    case Number(x) => x != 0.0
    case Flag(b) => b
    case Text(s) => s != ""
    case Collection(n) => n > 0
  }

  /** float(v); None stands for the TypeError of float(None) and of a list
      or an object, and for the ValueError of a text that is no number. */
  function ToFloat(v: OverrideValue): Option<real> {
    match v
    case Null => None
    case Number(x) => Some(x)
    case Flag(b) => Some(if b then 1.0 else 0.0)
    case Text(s) => ParseFloat(s)
    case Collection(_) => None
  }

  /** float(overrides.get(key, default) or default); None when float() raises. */
  function FloatOr(overrides: map<string, OverrideValue>, key: string, default: real): (r: Option<real>)
    ensures key !in overrides || !Truthy(overrides[key]) ==> r == Some(default)
    ensures key in overrides && Truthy(overrides[key]) ==> r == ToFloat(overrides[key])
  {
    if key in overrides && Truthy(overrides[key]) then ToFloat(overrides[key]) else Some(default)
  }

  datatype ConfigError = NotConvertible(key: string)

  /** `if key in overrides: field = float(overrides[key])` */
  function SetIfPresent(overrides: map<string, OverrideValue>, key: string, current: real): Result<real, ConfigError> {
    if key !in overrides then Success(current)
    else match ToFloat(overrides[key])
      case None => Failure(NotConvertible(key))
      case Some(x) => Success(x)
  }

  /** `float(overrides.get(key, default) or default)` as a step that can fail. */
  function SetOr(overrides: map<string, OverrideValue>, key: string, default: real): Result<real, ConfigError> {
    match FloatOr(overrides, key, default)
    case None => Failure(NotConvertible(key))
    case Some(x) => Success(x)
  }

  const BatteryKey := "owned_battery_capacity_mwh"
  const CRateKey := "batt_power_c_rate"
  const EtaChargeKey := "batt_eta_charge"
  const EtaDischargeKey := "batt_eta_discharge"
  const FlexShareKey := "flexible_load_share"
  const MaxShiftKey := "max_shift_hours"

  /** The keys read, in the order they are read. */
  const ConfigKeys: seq<string> := [BatteryKey, CRateKey, EtaChargeKey, EtaDischargeKey, FlexShareKey, MaxShiftKey]

  /** float() raises on this key: the first two keys are read through `or`,
      so only a truthy value can fail; the others are read when present. */
  predicate Rejects(overrides: map<string, OverrideValue>, key: string) {
    key in overrides && ToFloat(overrides[key]).None? &&
    (key == BatteryKey || key == CRateKey ==> Truthy(overrides[key]))
  }

  function BuildConfigFromOverrides(overrides: Option<map<string, OverrideValue>>, defaultDtHours: real)
    : (r: Result<MeritOrderConfig, ConfigError>)
    ensures overrides.None? || overrides.value == map[] ==> r == Success(DefaultConfig(defaultDtHours))
    ensures r.Failure? <==>
      overrides.Some? &&
      (Rejects(overrides.value, BatteryKey) || Rejects(overrides.value, CRateKey) ||
       Rejects(overrides.value, EtaChargeKey) || Rejects(overrides.value, EtaDischargeKey) ||
       Rejects(overrides.value, FlexShareKey) || Rejects(overrides.value, MaxShiftKey))
    ensures r.Failure? ==> r.error.key in ConfigKeys && Rejects(overrides.value, r.error.key)
    ensures r.Failure? ==> forall i, j :: 0 <= i < j < |ConfigKeys| && ConfigKeys[j] == r.error.key ==>
                                      !Rejects(overrides.value, ConfigKeys[i])
    ensures r.Success? ==> r.value.dtHours == defaultDtHours && r.value.exportOnlyFromPv
    ensures r.Success? && overrides.Some? ==>
      var o := overrides.value;
      Some(r.value.batteryEnergyMwh) == FloatOr(o, BatteryKey, 0.0) &&
      Some(r.value.batteryCRate) == FloatOr(o, CRateKey, 0.25) &&
      (EtaChargeKey in o ==> Some(r.value.etaCharge) == ToFloat(o[EtaChargeKey])) &&
      (EtaDischargeKey in o ==> Some(r.value.etaDischarge) == ToFloat(o[EtaDischargeKey])) &&
      (FlexShareKey in o ==> Some(r.value.flexibleLoadShare) == ToFloat(o[FlexShareKey])) &&
      (MaxShiftKey in o ==> Some(r.value.maxShiftHours) == ToFloat(o[MaxShiftKey])) &&
      (EtaChargeKey !in o ==> r.value.etaCharge == 0.95) &&
      (EtaDischargeKey !in o ==> r.value.etaDischarge == 0.95) &&
      (FlexShareKey !in o ==> r.value.flexibleLoadShare == 0.0) &&
      (MaxShiftKey !in o ==> r.value.maxShiftHours == 3.0)
  {
    var cfg := DefaultConfig(defaultDtHours);
    if overrides.None? || overrides.value == map[] then Success(cfg)
    else
      var o := overrides.value;
      match SetOr(o, BatteryKey, 0.0)
      case Failure(e) => Failure(e)
      case Success(energy) =>
        match SetOr(o, CRateKey, 0.25)
        case Failure(e) => Failure(e)
        case Success(cRate) =>
          match SetIfPresent(o, EtaChargeKey, cfg.etaCharge)
          case Failure(e) => Failure(e)
          case Success(etaC) =>
            match SetIfPresent(o, EtaDischargeKey, cfg.etaDischarge)
            case Failure(e) => Failure(e)
            case Success(etaD) =>
              match SetIfPresent(o, FlexShareKey, cfg.flexibleLoadShare)
              case Failure(e) => Failure(e)
              case Success(flex) =>
                match SetIfPresent(o, MaxShiftKey, cfg.maxShiftHours)
                case Failure(e) => Failure(e)
                case Success(shift) =>
                  Success(cfg.(batteryEnergyMwh := energy, batteryCRate := cRate, etaCharge := etaC,
                               etaDischarge := etaD, flexibleLoadShare := flex, maxShiftHours := shift))
  }

  /** The overrides that spell out every field of a configuration read. */
  function OverridesOf(cfg: MeritOrderConfig): map<string, OverrideValue> {
    map[BatteryKey := Number(cfg.batteryEnergyMwh), CRateKey := Number(cfg.batteryCRate),
        EtaChargeKey := Number(cfg.etaCharge), EtaDischargeKey := Number(cfg.etaDischarge),
        FlexShareKey := Number(cfg.flexibleLoadShare), MaxShiftKey := Number(cfg.maxShiftHours)]
  }

  /** Writing a configuration out as overrides and reading them back gives it
      again, as long as its C-rate is not zero (`or 0.25` turns a zero C-rate
      into the default). */
  lemma ConfigRoundTrip(cfg: MeritOrderConfig)
    requires cfg.exportOnlyFromPv && cfg.batteryCRate != 0.0
    ensures BuildConfigFromOverrides(Some(OverridesOf(cfg)), cfg.dtHours) == Success(cfg)
  {
    var o := OverridesOf(cfg);
    assert o[BatteryKey] == Number(cfg.batteryEnergyMwh) && o[CRateKey] == Number(cfg.batteryCRate);
    assert o[EtaChargeKey] == Number(cfg.etaCharge) && o[EtaDischargeKey] == Number(cfg.etaDischarge);
    assert o[FlexShareKey] == Number(cfg.flexibleLoadShare) && o[MaxShiftKey] == Number(cfg.maxShiftHours);
  }

  /** A zero C-rate override is falsy and falls back to 0.25. */
  lemma ZeroCRateFallsBack(overrides: map<string, OverrideValue>, dt: real)
    requires CRateKey in overrides && overrides[CRateKey] == Number(0.0)
    ensures var r := BuildConfigFromOverrides(Some(overrides), dt);
            r.Success? ==> r.value.batteryCRate == 0.25
  {
  }

  // ---------------------------------------------------------------------
  // Limits derived once per run
  // ---------------------------------------------------------------------

  /** np.max of a non-empty array. */
  function MaxOf(s: seq<real>): (m: real)
    requires |s| > 0
    ensures forall i :: 0 <= i < |s| ==> s[i] <= m
    ensures exists i :: 0 <= i < |s| && s[i] == m
  {
    if |s| == 1 then s[0]
    else
      var rest := MaxOf(s[1..]);
      assert forall i :: 1 <= i < |s| ==> s[i] == s[1..][i - 1];
      Max(s[0], rest)
  }

  /** The per-run constants of the dispatch loop. */
  datatype Limits = Limits(
    dt: real,
    eCap: real,          // battery energy, MWh
    pCap: real,          // battery power, MW
    etaC: real,
    etaD: real,
    maxPowerMw: real,    // DSM power
    dsmEnergyCap: real)  // DSM energy, MWh

  datatype DispatchError = ShapeMismatch | EmptyLoadMax | ZeroDivision

  /** The flexible share clamped into [0, 1]. */
  function FlexShare(cfg: MeritOrderConfig): (r: real)
    ensures 0.0 <= r <= 1.0
  {
    Max(0.0, Min(1.0, cfg.flexibleLoadShare))
  }

  /** The constants computed before the loop; np.max of an empty load array
      raises, which only happens when the flexible share is positive. */
  function DeriveLimits(cfg: MeritOrderConfig, load: seq<real>): (r: Result<Limits, DispatchError>)
    ensures r.Failure? <==> FlexShare(cfg) > 0.0 && |load| == 0
    ensures r.Success? ==>
      r.value.dt == cfg.dtHours && r.value.etaC == cfg.etaCharge && r.value.etaD == cfg.etaDischarge &&
      r.value.eCap >= 0.0 && r.value.pCap >= 0.0 &&
      (cfg.batteryEnergyMwh <= 0.0 ==> r.value.eCap == 0.0 && r.value.pCap == 0.0) &&
      (cfg.batteryCRate <= 0.0 ==> r.value.pCap == 0.0) &&
      (FlexShare(cfg) == 0.0 ==> r.value.maxPowerMw == 0.0 && r.value.dsmEnergyCap == 0.0)
  {
    var eCap := Max(0.0, cfg.batteryEnergyMwh);
    var pCap := eCap * Max(0.0, cfg.batteryCRate);
    var flex := FlexShare(cfg);
    if flex > 0.0 && |load| == 0 then Failure(EmptyLoadMax)
    else
      var maxPower := if flex > 0.0 then MaxOf(load) * flex else 0.0;
      Success(Limits(cfg.dtHours, eCap, pCap, cfg.etaCharge, cfg.etaDischarge,
                     maxPower, maxPower * Max(0.0, cfg.maxShiftHours)))
  }

  // ---------------------------------------------------------------------
  // One time step
  // ---------------------------------------------------------------------

  datatype Flows = Flows(
    pvToLoad: real,
    pvToBatt: real,
    pvExport: real,
    battToLoad: real,
    gridImport: real,
    dsmCharge: real,
    dsmDischarge: real)

  datatype Stores = Stores(soc: real, dsmSoc: real)

  /** The energy of one step of a power series: max(0, MW x hours). */
  function StepEnergy(mw: real, dtHours: real): real {
    Max(0.0, mw * dtHours)
  }

  /** What one stage of the loop body does: the energy it moves, the store
      level after it, and the PV surplus or unmet load left after it. */
  datatype Stage = Stage(amount: real, store: real, rest: real)

  /** Step 1b: PV surplus into the DSM store, limited by the DSM power over
      the step, the surplus and the room left in the store. */
  function DsmCharge(l: Limits, dsmSoc: real, pvE: real): real {
    if l.dsmEnergyCap > Eps9 && pvE > Eps12 && l.maxPowerMw > Eps9 then
      var cap := Min3(l.maxPowerMw * l.dt, pvE, Max(0.0, l.dsmEnergyCap - dsmSoc));
      if cap > Eps12 then cap else 0.0
    else 0.0
  }

  function DsmChargeStage(l: Limits, dsmSoc: real, pvE: real): Stage {
    var x := DsmCharge(l, dsmSoc, pvE);
    Stage(x, dsmSoc + x, pvE - x)
  }

  /** Step 2: PV surplus into the battery, limited by the power over the
      step, the surplus and the room left divided by the charge efficiency. */
  function BatteryCharge(l: Limits, soc: real, pvE: real): real {
    if l.eCap > Eps9 && l.pCap > Eps9 && pvE > Eps12 then
      var inputMax := Min(l.pCap * l.dt, pvE);
      var room := Max(0.0, l.eCap - soc);
      var input := Min(inputMax, room / Max(l.etaC, Eps9));
      if input > Eps12 then input else 0.0
    else 0.0
  }

  /** The battery gains the input times the charge efficiency. */
  function BatteryChargeStage(l: Limits, soc: real, pvE: real): Stage {
    var x := BatteryCharge(l, soc, pvE);
    if x == 0.0 then Stage(0.0, soc, pvE) else Stage(x, soc + x * l.etaC, pvE - x)
  }

  /** Step 4: the DSM store covers remaining load, limited by the DSM power
      over the step, what it holds and the load. */
  function DsmDischarge(l: Limits, dsmSoc: real, loadE: real): real {
    if loadE > Eps12 && dsmSoc > Eps12 && l.maxPowerMw > Eps9 then
      var cap := Min3(l.maxPowerMw * l.dt, dsmSoc, loadE);
      if cap > Eps12 then cap else 0.0
    else 0.0
  }

  function DsmDischargeStage(l: Limits, dsmSoc: real, loadE: real): Stage {
    var x := DsmDischarge(l, dsmSoc, loadE);
    Stage(x, dsmSoc - x, loadE - x)
  }

  /** Step 5: the battery covers remaining load, limited by the load, the
      power over the step and the stored energy times the discharge
      efficiency. */
  function BatteryOutput(l: Limits, soc: real, loadE: real): real {
    if loadE > Eps12 && soc > Eps12 && l.pCap > Eps9 then
      var out := Min3(loadE, l.pCap * l.dt, soc * l.etaD);
      if out > Eps12 then out else 0.0
    else 0.0
  }

  /** The battery loses the output divided by the discharge efficiency;
      without output nothing changes. */
  function BatteryDischargeStage(l: Limits, soc: real, loadE: real): Stage {
    var x := BatteryOutput(l, soc, loadE);
    if x == 0.0 then Stage(0.0, soc, loadE) else Stage(x, soc - x / Max(l.etaD, Eps9), loadE - x)
  }

  /** Steps 3 and 6: a residual above Eps12 is exported or imported. */
  function Residual(e: real): real {
    if e > Eps12 then e else 0.0
  }

  /** One iteration of the dispatch loop: the flows of step t and the stores after it. */
  function DispatchStep(l: Limits, s: Stores, pvMw: real, loadMw: real): (Flows, Stores) {
    var pvE0 := StepEnergy(pvMw, l.dt);
    var loadE0 := StepEnergy(loadMw, l.dt);
    var use := Min(pvE0, loadE0);
    var dc := DsmChargeStage(l, s.dsmSoc, pvE0 - use);
    var bc := BatteryChargeStage(l, s.soc, dc.rest);
    var dd := DsmDischargeStage(l, dc.store, loadE0 - use);
    var bd := BatteryDischargeStage(l, bc.store, dd.rest);
    (Flows(use, bc.amount, Residual(bc.rest), bd.amount, Residual(bd.rest), dc.amount, dd.amount),
     Stores(bd.store, dd.store))
  }

  /** The stages of one step, in the order the loop body runs them. */
  predicate StagesOf(l: Limits, s: Stores, pvMw: real, loadMw: real, use: real, dc: Stage, bc: Stage, dd: Stage, bd: Stage) {
    && use == Min(StepEnergy(pvMw, l.dt), StepEnergy(loadMw, l.dt))
    && dc == DsmChargeStage(l, s.dsmSoc, StepEnergy(pvMw, l.dt) - use)
    && bc == BatteryChargeStage(l, s.soc, dc.rest)
    && dd == DsmDischargeStage(l, dc.store, StepEnergy(loadMw, l.dt) - use)
    && bd == BatteryDischargeStage(l, bc.store, dd.rest)
  }

  lemma StagesPvSide(l: Limits, s: Stores, pvMw: real, loadMw: real, use: real, dc: Stage, bc: Stage, dd: Stage, bd: Stage)
    requires StagesOf(l, s, pvMw, loadMw, use, dc, bc, dd, bd)
    ensures DispatchStep(l, s, pvMw, loadMw).0.pvToLoad == use
    ensures DispatchStep(l, s, pvMw, loadMw).0.dsmCharge == dc.amount
    ensures DispatchStep(l, s, pvMw, loadMw).0.pvToBatt == bc.amount
    ensures DispatchStep(l, s, pvMw, loadMw).0.pvExport == Residual(bc.rest)
  {}

  lemma StagesLoadSide(l: Limits, s: Stores, pvMw: real, loadMw: real, use: real, dc: Stage, bc: Stage, dd: Stage, bd: Stage)
    requires StagesOf(l, s, pvMw, loadMw, use, dc, bc, dd, bd)
    ensures DispatchStep(l, s, pvMw, loadMw).0.dsmDischarge == dd.amount
    ensures DispatchStep(l, s, pvMw, loadMw).0.battToLoad == bd.amount
    ensures DispatchStep(l, s, pvMw, loadMw).0.gridImport == Residual(bd.rest)
  {}

  lemma StagesStores(l: Limits, s: Stores, pvMw: real, loadMw: real, use: real, dc: Stage, bc: Stage, dd: Stage, bd: Stage)
    requires StagesOf(l, s, pvMw, loadMw, use, dc, bc, dd, bd)
    ensures DispatchStep(l, s, pvMw, loadMw).1 == Stores(bd.store, dd.store)
  {}

  /** DispatchStep spelled out stage by stage, for callers that hold the
      stages already. */
  lemma DispatchStepStages(l: Limits, s: Stores, pvMw: real, loadMw: real, use: real, dc: Stage, bc: Stage, dd: Stage, bd: Stage)
    requires StagesOf(l, s, pvMw, loadMw, use, dc, bc, dd, bd)
    ensures DispatchStep(l, s, pvMw, loadMw) ==
      (Flows(use, bc.amount, Residual(bc.rest), bd.amount, Residual(bd.rest), dc.amount, dd.amount),
       Stores(bd.store, dd.store))
  {
    StagesPvSide(l, s, pvMw, loadMw, use, dc, bc, dd, bd);
    StagesLoadSide(l, s, pvMw, loadMw, use, dc, bc, dd, bd);
    StagesStores(l, s, pvMw, loadMw, use, dc, bc, dd, bd);
  }

  /** The stages of DispatchStep, named. */
  lemma StepStages(l: Limits, s: Stores, pvMw: real, loadMw: real) returns (use: real, dc: Stage, bc: Stage, dd: Stage, bd: Stage)
    ensures StagesOf(l, s, pvMw, loadMw, use, dc, bc, dd, bd)
    ensures DispatchStep(l, s, pvMw, loadMw) ==
      (Flows(use, bc.amount, Residual(bc.rest), bd.amount, Residual(bd.rest), dc.amount, dd.amount),
       Stores(bd.store, dd.store))
  {
    use := Min(StepEnergy(pvMw, l.dt), StepEnergy(loadMw, l.dt));
    dc := DsmChargeStage(l, s.dsmSoc, StepEnergy(pvMw, l.dt) - use);
    bc := BatteryChargeStage(l, s.soc, dc.rest);
    dd := DsmDischargeStage(l, dc.store, StepEnergy(loadMw, l.dt) - use);
    bd := BatteryDischargeStage(l, bc.store, dd.rest);
    DispatchStepStages(l, s, pvMw, loadMw, use, dc, bc, dd, bd);
  }

  /** The first k iterations of the loop, starting from empty stores. */
  function RunPrefix(l: Limits, pv: seq<real>, load: seq<real>, k: nat): (r: (seq<Flows>, Stores))
    requires k <= |pv| && k <= |load|
    ensures |r.0| == k
  {
    if k == 0 then ([], Stores(0.0, 0.0))
    else
      var prev := RunPrefix(l, pv, load, k - 1);
      var step := DispatchStep(l, prev.1, pv[k - 1], load[k - 1]);
      (prev.0 + [step.0], step.1)
  }

  /** One more iteration of the loop extends the prefix by one step. */
  lemma RunPrefixNext(l: Limits, pv: seq<real>, load: seq<real>, k: nat)
    requires k < |pv| && k < |load|
    ensures RunPrefix(l, pv, load, k + 1).0 == RunPrefix(l, pv, load, k).0 + [DispatchStep(l, RunPrefix(l, pv, load, k).1, pv[k], load[k]).0]
    ensures RunPrefix(l, pv, load, k + 1).1 == DispatchStep(l, RunPrefix(l, pv, load, k).1, pv[k], load[k]).1
  {}

  // ---------------------------------------------------------------------
  // The whole run
  // ---------------------------------------------------------------------

  datatype SeriesMwh = SeriesMwh(
    pvToLoad: seq<real>,
    pvToBatt: seq<real>,
    pvExport: seq<real>,
    battToLoad: seq<real>,
    gridImport: seq<real>,
    dsmCharge: seq<real>,
    dsmDischarge: seq<real>)

  predicate SeriesLength(s: SeriesMwh, n: nat) {
    |s.pvToLoad| == n && |s.pvToBatt| == n && |s.pvExport| == n && |s.battToLoad| == n &&
    |s.gridImport| == n && |s.dsmCharge| == n && |s.dsmDischarge| == n
  }

  /** The seven per-step arrays of a sequence of flows. */
  function Series(fs: seq<Flows>): (s: SeriesMwh)
    ensures SeriesLength(s, |fs|)
    ensures forall i :: 0 <= i < |fs| ==>
      s.pvToLoad[i] == fs[i].pvToLoad && s.pvToBatt[i] == fs[i].pvToBatt &&
      s.pvExport[i] == fs[i].pvExport && s.battToLoad[i] == fs[i].battToLoad &&
      s.gridImport[i] == fs[i].gridImport && s.dsmCharge[i] == fs[i].dsmCharge &&
      s.dsmDischarge[i] == fs[i].dsmDischarge
  {
    SeriesMwh(
      seq(|fs|, i requires 0 <= i < |fs| => fs[i].pvToLoad),
      seq(|fs|, i requires 0 <= i < |fs| => fs[i].pvToBatt),
      seq(|fs|, i requires 0 <= i < |fs| => fs[i].pvExport),
      seq(|fs|, i requires 0 <= i < |fs| => fs[i].battToLoad),
      seq(|fs|, i requires 0 <= i < |fs| => fs[i].gridImport),
      seq(|fs|, i requires 0 <= i < |fs| => fs[i].dsmCharge),
      seq(|fs|, i requires 0 <= i < |fs| => fs[i].dsmDischarge))
  }

  /** The energy of a whole power series: np.sum(x) * dt. */
  function TotalEnergy(powerMw: seq<real>, dtHours: real): real {
    Sum(powerMw) * dtHours
  }

  datatype Kpis = Kpis(
    totalGenMwh: real,
    totalDemandMwh: real,
    pedAbsoluteMwh: real,
    pedRatio: real,
    selfConsumptionMwh: real,
    exportMwh: real,
    batteryThroughputMwh: real,
    gridImportMwh: real)

  /** The KPI block; Python's float division by zero raises when the demand
      is exactly -1e-9. */
  function ComputeKpis(dt: real, pv: seq<real>, load: seq<real>, s: SeriesMwh): (r: Result<Kpis, DispatchError>)
    ensures r.Failure? <==> TotalEnergy(load, dt) + Eps9 == 0.0
    ensures r.Success? ==>
      r.value.totalGenMwh == TotalEnergy(pv, dt) && r.value.totalDemandMwh == TotalEnergy(load, dt) &&
      r.value.pedAbsoluteMwh == r.value.totalGenMwh - r.value.totalDemandMwh &&
      r.value.pedRatio * (r.value.totalDemandMwh + Eps9) == r.value.totalGenMwh &&
      r.value.selfConsumptionMwh == Sum(s.pvToLoad) && r.value.exportMwh == Sum(s.pvExport) &&
      r.value.batteryThroughputMwh == Sum(s.pvToBatt) + Sum(s.battToLoad) &&
      r.value.gridImportMwh == Sum(s.gridImport)
  {
    var gen := TotalEnergy(pv, dt);
    var demand := TotalEnergy(load, dt);
    if demand + Eps9 == 0.0 then Failure(ZeroDivision)
    else
      Success(Kpis(gen, demand, gen - demand, gen / (demand + Eps9),
                   Sum(s.pvToLoad), Sum(s.pvExport), Sum(s.pvToBatt) + Sum(s.battToLoad),
                   Sum(s.gridImport)))
  }

  datatype DispatchOutput = DispatchOutput(series: SeriesMwh, kpis: Kpis, dtHours: real)

  /** MeritOrderOptimizer(cfg).run(pv, load) as a value. */
  function MeritOrder(cfg: MeritOrderConfig, pv: seq<real>, load: seq<real>): (r: Result<DispatchOutput, DispatchError>)
    ensures r == Failure(ShapeMismatch) <==> |pv| != |load|
    ensures r == Failure(EmptyLoadMax) <==> |pv| == |load| == 0 && FlexShare(cfg) > 0.0
    ensures r == Failure(ZeroDivision) <==>
      |pv| == |load| && !(|load| == 0 && FlexShare(cfg) > 0.0) && TotalEnergy(load, cfg.dtHours) + Eps9 == 0.0
    ensures r.Success? ==> SeriesLength(r.value.series, |pv|) && r.value.dtHours == cfg.dtHours
    ensures r.Success? ==> Success(r.value.kpis) == ComputeKpis(cfg.dtHours, pv, load, r.value.series)
  {
    if |pv| != |load| then Failure(ShapeMismatch)
    else match DeriveLimits(cfg, load)
      case Failure(e) => Failure(e)
      case Success(l) =>
        var series := Series(RunPrefix(l, pv, load, |pv|).0);
        match ComputeKpis(cfg.dtHours, pv, load, series)
        case Failure(e) => Failure(e)
        case Success(k) => Success(DispatchOutput(series, k, cfg.dtHours))
  }

  /** Step 1b of the loop body. */
  method ChargeDsm(l: Limits, dsmSoc0: real, pvE0: real) returns (r: Stage)
    ensures r == DsmChargeStage(l, dsmSoc0, pvE0)
  {
    var dsmSoc, pvE := dsmSoc0, pvE0;
    var charge := 0.0;
    if l.dsmEnergyCap > Eps9 && pvE > Eps12 && l.maxPowerMw > Eps9 {
      var chargeCap := Min3(l.maxPowerMw * l.dt, pvE, Max(0.0, l.dsmEnergyCap - dsmSoc));
      if chargeCap > Eps12 {
        charge := chargeCap;
        dsmSoc := dsmSoc + chargeCap;
        pvE := pvE - chargeCap;
      }
    }
    r := Stage(charge, dsmSoc, pvE);
  }

  /** Step 2 of the loop body. */
  method ChargeBattery(l: Limits, soc0: real, pvE0: real) returns (r: Stage)
    ensures r == BatteryChargeStage(l, soc0, pvE0)
  {
    var soc, pvE := soc0, pvE0;
    var charge := 0.0;
    if l.eCap > Eps9 && l.pCap > Eps9 && pvE > Eps12 {
      var chargeInputMax := Min(l.pCap * l.dt, pvE);
      var capRoom := Max(0.0, l.eCap - soc);
      var chargeInput := Min(chargeInputMax, capRoom / Max(l.etaC, Eps9));
      if chargeInput > Eps12 {
        soc := soc + chargeInput * l.etaC;
        charge := chargeInput;
        pvE := pvE - chargeInput;
      }
    }
    assert charge == BatteryCharge(l, soc0, pvE0);
    r := Stage(charge, soc, pvE);
  }

  /** Step 4 of the loop body. */
  method DischargeDsm(l: Limits, dsmSoc0: real, loadE0: real) returns (r: Stage)
    ensures r == DsmDischargeStage(l, dsmSoc0, loadE0)
  {
    var dsmSoc, loadE := dsmSoc0, loadE0;
    var discharge := 0.0;
    if loadE > Eps12 && dsmSoc > Eps12 && l.maxPowerMw > Eps9 {
      var dispatchCap := Min3(l.maxPowerMw * l.dt, dsmSoc, loadE);
      if dispatchCap > Eps12 {
        discharge := dispatchCap;
        dsmSoc := dsmSoc - dispatchCap;
        loadE := loadE - dispatchCap;
      }
    }
    r := Stage(discharge, dsmSoc, loadE);
  }

  /** Step 5 of the loop body. */
  method DischargeBattery(l: Limits, soc0: real, loadE0: real) returns (r: Stage)
    ensures r == BatteryDischargeStage(l, soc0, loadE0)
  {
    var soc, loadE := soc0, loadE0;
    var output := 0.0;
    if loadE > Eps12 && soc > Eps12 && l.pCap > Eps9 {
      var maxOutput := Min3(loadE, l.pCap * l.dt, soc * l.etaD);
      if maxOutput > Eps12 {
        output := maxOutput;
        soc := soc - maxOutput / Max(l.etaD, Eps9);
        loadE := loadE - maxOutput;
      }
    }
    assert output == BatteryOutput(l, soc0, loadE0);
    r := Stage(output, soc, loadE);
  }

  /** The body of the loop of MeritOrderOptimizer.run for step t: it updates
      the running PV and load energies and the two stores and returns what
      the source writes into the seven arrays at index t (zero where it
      leaves the initial zero). */
  method DispatchOne(l: Limits, soc0: real, dsmSoc0: real, pvMw: real, loadMw: real)
    returns (f: Flows, soc: real, dsmSoc: real)
    ensures (f, Stores(soc, dsmSoc)) == DispatchStep(l, Stores(soc0, dsmSoc0), pvMw, loadMw)
  {
    var pvE := StepEnergy(pvMw, l.dt);
    var loadE := StepEnergy(loadMw, l.dt);

    // 1) PV -> Load
    var use := Min(pvE, loadE);
    var dc := ChargeDsm(l, dsmSoc0, pvE - use);
    var bc := ChargeBattery(l, soc0, dc.rest);
    // 3) PV -> Export (remaining)
    var pvExport := if bc.rest > Eps12 then bc.rest else 0.0;
    var dd := DischargeDsm(l, dc.store, loadE - use);
    var bd := DischargeBattery(l, bc.store, dd.rest);
    // 6) Grid import for any residual load
    var gridImport := if bd.rest > Eps12 then bd.rest else 0.0;

    f := Flows(use, bc.amount, pvExport, bd.amount, gridImport, dc.amount, dd.amount);
    soc, dsmSoc := bd.store, dd.store;
    DispatchStepStages(l, Stores(soc0, dsmSoc0), pvMw, loadMw, use, dc, bc, dd, bd);
  }

  /** The loop of MeritOrderOptimizer.run. The source keeps seven parallel
      zero-initialised arrays; here one array holds the seven values of each
      step, filled by index while the battery and DSM states carry over. */
  method DispatchAll(l: Limits, pvMw: seq<real>, loadMw: seq<real>) returns (series: SeriesMwh)
    requires |pvMw| == |loadMw|
    ensures series == Series(RunPrefix(l, pvMw, loadMw, |pvMw|).0)
  {
    var n := |pvMw|;
    var soc := 0.0;
    var dsmSoc := 0.0;
    var steps := new Flows[n](_ => Flows(0.0, 0.0, 0.0, 0.0, 0.0, 0.0, 0.0));

    for t := 0 to n
      invariant steps[..t] == RunPrefix(l, pvMw, loadMw, t).0
      invariant Stores(soc, dsmSoc) == RunPrefix(l, pvMw, loadMw, t).1
    {
      RunPrefixNext(l, pvMw, loadMw, t);
      var f;
      f, soc, dsmSoc := DispatchOne(l, soc, dsmSoc, pvMw[t], loadMw[t]);
      steps[t] := f;
      assert steps[..t + 1] == steps[..t] + [f];
    }
    assert steps[..] == steps[..n];
    series := Series(steps[..]);
  }

  /** MeritOrderOptimizer.run: shape check, per-run limits, the dispatch
      loop and the KPI block. */
  method Run(cfg: MeritOrderConfig, pvMw: seq<real>, loadMw: seq<real>) returns (r: Result<DispatchOutput, DispatchError>)
    ensures r == MeritOrder(cfg, pvMw, loadMw)
  {
    if |pvMw| != |loadMw| {
      return Failure(ShapeMismatch);
    }
    // e_cap, p_cap, the DSM power and energy caps, and the np.max failure
    var limits := DeriveLimits(cfg, loadMw);
    if limits.Failure? {
      return Failure(limits.error);
    }
    var l := limits.value;
    var series := DispatchAll(l, pvMw, loadMw);
    // the KPI block; dividing by a zero demand + 1e-9 raises
    var kpis := ComputeKpis(l.dt, pvMw, loadMw, series);
    if kpis.Failure? {
      return Failure(kpis.error);
    }
    r := Success(DispatchOutput(series, kpis.value, l.dt));
  }
}
