/** What the merit-order dispatch guarantees: stores stay within their
    capacities, every step accounts for its PV and its load, PV serves the
    load before anything else, and the KPIs bound one another. */
module DispatchProperties {
  import opened Wrappers
  import opened Numeric
  import opened Optimizer

  // ---------------------------------------------------------------------
  // Efficiency arithmetic
  // ---------------------------------------------------------------------

  /** An input no larger than the room divided by the (guarded) charge
      efficiency stores no more than the room. */
  lemma ChargeFitsRoom(room: real, x: real, eta: real)
    requires 0.0 <= room && 0.0 <= x && 0.0 <= eta
    requires x <= room / Max(eta, Eps9)
    ensures x * eta <= room
  {
    var m := Max(eta, Eps9);
    var q := room / m;
    assert 0.0 < m && eta <= m;
    assert q * m == room;
    MulMonotone(x, q, m);
    assert x * m <= room;
    MulMonotone(eta, m, x);
    assert x * eta <= x * m;
  }

  /** An output no larger than the stored energy times the discharge
      efficiency drains no more than the stored energy. */
  lemma DrainFitsStore(soc: real, out: real, eta: real)
    requires 0.0 <= soc && 0.0 <= out
    requires out <= soc * eta
    ensures out / Max(eta, Eps9) <= soc
  {
    var m := Max(eta, Eps9);
    assert 0.0 < m;
    if eta <= 0.0 {
      assert soc * eta <= 0.0;
      assert out == 0.0;
    } else {
      assert m == eta || m == Eps9;
      assert soc * eta <= soc * m;
      assert out <= soc * m;
      assert out / m <= (soc * m) / m;
    }
  }

  // ---------------------------------------------------------------------
  // The four stages
  // ---------------------------------------------------------------------

  /** DSM charging moves no more than the PV surplus and the DSM power over
      the step allow, and never fills the store beyond its energy cap. */
  lemma DsmChargeStageSound(l: Limits, dsmSoc: real, pvE: real)
    ensures var r := DsmChargeStage(l, dsmSoc, pvE);
      && 0.0 <= r.amount <= Max(0.0, pvE)
      && r.amount <= StepEnergy(l.maxPowerMw, l.dt)
      && r.store == dsmSoc + r.amount && r.rest == pvE - r.amount
      && (0.0 <= dsmSoc <= Max(0.0, l.dsmEnergyCap) ==> r.store <= Max(0.0, l.dsmEnergyCap))
      && (l.maxPowerMw <= Eps9 ==> r.amount == 0.0)
  {}

  /** Battery charging moves no more than the PV surplus and the battery
      power over the step allow, and never fills the battery beyond its
      energy capacity. */
  lemma BatteryChargeStageSound(l: Limits, soc: real, pvE: real)
    ensures var r := BatteryChargeStage(l, soc, pvE);
      && 0.0 <= r.amount <= Max(0.0, pvE)
      && r.amount <= StepEnergy(l.pCap, l.dt)
      && r.rest == pvE - r.amount
      && (l.pCap <= Eps9 ==> r.amount == 0.0 && r.store == soc)
      && (0.0 <= l.etaC && 0.0 <= soc <= l.eCap ==> soc <= r.store <= l.eCap)
  {
    var r := BatteryChargeStage(l, soc, pvE);
    var x := BatteryCharge(l, soc, pvE);
    if x != 0.0 {
      assert r.amount == x && r.store == soc + x * l.etaC;
      var room := Max(0.0, l.eCap - soc);
      assert x <= room / Max(l.etaC, Eps9);
      if 0.0 <= l.etaC && 0.0 <= soc <= l.eCap {
        ChargeFitsRoom(room, x, l.etaC);
        assert 0.0 <= x * l.etaC;
      }
    }
  }

  /** DSM discharging serves no more than the remaining load, the DSM power
      over the step and what the store holds. */
  lemma DsmDischargeStageSound(l: Limits, dsmSoc: real, loadE: real)
    ensures var r := DsmDischargeStage(l, dsmSoc, loadE);
      && 0.0 <= r.amount <= Max(0.0, loadE)
      && r.amount <= StepEnergy(l.maxPowerMw, l.dt)
      && r.rest == loadE - r.amount
      && (0.0 <= dsmSoc ==> 0.0 <= r.store <= dsmSoc)
      && (l.maxPowerMw <= Eps9 ==> r.amount == 0.0 && r.store == dsmSoc)
  {}

  /** Battery discharging serves no more than the remaining load and the
      battery power over the step allow, and never drains the battery below
      empty. */
  lemma BatteryDischargeStageSound(l: Limits, soc: real, loadE: real)
    ensures var r := BatteryDischargeStage(l, soc, loadE);
      && 0.0 <= r.amount <= Max(0.0, loadE)
      && r.amount <= StepEnergy(l.pCap, l.dt)
      && r.rest == loadE - r.amount
      && (l.pCap <= Eps9 ==> r.amount == 0.0 && r.store == soc)
      && (0.0 <= soc ==> 0.0 <= r.store <= soc)
  {
    var r := BatteryDischargeStage(l, soc, loadE);
    var x := BatteryOutput(l, soc, loadE);
    if x != 0.0 {
      assert r.amount == x && r.store == soc - x / Max(l.etaD, Eps9);
      assert x <= soc * l.etaD;
      DrainFitsStore(soc, x, l.etaD);
      assert 0.0 <= x / Max(l.etaD, Eps9);
    }
  }

  // ---------------------------------------------------------------------
  // One step
  // ---------------------------------------------------------------------

  /** Both stores between empty and their capacities. */
  predicate StoresWithin(l: Limits, s: Stores) {
    0.0 <= s.soc <= l.eCap && 0.0 <= s.dsmSoc <= Max(0.0, l.dsmEnergyCap)
  }

  /** A step keeps the battery between empty and its energy capacity and the
      DSM store between empty and its energy cap, for any PV and load. */
  lemma StepKeepsStoresWithin(l: Limits, s: Stores, pvMw: real, loadMw: real)
    requires 0.0 <= l.etaC && StoresWithin(l, s)
    ensures StoresWithin(l, DispatchStep(l, s, pvMw, loadMw).1)
  {
    var use, dc, bc, dd, bd := StepStages(l, s, pvMw, loadMw);
    DsmChargeStageSound(l, s.dsmSoc, StepEnergy(pvMw, l.dt) - use);
    BatteryChargeStageSound(l, s.soc, dc.rest);
    DsmDischargeStageSound(l, dc.store, StepEnergy(loadMw, l.dt) - use);
    BatteryDischargeStageSound(l, bc.store, dd.rest);
  }

  /** PV energy pvE is split into non-negative flows to the load, the DSM
      store, the battery and export, with at most Eps12 left over. */
  predicate PvBalanced(f: Flows, pvE: real) {
    var used := f.pvToLoad + f.dsmCharge + f.pvToBatt + f.pvExport;
    && 0.0 <= f.pvToLoad && 0.0 <= f.dsmCharge && 0.0 <= f.pvToBatt && 0.0 <= f.pvExport
    && used <= pvE && pvE - used <= Eps12
  }

  /** Load energy loadE is served by non-negative flows from PV, the DSM
      store, the battery and the grid, with at most Eps12 left unserved. */
  predicate LoadBalanced(f: Flows, loadE: real) {
    var served := f.pvToLoad + f.dsmDischarge + f.battToLoad + f.gridImport;
    && 0.0 <= f.pvToLoad && 0.0 <= f.dsmDischarge && 0.0 <= f.battToLoad && 0.0 <= f.gridImport
    && served <= loadE && loadE - served <= Eps12
  }

  /** Every MWh of PV in a step goes to the load, the DSM store, the battery
      or export; what is left unaccounted is the residual below Eps12 that
      the source neither exports nor keeps. */
  lemma StepPvBalance(l: Limits, s: Stores, pvMw: real, loadMw: real)
    ensures PvBalanced(DispatchStep(l, s, pvMw, loadMw).0, StepEnergy(pvMw, l.dt))
  {
    var use, dc, bc, dd, bd := StepStages(l, s, pvMw, loadMw);
    DsmChargeStageSound(l, s.dsmSoc, StepEnergy(pvMw, l.dt) - use);
    BatteryChargeStageSound(l, s.soc, dc.rest);
  }

  /** Every MWh of load in a step is served by PV, the DSM store, the
      battery or the grid, up to a residual below Eps12 that the source does
      not import. */
  lemma StepLoadBalance(l: Limits, s: Stores, pvMw: real, loadMw: real)
    ensures LoadBalanced(DispatchStep(l, s, pvMw, loadMw).0, StepEnergy(loadMw, l.dt))
  {
    var use, dc, bc, dd, bd := StepStages(l, s, pvMw, loadMw);
    DsmDischargeStageSound(l, dc.store, StepEnergy(loadMw, l.dt) - use);
    BatteryDischargeStageSound(l, bc.store, dd.rest);
  }

  /** Merit order: PV serves the load first, so a step that charges a store
      or exports has covered its whole load from PV and draws nothing from
      the stores or the grid; and a step that draws from a store or the
      grid has sent all its PV to the load. */
  lemma StepMeritOrder(l: Limits, s: Stores, pvMw: real, loadMw: real)
    ensures var f := DispatchStep(l, s, pvMw, loadMw).0;
      && (f.dsmCharge > 0.0 || f.pvToBatt > 0.0 || f.pvExport > 0.0 ==>
            f.pvToLoad == StepEnergy(loadMw, l.dt) &&
            f.dsmDischarge == 0.0 && f.battToLoad == 0.0 && f.gridImport == 0.0)
      && (f.dsmDischarge > 0.0 || f.battToLoad > 0.0 || f.gridImport > 0.0 ==>
            f.pvToLoad == StepEnergy(pvMw, l.dt) &&
            f.dsmCharge == 0.0 && f.pvToBatt == 0.0 && f.pvExport == 0.0)
  {
    var use, dc, bc, dd, bd := StepStages(l, s, pvMw, loadMw);
    var pvE, loadE := StepEnergy(pvMw, l.dt), StepEnergy(loadMw, l.dt);
    DsmChargeStageSound(l, s.dsmSoc, pvE - use);
    BatteryChargeStageSound(l, s.soc, dc.rest);
    DsmDischargeStageSound(l, dc.store, loadE - use);
    BatteryDischargeStageSound(l, bc.store, dd.rest);
    if pvE - use > 0.0 {
      assert use == loadE;
    }
    if loadE - use > 0.0 {
      assert use == pvE;
    }
  }

  /** The battery and DSM limits: each flow stays within its power over the
      step, and a battery (DSM store) without power neither charges nor
      discharges, leaving its state unchanged. */
  lemma StepPowerLimits(l: Limits, s: Stores, pvMw: real, loadMw: real)
    ensures var (f, after) := DispatchStep(l, s, pvMw, loadMw);
      && f.pvToBatt <= StepEnergy(l.pCap, l.dt) && f.battToLoad <= StepEnergy(l.pCap, l.dt)
      && f.dsmCharge <= StepEnergy(l.maxPowerMw, l.dt) && f.dsmDischarge <= StepEnergy(l.maxPowerMw, l.dt)
      && (l.pCap <= Eps9 ==> f.pvToBatt == 0.0 && f.battToLoad == 0.0 && after.soc == s.soc)
      && (l.maxPowerMw <= Eps9 ==> f.dsmCharge == 0.0 && f.dsmDischarge == 0.0 && after.dsmSoc == s.dsmSoc)
  {
    var use, dc, bc, dd, bd := StepStages(l, s, pvMw, loadMw);
    DsmChargeStageSound(l, s.dsmSoc, StepEnergy(pvMw, l.dt) - use);
    BatteryChargeStageSound(l, s.soc, dc.rest);
    DsmDischargeStageSound(l, dc.store, StepEnergy(loadMw, l.dt) - use);
    BatteryDischargeStageSound(l, bc.store, dd.rest);
  }

  // ---------------------------------------------------------------------
  // The whole run
  // ---------------------------------------------------------------------

  /** Entry i of a prefix of the run is step i taken from the stores the
      first i steps leave behind. */
  lemma {:induction false} RunPrefixAt(l: Limits, pv: seq<real>, load: seq<real>, k: nat, i: nat)
    requires i < k <= |pv| && k <= |load|
    ensures RunPrefix(l, pv, load, k).0[i] == DispatchStep(l, RunPrefix(l, pv, load, i).1, pv[i], load[i]).0
    decreases k
  {
    if i < k - 1 {
      RunPrefixAt(l, pv, load, k - 1, i);
    }
  }

  /** The battery and the DSM store stay within their capacities after any
      number of steps, whatever the PV and load series. */
  lemma {:induction false} RunKeepsStoresWithin(l: Limits, pv: seq<real>, load: seq<real>, k: nat)
    requires 0.0 <= l.eCap && 0.0 <= l.etaC
    requires k <= |pv| && k <= |load|
    ensures StoresWithin(l, RunPrefix(l, pv, load, k).1)
  {
    if k > 0 {
      RunKeepsStoresWithin(l, pv, load, k - 1);
      StepKeepsStoresWithin(l, RunPrefix(l, pv, load, k - 1).1, pv[k - 1], load[k - 1]);
    }
  }

  /** The stores of a configured run stay within their capacities whenever
      the charge efficiency is not negative. */
  lemma ConfiguredStoresWithin(cfg: MeritOrderConfig, pv: seq<real>, load: seq<real>, k: nat)
    requires DeriveLimits(cfg, load).Success? && 0.0 <= cfg.etaCharge
    requires k <= |pv| && k <= |load|
    ensures StoresWithin(DeriveLimits(cfg, load).value, RunPrefix(DeriveLimits(cfg, load).value, pv, load, k).1)
  {
    RunKeepsStoresWithin(DeriveLimits(cfg, load).value, pv, load, k);
  }

  /** The seven values of a series at one step. */
  function FlowsAt(o: SeriesMwh, i: nat): Flows
    requires i < |o.pvToLoad| && i < |o.pvToBatt| && i < |o.pvExport| && i < |o.battToLoad|
    requires i < |o.gridImport| && i < |o.dsmCharge| && i < |o.dsmDischarge|
  {
    Flows(o.pvToLoad[i], o.pvToBatt[i], o.pvExport[i], o.battToLoad[i], o.gridImport[i],
          o.dsmCharge[i], o.dsmDischarge[i])
  }

  /** Step i of a successful run's series is DispatchStep applied to the
      stores left by the steps before it. */
  lemma MeritOrderAt(cfg: MeritOrderConfig, pv: seq<real>, load: seq<real>, i: nat) returns (l: Limits, s: Stores)
    requires MeritOrder(cfg, pv, load).Success? && i < |pv|
    ensures DeriveLimits(cfg, load) == Success(l) && s == RunPrefix(l, pv, load, i).1 && l.dt == cfg.dtHours
    ensures FlowsAt(MeritOrder(cfg, pv, load).value.series, i) == DispatchStep(l, s, pv[i], load[i]).0
  {
    l := DeriveLimits(cfg, load).value;
    s := RunPrefix(l, pv, load, i).1;
    RunPrefixAt(l, pv, load, |pv|, i);
  }

  /** Each step of a successful run accounts for its PV. */
  lemma MeritOrderPvBalance(cfg: MeritOrderConfig, pv: seq<real>, load: seq<real>, i: nat)
    requires MeritOrder(cfg, pv, load).Success? && i < |pv|
    ensures PvBalanced(FlowsAt(MeritOrder(cfg, pv, load).value.series, i), StepEnergy(pv[i], cfg.dtHours))
  {
    var l, s := MeritOrderAt(cfg, pv, load, i);
    StepPvBalance(l, s, pv[i], load[i]);
  }

  /** Each step of a successful run accounts for its load. */
  lemma MeritOrderLoadBalance(cfg: MeritOrderConfig, pv: seq<real>, load: seq<real>, i: nat)
    requires MeritOrder(cfg, pv, load).Success? && i < |pv|
    ensures LoadBalanced(FlowsAt(MeritOrder(cfg, pv, load).value.series, i), StepEnergy(load[i], cfg.dtHours))
  {
    var l, s := MeritOrderAt(cfg, pv, load, i);
    StepLoadBalance(l, s, pv[i], load[i]);
  }

  /** Summed over a series whose every step is balanced, with non-negative
      PV, load and step length: PV used on site plus export stays within
      generation, and on-site PV and grid import each stay within demand. */
  lemma {:induction false} SeriesTotalsBounded(o: SeriesMwh, pv: seq<real>, load: seq<real>, dt: real)
    requires SeriesLength(o, |pv|) && |load| == |pv| && 0.0 <= dt
    requires forall i :: 0 <= i < |pv| ==> 0.0 <= pv[i] && 0.0 <= load[i]
    requires forall i :: 0 <= i < |pv| ==>
      PvBalanced(FlowsAt(o, i), StepEnergy(pv[i], dt)) && LoadBalanced(FlowsAt(o, i), StepEnergy(load[i], dt))
    ensures 0.0 <= Sum(o.pvToLoad) && 0.0 <= Sum(o.pvExport) && 0.0 <= Sum(o.gridImport)
    ensures Sum(o.pvToLoad) + Sum(o.pvExport) <= TotalEnergy(pv, dt)
    ensures Sum(o.pvToLoad) <= TotalEnergy(load, dt) && Sum(o.gridImport) <= TotalEnergy(load, dt)
  {
    var gen, demand := ScaleSeq(pv, dt), ScaleSeq(load, dt);
    forall i | 0 <= i < |pv|
      ensures 0.0 <= o.pvToLoad[i] && 0.0 <= o.pvExport[i] && 0.0 <= o.gridImport[i]
      ensures AddSeq(o.pvToLoad, o.pvExport)[i] <= gen[i]
      ensures o.pvToLoad[i] <= demand[i] && o.gridImport[i] <= demand[i]
    {
      assert PvBalanced(FlowsAt(o, i), StepEnergy(pv[i], dt));
      assert LoadBalanced(FlowsAt(o, i), StepEnergy(load[i], dt));
      MulMonotone(0.0, pv[i], dt);
      MulMonotone(0.0, load[i], dt);
    }
    SumScale(pv, dt);
    SumScale(load, dt);
    assert TotalEnergy(pv, dt) == Sum(gen) && TotalEnergy(load, dt) == Sum(demand);
    SumNonNegative(o.pvToLoad);
    SumNonNegative(o.pvExport);
    SumNonNegative(o.gridImport);
    SumAddSeq(o.pvToLoad, o.pvExport);
    SumMonotone(AddSeq(o.pvToLoad, o.pvExport), gen);
    SumMonotone(o.pvToLoad, demand);
    SumMonotone(o.gridImport, demand);
  }

  /** With non-negative PV, load and step length, the KPIs of a run bound
      one another: PV consumed on site and exported never exceeds
      generation, and neither on-site PV nor grid import exceeds demand. */
  lemma MeritOrderKpiBounds(cfg: MeritOrderConfig, pv: seq<real>, load: seq<real>)
    requires MeritOrder(cfg, pv, load).Success? && 0.0 <= cfg.dtHours
    requires forall i :: 0 <= i < |pv| ==> 0.0 <= pv[i]
    requires forall i :: 0 <= i < |load| ==> 0.0 <= load[i]
    ensures var k := MeritOrder(cfg, pv, load).value.kpis;
      && 0.0 <= k.selfConsumptionMwh && 0.0 <= k.exportMwh && 0.0 <= k.gridImportMwh
      && k.selfConsumptionMwh + k.exportMwh <= k.totalGenMwh
      && k.selfConsumptionMwh <= k.totalDemandMwh
      && k.gridImportMwh <= k.totalDemandMwh
  {
    var o := MeritOrder(cfg, pv, load).value;
    forall i | 0 <= i < |pv|
      ensures PvBalanced(FlowsAt(o.series, i), StepEnergy(pv[i], cfg.dtHours))
      ensures LoadBalanced(FlowsAt(o.series, i), StepEnergy(load[i], cfg.dtHours))
    {
      MeritOrderPvBalance(cfg, pv, load, i);
      MeritOrderLoadBalance(cfg, pv, load, i);
    }
    SeriesTotalsBounded(o.series, pv, load, cfg.dtHours);
  }

  /** Without battery power (no owned battery or a zero C-rate) a run
      neither charges nor discharges a battery, and its battery throughput
      is zero. */
  lemma MeritOrderWithoutBattery(cfg: MeritOrderConfig, pv: seq<real>, load: seq<real>)
    requires MeritOrder(cfg, pv, load).Success?
    requires cfg.batteryEnergyMwh <= 0.0 || cfg.batteryCRate <= 0.0
    ensures var o := MeritOrder(cfg, pv, load).value;
      && (forall i :: 0 <= i < |pv| ==> o.series.pvToBatt[i] == 0.0 && o.series.battToLoad[i] == 0.0)
      && o.kpis.batteryThroughputMwh == 0.0
  {
    var o := MeritOrder(cfg, pv, load).value;
    forall i | 0 <= i < |pv|
      ensures o.series.pvToBatt[i] == 0.0 && o.series.battToLoad[i] == 0.0
    {
      var l, s := MeritOrderAt(cfg, pv, load, i);
      StepPowerLimits(l, s, pv[i], load[i]);
    }
    SumZeros(o.series.pvToBatt);
    SumZeros(o.series.battToLoad);
  }

  /** Without a flexible load share a run never uses the DSM store. */
  lemma MeritOrderWithoutDsm(cfg: MeritOrderConfig, pv: seq<real>, load: seq<real>)
    requires MeritOrder(cfg, pv, load).Success? && FlexShare(cfg) == 0.0
    ensures var o := MeritOrder(cfg, pv, load).value;
      forall i :: 0 <= i < |pv| ==> o.series.dsmCharge[i] == 0.0 && o.series.dsmDischarge[i] == 0.0
  {
    var o := MeritOrder(cfg, pv, load).value;
    forall i | 0 <= i < |pv|
      ensures o.series.dsmCharge[i] == 0.0 && o.series.dsmDischarge[i] == 0.0
    {
      var l, s := MeritOrderAt(cfg, pv, load, i);
      StepPowerLimits(l, s, pv[i], load[i]);
    }
  }
}
