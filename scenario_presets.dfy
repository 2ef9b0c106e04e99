/** The five predefined scenarios of backend/main.py and the seeding
    routine that upserts them into the scenario table. */
module ScenarioPresets {
  import opened Wrappers
  import opened Optimizer
  import opened Seeding

  const SolarKey := "owned_solar_capacity_mw"
  const InvestmentFreqKey := "investment_freq"

  const Name1: string := "Scenario 1: Baseline"
  const Description1: string := "Reference case with " + "existing rooftop PV only, no battery."
  const Details1: string :=
    "Purpose: establish a reference for energy consumption, costs, grid "
      + "interaction and emissions. Thermal demand fully covered by district "
      + "heating (DH). No additional flexibility (no battery/DSM). Prices and "
      + "profiles use DK2 inputs. The scenario is used as baseline to compare "
      + "improvements in scenarios 2–5."
  const OldShort1: string := "Baseline building: existing " + "PV only, no battery; DH as-is."
  const Preset1: Preset :=
    Preset(Name1, Description1, Details1,
           map[SolarKey := Number(0.03), BatteryKey := Number(0.0), InvestmentFreqKey := Number(12.0)],
           Some(OldShort1))

  const Name2: string := "Scenario 2: High PV Deployment"
  const Description2: string := "Rooftop PV maximised per Danish " + "regulatory constraints (~171 kWp)."
  const Details2: string :=
    "Description: fully exploit rooftop PV considering BR18, DBI 024, EN "
      + "516. Net usable area ≈ 684 m² → ≈ 171 kWp using 600 Wp modules. "
      + "Battery absent; surplus exported to grid. Expected effects: higher "
      + "renewable fraction, more mid‑day export, reduced grid imports and "
      + "emissions."
  const OldShort2: string := "Rooftop maximised per " + "regulatory constraints (~171 kWp)."
  const Preset2: Preset :=
    Preset(Name2, Description2, Details2,
           map[SolarKey := Number(0.171), BatteryKey := Number(0.0), InvestmentFreqKey := Number(12.0)],
           Some(OldShort2))

  const Name3: string := "Scenario 3: High PV + Battery (4h)"
  const Description3: string := "PV as S2 with 4‑hour battery " + "(0.32 MWh) and export‑only‑from‑PV."
  const Details3: string :=
    "Purpose: increase self‑consumption and reduce peak imports by adding a "
      + "four‑hour battery (C‑rate 0.25 h⁻¹). Operating notes: PV‑first "
      + "dispatch, export permitted only from PV bus (no arbitrage), neutral "
      + "SoC policy. Expected effects: lower imports, lower emissions and costs "
      + "vs S2."
  const OldShort3: string := "PV as Scenario 2, battery 0.32 MWh " + "(4h autonomy), export-only-from-PV."
  const Preset3: Preset :=
    Preset(Name3, Description3, Details3,
           map[SolarKey := Number(0.171), BatteryKey := Number(0.32), CRateKey := Number(0.25), InvestmentFreqKey := Number(12.0)],
           Some(OldShort3))

  const Name4: string := "Scenario 4: High PV + Large Battery"
  const Description4: string := "PV as S2 with larger battery " + "(0.64 MWh) to enhance self‑consumption."
  const Details4: string :=
    "Description: same PV as S2, battery sized at 0.64 MWh (4 h autonomy). "
      + "Used to quantify marginal benefits of doubling storage energy: further "
      + "evening peak shaving, reduced export and imports."
  const OldShort4: string := "PV as Scenario 2, larger battery " + "0.64 MWh to enhance self-consumption."
  const Preset4: Preset :=
    Preset(Name4, Description4, Details4,
           map[SolarKey := Number(0.171), BatteryKey := Number(0.64), CRateKey := Number(0.25), InvestmentFreqKey := Number(12.0)],
           Some(OldShort4))

  const Name5: string := "Scenario 5: DSM (Flexible Demand)"
  const Description5: string := "Demand‑side management (DSM) " + "with PV + battery; faster decisions."
  const Details5: string :=
    "Purpose: emulate flexible loads (≈30% share, 3‑hour shifting window) "
      + "that align demand to PV or price signals. We approximate "
      + "responsiveness by a higher decision frequency. Expected effects: "
      + "higher self‑consumption, lower imports/exports, no annual energy "
      + "change."
  const OldShort5: string := "Demand-side management: higher " + "decision frequency as proxy for flexibility."
  const Preset5: Preset :=
    Preset(Name5, Description5, Details5,
           map[SolarKey := Number(0.171), BatteryKey := Number(0.32), CRateKey := Number(0.25), InvestmentFreqKey := Number(6.0)],
           Some(OldShort5))

  const Presets: seq<Preset> := [Preset1, Preset2, Preset3, Preset4, Preset5]

  /** The five presets have distinct names. */
  lemma PresetsDistinct()
    ensures DistinctNames(Presets)
  {
    assert Name1[9] == '1' && Name2[9] == '2' && Name3[9] == '3' && Name4[9] == '4' && Name5[9] == '5';
  }

  /** Seeding the presets a second time changes nothing. */
  lemma PresetSeedingIdempotent(t: Table, ids: seq<string>, ids2: seq<string>)
    requires |ids| == |Presets| == |ids2|
    ensures Seed(Seed(t, Presets, ids), Presets, ids2) == Seed(t, Presets, ids)
  {
    PresetsDistinct();
    SeedIdempotent(t, Presets, ids, ids2);
  }

  // ---------------------------------------------------------------------
  // The seeding routine
  // ---------------------------------------------------------------------

  /** The scenario table. */
  class ScenarioStore {
    var rows: Table

    constructor (rows: Table)
      ensures this.rows == rows
    {
      this.rows := rows;
    }

    /** `_seed_predefined_scenarios`: looks every preset up among the rows
        that existed when it started and inserts or upgrades it; `freshIds`
        stand in for the generated uuids. */
    method SeedPredefinedScenarios(freshIds: seq<string>)
      requires |freshIds| == |Presets|
      modifies this
      ensures rows == Seed(old(rows), Presets, freshIds)
    {
      PresetsDistinct();
      var existing := rows;
      var i := 0;
      while i < |Presets|
        invariant 0 <= i <= |Presets|
        invariant rows == Seed(existing, Presets[..i], freshIds[..i])
      {
        var p := Presets[i];
        SeedStep(existing, Presets, freshIds, i);
        if p.name !in existing {
          rows := rows[p.name := Fresh(p, freshIds[i])];
        } else {
          rows := rows[p.name := Upgrade(existing[p.name], p)];
        }
        i := i + 1;
      }
      assert Presets[..i] == Presets && freshIds[..i] == freshIds;
    }
  }
}
