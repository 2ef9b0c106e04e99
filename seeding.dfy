/** The upsert behind the start-up seeding of predefined scenarios
    (`_seed_predefined_scenarios`, backend/main.py), for any list of presets
    with distinct names: missing presets are inserted, empty details are
    filled in and descriptions still equal to an earlier short text are
    replaced. The scenario table is a map from name to row. */
module Seeding {
  import opened Wrappers
  import opened Optimizer
  import opened Strings

  // ---------------------------------------------------------------------
  // Rows and presets
  // ---------------------------------------------------------------------

  /** A scenario row, less its name (the key) and its timestamps. */
  datatype Scenario = Scenario(id: string, description: Option<string>, details: Option<string>,
                               configOverrides: map<string, OverrideValue>)

  type Table = map<string, Scenario>

  /** A predefined scenario, with the short description an earlier version
      of the seeding wrote for it. */
  datatype Preset = Preset(name: string, description: string, details: string,
                           overrides: map<string, OverrideValue>, oldShort: Option<string>)

  // ---------------------------------------------------------------------
  // One preset
  // ---------------------------------------------------------------------

  /** Python's falsiness of an optional text column. */
  predicate Falsy(v: Option<string>) {
    v.None? || v.value == ""
  }

  /** The row still carries the earlier short description of this preset. */
  predicate OutdatedDescription(description: Option<string>, p: Preset) {
    !Falsy(description) && p.oldShort.Some? && p.oldShort.value != "" &&
    Strip(description.value) == p.oldShort.value
  }

  /** The row a missing preset is inserted as. */
  function Fresh(p: Preset, id: string): (r: Scenario)
    ensures r.description == Some(p.description) && r.details == Some(p.details)
    ensures r.configOverrides == p.overrides && r.id == id
  {
    Scenario(id, Some(p.description), Some(p.details), p.overrides)
  }

  /** An existing row after the upgrade: empty details are filled in and an
      outdated description is replaced; nothing else changes. */
  function Upgrade(row: Scenario, p: Preset): (r: Scenario)
    ensures r.id == row.id && r.configOverrides == row.configOverrides
    ensures Falsy(row.details) ==> r.details == Some(p.details)
    ensures !Falsy(row.details) ==> r.details == row.details
    ensures OutdatedDescription(row.description, p) ==> r.description == Some(p.description)
    ensures !OutdatedDescription(row.description, p) ==> r.description == row.description
  {
    var details := if Falsy(row.details) then Some(p.details) else row.details;
    var description := if OutdatedDescription(row.description, p) then Some(p.description)
                       else row.description;
    Scenario(row.id, description, details, row.configOverrides)
  }

  /** The upsert of one preset. */
  function SeedOne(t: Table, p: Preset, id: string): (r: Table)
    ensures r.Keys == t.Keys + {p.name}
    ensures p.name !in t ==> r[p.name] == Fresh(p, id)
    ensures p.name in t ==> r[p.name] == Upgrade(t[p.name], p)
    ensures forall n :: n in t && n != p.name ==> r[n] == t[n]
  {
    if p.name in t then t[p.name := Upgrade(t[p.name], p)] else t[p.name := Fresh(p, id)]
  }

  /** Upgrading twice is upgrading once, and a freshly inserted row needs
      no upgrade. */
  lemma UpgradeIdempotent(row: Scenario, p: Preset)
    ensures Upgrade(Upgrade(row, p), p) == Upgrade(row, p)
    ensures Upgrade(Fresh(p, row.id), p) == Fresh(p, row.id)
  {
  }

  // ---------------------------------------------------------------------
  // All presets
  // ---------------------------------------------------------------------

  function Names(ps: seq<Preset>): (r: set<string>)
    ensures forall i :: 0 <= i < |ps| ==> ps[i].name in r
    decreases |ps|
  {
    if ps == [] then {}
    else
      var k := |ps| - 1;
      assert forall i :: 0 <= i < k ==> ps[..k][i] == ps[i];
      Names(ps[..k]) + {ps[k].name}
  }

  /** Every name in `Names(ps)` is the name of one of the presets. */
  lemma {:induction false} NameIndex(ps: seq<Preset>, n: string) returns (i: nat)
    requires n in Names(ps)
    ensures i < |ps| && ps[i].name == n
    decreases |ps|
  {
    var k := |ps| - 1;
    if n == ps[k].name {
      i := k;
    } else {
      i := NameIndex(ps[..k], n);
    }
  }

  /** With distinct names, the last preset's name is not among the earlier ones. */
  lemma LastNameNew(ps: seq<Preset>, k: nat)
    requires DistinctNames(ps) && k < |ps|
    ensures ps[k].name !in Names(ps[..k])
  {
    if ps[k].name in Names(ps[..k]) {
      var j := NameIndex(ps[..k], ps[k].name);
    }
  }

  predicate DistinctNames(ps: seq<Preset>) {
    forall i, j :: 0 <= i < j < |ps| ==> ps[i].name != ps[j].name
  }

  /** The seeding as a value: the presets upserted one after the other. */
  function Seed(t: Table, ps: seq<Preset>, ids: seq<string>): (r: Table)
    requires |ids| == |ps|
    ensures r.Keys == t.Keys + Names(ps)
    decreases |ps|
  {
    if ps == [] then t
    else
      var k := |ps| - 1;
      SeedOne(Seed(t, ps[..k], ids[..k]), ps[k], ids[k])
  }

  /** Rows whose name is not a preset are left alone. */
  lemma {:induction false} SeedUntouched(t: Table, ps: seq<Preset>, ids: seq<string>, n: string)
    requires |ids| == |ps| && n in t && n !in Names(ps)
    ensures Seed(t, ps, ids)[n] == t[n]
    decreases |ps|
  {
    if ps != [] {
      var k := |ps| - 1;
      assert Names(ps[..k]) <= Names(ps);
      SeedUntouched(t, ps[..k], ids[..k], n);
    }
  }

  /** The row a preset is seeded as, given the rows that existed before. */
  function Seeded(t: Table, p: Preset, id: string): (r: Scenario)
    ensures p.name !in t ==> r == Fresh(p, id)
    ensures p.name in t ==> r == Upgrade(t[p.name], p)
  {
    if p.name in t then Upgrade(t[p.name], p) else Fresh(p, id)
  }

  /** The last preset ends up as its inserted row or as its upgraded old row. */
  lemma SeedLast(t: Table, ps: seq<Preset>, ids: seq<string>)
    requires |ids| == |ps| && DistinctNames(ps) && ps != []
    ensures Seed(t, ps, ids)[ps[|ps| - 1].name] == Seeded(t, ps[|ps| - 1], ids[|ps| - 1])
  {
    var k := |ps| - 1;
    var n := ps[k].name;
    LastNameNew(ps, k);
    if n in t {
      SeedUntouched(t, ps[..k], ids[..k], n);
    }
  }

  /** A later preset does not touch the row of an earlier one. */
  lemma SeedEarlier(t: Table, ps: seq<Preset>, ids: seq<string>, i: nat)
    requires |ids| == |ps| && DistinctNames(ps) && i < |ps| - 1
    ensures DistinctNames(ps[..|ps| - 1])
    ensures ps[..|ps| - 1][i] == ps[i] && ids[..|ps| - 1][i] == ids[i]
    ensures ps[i].name in Seed(t, ps[..|ps| - 1], ids[..|ps| - 1])
    ensures Seed(t, ps, ids)[ps[i].name] == Seed(t, ps[..|ps| - 1], ids[..|ps| - 1])[ps[i].name]
  {
    var k := |ps| - 1;
    assert ps[..k][i] == ps[i];
    assert ps[i].name in Names(ps[..k]);
    assert ps[i].name != ps[k].name;
  }

  /** Each preset ends up as its inserted row or as its upgraded old row. */
  lemma {:induction false} SeedAt(t: Table, ps: seq<Preset>, ids: seq<string>, i: nat)
    requires |ids| == |ps| && DistinctNames(ps) && i < |ps|
    ensures Seed(t, ps, ids)[ps[i].name] == Seeded(t, ps[i], ids[i])
    decreases |ps|
  {
    var k := |ps| - 1;
    if i < k {
      var ps', ids' := ps[..k], ids[..k];
      SeedEarlier(t, ps, ids, i);
      SeedAt(t, ps', ids', i);
      assert Seed(t, ps', ids')[ps'[i].name] == Seeded(t, ps'[i], ids'[i]);
    } else {
      SeedLast(t, ps, ids);
      assert ps[i] == ps[k] && ids[i] == ids[k];
    }
  }

  /** One more preset: its row is decided by the rows that existed before
      the seeding started. */
  lemma SeedStep(t: Table, ps: seq<Preset>, ids: seq<string>, i: nat)
    requires |ids| == |ps| && DistinctNames(ps) && i < |ps|
    ensures var p := ps[i];
            Seed(t, ps[..i + 1], ids[..i + 1]) == Seed(t, ps[..i], ids[..i])[p.name := Seeded(t, p, ids[i])]
  {
    var p := ps[i];
    var ps1, ids1 := ps[..i + 1], ids[..i + 1];
    assert ps1[..i] == ps[..i] && ids1[..i] == ids[..i] && ps1[i] == p && ids1[i] == ids[i];
    var before := Seed(t, ps[..i], ids[..i]);
    assert Seed(t, ps1, ids1) == SeedOne(before, p, ids[i]);
    LastNameNew(ps, i);
    if p.name in t {
      SeedUntouched(t, ps[..i], ids[..i], p.name);
      assert before[p.name] == t[p.name];
    } else {
      assert p.name !in before;
    }
  }

  /** Seeding twice gives the same name-to-row map as seeding once, whatever
      ids the second run would have used. */
  lemma SeedIdempotent(t: Table, ps: seq<Preset>, ids: seq<string>, ids2: seq<string>)
    requires |ids| == |ps| == |ids2| && DistinctNames(ps)
    ensures Seed(Seed(t, ps, ids), ps, ids2) == Seed(t, ps, ids)
  {
    var once := Seed(t, ps, ids);
    var twice := Seed(once, ps, ids2);
    forall n | n in once
      ensures twice[n] == once[n]
    {
      if n in Names(ps) {
        var i := NameIndex(ps, n);
        SeedAt(t, ps, ids, i);
        SeedAt(once, ps, ids2, i);
        if n in t {
          UpgradeIdempotent(t[n], ps[i]);
        } else {
          UpgradeIdempotent(Scenario(ids[i], None, None, map[]), ps[i]);
        }
      } else {
        SeedUntouched(t, ps, ids, n);
        SeedUntouched(once, ps, ids2, n);
      }
    }
  }

  /** After seeding, every preset name is present, no existing row's id or
      overrides change, non-empty details are never overwritten, and other
      rows are untouched. */
  lemma SeedGuarantees(t: Table, ps: seq<Preset>, ids: seq<string>)
    requires |ids| == |ps| && DistinctNames(ps)
    ensures var r := Seed(t, ps, ids);
            && (forall i :: 0 <= i < |ps| ==> ps[i].name in r)
            && (forall n :: n in t ==> r[n].id == t[n].id && r[n].configOverrides == t[n].configOverrides)
            && (forall n :: n in t && !Falsy(t[n].details) ==> r[n].details == t[n].details)
            && (forall n :: n in t && r[n].description != t[n].description ==>
                  exists i :: 0 <= i < |ps| && ps[i].name == n && OutdatedDescription(t[n].description, ps[i]))
            && (forall n :: n in t && n !in Names(ps) ==> r[n] == t[n])
  {
    var r := Seed(t, ps, ids);
    forall n | n in t
      ensures r[n].id == t[n].id && r[n].configOverrides == t[n].configOverrides
      ensures !Falsy(t[n].details) ==> r[n].details == t[n].details
      ensures r[n].description != t[n].description ==>
                exists i :: 0 <= i < |ps| && ps[i].name == n && OutdatedDescription(t[n].description, ps[i])
      ensures n !in Names(ps) ==> r[n] == t[n]
    {
      if n in Names(ps) {
        var i := NameIndex(ps, n);
        SeedAt(t, ps, ids, i);
      } else {
        SeedUntouched(t, ps, ids, n);
      }
    }
  }
}
