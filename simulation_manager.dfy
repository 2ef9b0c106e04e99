/** The simulation session registry and its fallback stepping engine
    (backend/simulation_manager.py): `_MinimalEnv`, a cursor over the
    loaded energy columns; `SimulationSession`, the per-session book-keeping;
    and `SimulationManager`, a dictionary of sessions keyed by id. */
module Simulation {
  import opened Wrappers
  import opened Numeric
  import opened DataLoader
  import opened Strings

  // ---------------------------------------------------------------------
  // Observations, actions and the values a snapshot carries
  // ---------------------------------------------------------------------

  /** The observation dictionary `_build_obs` returns. */
  datatype Obs = Obs(t: int, wind: real, solar: real, hydro: real, load: real, price: real)

  /** An action space as `_zero_action` inspects it: `n` when the space is
      discrete, `shape` when it is a box, and what `sample()` returns (None
      when it raises). */
  datatype Space = Space(n: Option<int>, shape: Option<seq<nat>>, sample: Option<Action>)

  datatype Action =
    | IntAction(value: int)
    | ZeroArray(shape: seq<nat>)
    | SampledArray(shape: seq<nat>, values: seq<real>)

  /** `_Space(shape=(1,))`: what `_MinimalEnv.action_space` hands out. */
  const MinimalSpace: Space := Space(None, Some([1]), Some(ZeroArray([1])))

  /** The agent list of the fallback environment. */
  const Manager: string := "manager"

  /** `_zero_action`: 0 for a discrete space, an all-zero array of the box's
      shape, otherwise whatever the space samples, and 0 if sampling fails. */
  function ZeroAction(space: Space): (r: Action)
    ensures space.n.Some? ==> r == IntAction(0)
    ensures space.n.None? && space.shape.Some? ==> r == ZeroArray(space.shape.value)
    ensures space.n.None? && space.shape.None? && space.sample.None? ==> r == IntAction(0)
    ensures space.n.None? && space.shape.None? && space.sample.Some? ==> r == space.sample.value
  {
    if space.n.Some? then IntAction(0)
    else if space.shape.Some? then ZeroArray(space.shape.value)
    else space.sample.GetOr(IntAction(0))
  }

  /** `_build_default_actions`: one zero action per agent. */
  function DefaultActions(agents: seq<string>, space: string -> Space): (r: map<string, Action>)
    ensures r.Keys == set a | a in agents
    ensures forall a :: a in r ==> r[a] == ZeroAction(space(a))
  {
    map a | a in agents :: ZeroAction(space(a))
  }

  /** The loop condition of `step_session`: every agent is terminated or
      truncated; an agent missing from a dictionary counts as False. */
  function AllDone(agents: seq<string>, term: map<string, bool>, trunc: map<string, bool>): (r: bool)
    ensures r <==> forall i :: 0 <= i < |agents| ==>
                     (agents[i] in term && term[agents[i]]) || (agents[i] in trunc && trunc[agents[i]])
  {
    if agents == [] then true
    else
      var a := agents[0];
      var done := (a in term && term[a]) || (a in trunc && trunc[a]);
      done && AllDone(agents[1..], term, trunc)
  }

  /** `all(...)` over an empty agent list is True, so an environment without
      agents is reset after its first step. */
  lemma NoAgentsAllDone(term: map<string, bool>, trunc: map<string, bool>)
    ensures AllDone([], term, trunc)
  {
  }

  /** Profit of one step: net generation times price, with no time-step factor. */
  function NetRevenue(pv: real, load: real, price: real): real {
    (pv - load) * price
  }

  // ---------------------------------------------------------------------
  // _MinimalEnv
  // ---------------------------------------------------------------------

  class MinimalEnv {
    const investmentFreq: int
    const agents: seq<string> := [Manager]
    const wind: seq<real>
    const solar: seq<real>
    const hydro: seq<real>
    const load: seq<real>
    const price: seq<real>
    /** The cursor into the columns. */
    var t: nat
    var lastRevenue: real

    /** The columns come from one table, so they have one length. */
    predicate Aligned() {
      |wind| == |load| && |solar| == |load| && |hydro| == |load| && |price| == |load|
    }

    /** The cursor never runs past the end of the load column. */
    ghost predicate Valid()
      reads this
    {
      Aligned() && t <= |load|
    }

    /** The columns are read from a table the loader accepted, so every
        column the environment uses is present. */
    constructor (data: Frame, investmentFreq: int)
      requires Loaded(data)
      ensures Valid()
      ensures this.investmentFreq == investmentFreq
      ensures wind == ColumnOrZeros(data, "wind") && solar == ColumnOrZeros(data, "solar")
      ensures hydro == ColumnOrZeros(data, "hydro") && load == ColumnOrZeros(data, "load")
      ensures price == ColumnOrZeros(data, "price")
      ensures t == 0 && lastRevenue == 0.0
    {
      this.investmentFreq := investmentFreq;
      wind := ColumnOrZeros(data, "wind");
      solar := ColumnOrZeros(data, "solar");
      hydro := ColumnOrZeros(data, "hydro");
      load := ColumnOrZeros(data, "load");
      price := ColumnOrZeros(data, "price");
      t := 0;
      lastRevenue := 0.0;
    }

    /** The revenue `step` books when it starts at cursor `idx`; a column
        that is too short contributes 0. */
    function RevenueAt(idx: nat): (r: real)
      requires Aligned()
      ensures idx >= |load| ==> r == 0.0
      ensures idx >= |price| ==> r == 0.0
    {
      var pv := if idx < |load| then solar[idx] + wind[idx] + hydro[idx] else 0.0;
      var ld := if idx < |load| then load[idx] else 0.0;
      var pr := if idx < |price| then price[idx] else 0.0;
      NetRevenue(pv, ld, pr)
    }

    /** `_build_obs`: the columns at the cursor clamped into [0, n-1], or at
        index 0 when there are no rows. */
    function BuildObs(at: int): (r: Obs)
      ensures |load| > 0 ==> 0 <= r.t < |load|
      ensures |load| > 0 && 0 <= at < |load| ==> r.t == at
      ensures |load| > 0 && at >= |load| ==> r.t == |load| - 1
      ensures at < 0 || |load| == 0 ==> r.t == 0
      ensures r.wind == (if r.t < |wind| then wind[r.t] else 0.0)
      ensures r.solar == (if r.t < |solar| then solar[r.t] else 0.0)
      ensures r.hydro == (if r.t < |hydro| then hydro[r.t] else 0.0)
      ensures r.load == (if r.t < |load| then load[r.t] else 0.0)
      ensures r.price == (if r.t < |price| then price[r.t] else 0.0)
    {
      var i := if |load| > 0 then MinInt(MaxInt(at, 0), |load| - 1) else 0;
      Obs(i,
          if i < |wind| then wind[i] else 0.0,
          if i < |solar| then solar[i] else 0.0,
          if i < |hydro| then hydro[i] else 0.0,
          if i < |load| then load[i] else 0.0,
          if i < |price| then price[i] else 0.0)
    }

    /** `reset`: rewinds the cursor; the last revenue is kept. */
    method Reset() returns (obs: map<string, Obs>)
      requires Aligned()
      modifies this
      ensures Valid()
      ensures t == 0 && lastRevenue == old(lastRevenue)
      ensures obs == map[Manager := BuildObs(0)]
    {
      t := 0;
      obs := map[Manager := BuildObs(t)];
    }

    /** `step`: books the revenue at the cursor, advances the cursor but not
        past the end, and reports termination exactly at the end. */
    method Step(actions: map<string, Action>)
      returns (obs: map<string, Obs>, rew: map<string, real>,
               term: map<string, bool>, trunc: map<string, bool>)
      requires Aligned()
      modifies this
      ensures t == MinInt(old(t) + 1, |load|)
      ensures old(t) <= |load| ==> old(t) <= t
      ensures Valid()
      ensures lastRevenue == RevenueAt(old(t))
      ensures rew == map[Manager := lastRevenue]
      ensures term == map[Manager := t >= |load|]
      ensures trunc == map[Manager := false]
      ensures obs == map[Manager := BuildObs(t)]
    {
      var idx := t;
      var pv := if idx < |load| then solar[idx] + wind[idx] + hydro[idx] else 0.0;
      var ld := if idx < |load| then load[idx] else 0.0;
      var pr := if idx < |price| then price[idx] else 0.0;
      lastRevenue := NetRevenue(pv, ld, pr);
      t := MinInt(idx + 1, |load|);
      term := map[Manager := t >= |load|];
      trunc := map[Manager := false];
      rew := map[Manager := lastRevenue];
      obs := map[Manager := BuildObs(t)];
    }
  }

  // ---------------------------------------------------------------------
  // Sessions
  // ---------------------------------------------------------------------

  class Session {
    const sessionId: string
    const env: MinimalEnv
    var lastObservation: map<string, Obs>
    var stepsTaken: nat
    var lastRewards: map<string, real>
    var lastTerminations: map<string, bool>
    var lastTruncations: map<string, bool>

    constructor (sessionId: string, env: MinimalEnv, observation: map<string, Obs>)
      ensures this.sessionId == sessionId && this.env == env
      ensures lastObservation == observation && stepsTaken == 0
      ensures lastRewards == map[] && lastTerminations == map[] && lastTruncations == map[]
    {
      this.sessionId := sessionId;
      this.env := env;
      lastObservation := observation;
      stepsTaken := 0;
      lastRewards := map[];
      lastTerminations := map[];
      lastTruncations := map[];
    }

    /** The per-step dictionaries after a step that did not end the data. */
    ghost predicate Ongoing()
      reads this, env
    {
      && lastRewards == map[Manager := env.lastRevenue]
      && lastTerminations == map[Manager := false] && lastTruncations == map[Manager := false]
      && lastObservation == map[Manager := env.BuildObs(env.t)]
    }

    /** The session after the environment was reset at the end of the data. */
    ghost predicate Restarted()
      reads this, env
    {
      && env.t == 0
      && lastRewards == map[] && lastTerminations == map[] && lastTruncations == map[]
      && lastObservation == map[Manager := env.BuildObs(0)]
    }

    /** One pass of the `step_session` loop body; `done` says whether every
        agent was done, in which case the environment has been reset. */
    method StepOnce() returns (done: bool)
      requires env.Valid()
      modifies this, env
      ensures env.Valid()
      ensures stepsTaken == old(stepsTaken) + 1
      ensures env.lastRevenue == env.RevenueAt(old(env.t))
      ensures done <==> old(env.t) + 1 >= |env.load|
      ensures done ==> Restarted()
      ensures !done ==> Ongoing() && env.t == old(env.t) + 1
    {
      var actions := DefaultActions(env.agents, _ => MinimalSpace);
      var obs, rew, term, trunc := env.Step(actions);
      lastObservation := obs;
      lastRewards := rew;
      lastTerminations := term;
      lastTruncations := trunc;
      stepsTaken := stepsTaken + 1;
      done := AllDone(env.agents, term, trunc);
      if done {
        obs := env.Reset();
        lastObservation := obs;
        lastRewards := map[];
        lastTerminations := map[];
        lastTruncations := map[];
      }
    }

    /** The loop of `step_session`: steps the environment `max(1, steps)`
        times with default actions, recording each result, and when every
        agent is done resets the environment, clears the per-step
        dictionaries and stops. */
    method Advance(steps: int)
      requires env.Valid()
      modifies this, env
      ensures env.Valid()
      ensures stepsTaken == old(stepsTaken) + StepCalls(old(env.t), |env.load|, steps)
      ensures env.lastRevenue == env.RevenueAt(old(env.t) + StepCalls(old(env.t), |env.load|, steps) - 1)
      ensures EndsInReset(old(env.t), |env.load|, steps) ==> Restarted()
      ensures !EndsInReset(old(env.t), |env.load|, steps) ==>
                Ongoing() && env.t == old(env.t) + StepCalls(old(env.t), |env.load|, steps)
      ensures |env.load| > 0 ==> env.t < |env.load|
    {
      ghost var t0 := env.t;
      ghost var n := |env.load|;
      var total := MaxInt(1, steps);
      var i := 0;
      while i < total
        invariant 0 <= i <= total && t0 + i <= n
        invariant i > 0 ==> t0 + i < n
        invariant env.Valid() && env.t == t0 + i
        invariant i == total ==> !EndsInReset(t0, n, steps)
        invariant stepsTaken == old(stepsTaken) + i
        invariant i > 0 ==> env.lastRevenue == env.RevenueAt(t0 + i - 1) && Ongoing()
      {
        var done := StepOnce();
        i := i + 1;
        if done {
          assert StepCalls(t0, n, steps) == i;
          break;
        }
      }
    }
  }

  /** The number of `env.step` calls `step_session` makes from cursor `t0`
      over `n` rows when asked for `steps`: it runs `max(1, steps)` times
      unless the data ends first. */
  function StepCalls(t0: nat, n: nat, steps: int): (c: nat)
    requires t0 <= n
    ensures 1 <= c <= MaxInt(1, steps)
    ensures c < MaxInt(1, steps) ==> t0 + c >= n
    ensures t0 + c > n ==> c == 1 && t0 == n
  {
    MinInt(MaxInt(1, steps), MaxInt(1, n - t0))
  }

  /** Whether those calls end with the data exhausted (and hence a reset). */
  predicate EndsInReset(t0: nat, n: nat, steps: int)
    requires t0 <= n
  {
    t0 + StepCalls(t0, n, steps) >= n
  }

  /** The cursor after those calls: back at the start after a reset, and
      otherwise moved on by the number of calls, short of the end. */
  function Stepped(t0: nat, n: nat, steps: int): (t: nat)
    requires t0 <= n
    ensures t == 0 <==> EndsInReset(t0, n, steps)
    ensures !EndsInReset(t0, n, steps) ==> t == t0 + StepCalls(t0, n, steps) < n
  {
    if EndsInReset(t0, n, steps) then 0 else t0 + StepCalls(t0, n, steps)
  }

  /** Asking for `a` steps and then `b` more is not the same as asking for
      `a + b` at once: the reset at the end of the data cuts the run short. */
  lemma SplitStepsDiffer()
    ensures StepCalls(0, 2, 3) == 2 && EndsInReset(0, 2, 3)
    ensures StepCalls(0, 2, 1) == 1 && !EndsInReset(0, 2, 1)
    ensures StepCalls(1, 2, 2) == 1 && EndsInReset(1, 2, 2)
  {
  }

  // ---------------------------------------------------------------------
  // Snapshots
  // ---------------------------------------------------------------------

  /** The Python values a snapshot may carry. An `NdArray` holds nested
      arrays or numpy scalars; `NpScalar` wraps the plain value `item()`
      returns. */
  datatype PyValue =
    | PNone
    | PBool(b: bool)
    | PInt(i: int)
    | PFloat(x: real)
    | PStr(s: string)
    | PList(items: seq<PyValue>)
    | PTuple(items: seq<PyValue>)
    | PDict(entries: seq<Entry>)
    | NdArray(items: seq<PyValue>)
    | NpScalar(item: PyValue)
  datatype Entry = Entry(key: string, value: PyValue)

  /** A value built only from Python's own types, with lists and not tuples. */
  predicate Plain(v: PyValue) {
    match v
    case PList(items) => forall i :: 0 <= i < |items| ==> Plain(items[i])
    case PTuple(_) => false
    case PDict(entries) => forall i :: 0 <= i < |entries| ==> Plain(entries[i].value)
    case NdArray(_) => false
    case NpScalar(_) => false
    case _ => true
  }

  function Keys(entries: seq<Entry>): seq<string> {
    seq(|entries|, i requires 0 <= i < |entries| => entries[i].key)
  }

  /** `_to_serializable`: arrays become lists, numpy scalars their items,
      dictionaries and sequences are converted element by element. */
  function ToSerializable(v: PyValue): (r: PyValue)
    ensures v.PDict? ==> r.PDict? && Keys(r.entries) == Keys(v.entries)
    ensures v.PDict? ==> forall i :: 0 <= i < |v.entries| ==>
              r.entries[i] == Entry(v.entries[i].key, ToSerializable(v.entries[i].value))
    ensures (v.PList? || v.PTuple? || v.NdArray?) ==> r.PList? && |r.items| == |v.items|
    ensures (v.PList? || v.PTuple? || v.NdArray?) ==>
              forall i :: 0 <= i < |v.items| ==> r.items[i] == ToSerializable(v.items[i])
    ensures v.NpScalar? ==> r == ToSerializable(v.item)
    ensures !(v.PDict? || v.PList? || v.PTuple? || v.NdArray? || v.NpScalar?) ==> r == v
    decreases v, 1
  {
    match v
    case NdArray(items) => PList(SerializeAll(items))
    case NpScalar(item) => ToSerializable(item)
    case PDict(entries) => PDict(SerializeEntries(entries))
    case PList(items) => PList(SerializeAll(items))
    case PTuple(items) => PList(SerializeAll(items))
    case _ => v
  }

  function SerializeAll(items: seq<PyValue>): (r: seq<PyValue>)
    ensures |r| == |items|
    decreases items, 0
  {
    seq(|items|, i requires 0 <= i < |items| => ToSerializable(items[i]))
  }

  function SerializeEntries(entries: seq<Entry>): (r: seq<Entry>)
    ensures |r| == |entries|
    ensures forall i :: 0 <= i < |r| ==> r[i].key == entries[i].key
    decreases entries, 0
  {
    seq(|entries|, i requires 0 <= i < |entries| => Entry(entries[i].key, ToSerializable(entries[i].value)))
  }

  /** Serialising always yields a plain value. */
  lemma {:induction false} SerializablePlain(v: PyValue)
    ensures Plain(ToSerializable(v))
    decreases v
  {
    match v
    case NdArray(items) =>
      forall i | 0 <= i < |items| ensures Plain(ToSerializable(items[i])) {
        SerializablePlain(items[i]);
      }
    case NpScalar(item) =>
      SerializablePlain(item);
    case PDict(entries) =>
      forall i | 0 <= i < |entries| ensures Plain(ToSerializable(entries[i].value)) {
        SerializablePlain(entries[i].value);
      }
    case PList(items) =>
      forall i | 0 <= i < |items| ensures Plain(ToSerializable(items[i])) {
        SerializablePlain(items[i]);
      }
    case PTuple(items) =>
      forall i | 0 <= i < |items| ensures Plain(ToSerializable(items[i])) {
        SerializablePlain(items[i]);
      }
    case _ =>
  }

  /** A plain value is serialised to itself. */
  lemma {:induction false} PlainSerializesToItself(v: PyValue)
    requires Plain(v)
    ensures ToSerializable(v) == v
    decreases v
  {
    match v
    case PList(items) =>
      forall i | 0 <= i < |items| ensures ToSerializable(items[i]) == items[i] {
        PlainSerializesToItself(items[i]);
      }
      assert SerializeAll(items) == items;
    case PDict(entries) =>
      forall i | 0 <= i < |entries| ensures ToSerializable(entries[i].value) == entries[i].value {
        PlainSerializesToItself(entries[i].value);
      }
      assert SerializeEntries(entries) == entries;
    case _ =>
  }

  /** Serialising twice is the same as serialising once. */
  lemma SerializeIdempotent(v: PyValue)
    ensures ToSerializable(ToSerializable(v)) == ToSerializable(v)
  {
    SerializablePlain(v);
    PlainSerializesToItself(ToSerializable(v));
  }

  /** `_safe_float`: None for None and for values `float()` rejects. */
  function SafeFloat(v: PyValue): (r: Option<real>)
    ensures v.PNone? ==> r.None?
    ensures v.PFloat? ==> r == Some(v.x)
    ensures v.PInt? ==> r == Some(v.i as real)
    ensures v.PBool? ==> r == Some(if v.b then 1.0 else 0.0)
    ensures v.NpScalar? ==> r == SafeFloat(v.item)
    ensures v.NdArray? ==> r == (if |v.items| == 1 then SafeFloat(v.items[0]) else None)
    ensures v.PStr? ==> r == ParseFloat(v.s)
    ensures (v.PList? || v.PTuple? || v.PDict?) ==> r.None?
    decreases v
  {
    match v
    case PNone => None
    case PBool(b) => Some(if b then 1.0 else 0.0)
    case PInt(i) => Some(i as real)
    case PFloat(x) => Some(x)
    case PStr(s) => ParseFloat(s)
    case NpScalar(item) => SafeFloat(item)
    case NdArray(items) => if |items| == 1 then SafeFloat(items[0]) else None
    case _ => None
  }

  datatype Metrics = Metrics(timestep: int, stepsTaken: nat, fundNav: Option<real>,
                             budget: Option<real>, lastRevenue: Option<real>)

  /** The metrics block of `build_state_snapshot`: the environment's `t` when
      it has one, else the step count; the money figures through SafeFloat. */
  function SnapshotMetrics(envT: Option<int>, stepsTaken: nat, equity: PyValue,
                           budget: PyValue, lastRevenue: PyValue): (r: Metrics)
    ensures envT.Some? ==> r.timestep == envT.value
    ensures envT.None? ==> r.timestep == stepsTaken
    ensures r.stepsTaken == stepsTaken
    ensures r.fundNav == SafeFloat(equity) && r.budget == SafeFloat(budget)
    ensures r.lastRevenue == SafeFloat(lastRevenue)
    ensures equity.PNone? ==> r.fundNav.None?
    ensures budget.PNone? ==> r.budget.None?
    ensures lastRevenue.PFloat? ==> r.lastRevenue == Some(lastRevenue.x)
  {
    Metrics(envT.GetOr(stepsTaken), stepsTaken, SafeFloat(equity), SafeFloat(budget), SafeFloat(lastRevenue))
  }

  datatype Snapshot = Snapshot(sessionId: string, observation: map<string, Obs>,
                               rewards: map<string, real>, terminations: map<string, bool>,
                               truncations: map<string, bool>, metrics: Metrics)

  /** `build_state_snapshot` for a session over the fallback environment,
      whose equity and budget are always None. */
  function BuildStateSnapshot(s: Session): (r: Snapshot)
    reads s, s.env
    ensures r.sessionId == s.sessionId && r.observation == s.lastObservation
    ensures r.rewards == s.lastRewards && r.terminations == s.lastTerminations
    ensures r.truncations == s.lastTruncations
    ensures r.metrics == Metrics(s.env.t, s.stepsTaken, None, None, Some(s.env.lastRevenue))
  {
    Snapshot(s.sessionId, s.lastObservation, s.lastRewards, s.lastTerminations, s.lastTruncations,
             SnapshotMetrics(Some(s.env.t), s.stepsTaken, PNone, PNone, PFloat(s.env.lastRevenue)))
  }

  // ---------------------------------------------------------------------
  // SimulationManager
  // ---------------------------------------------------------------------

  datatype ManagerError =
    | UnknownSession(id: string)
    | LoadFailed(reason: LoadError)

  class SimulationManager {
    var sessions: map<string, Session>

    /** Every session is filed under its own id and its cursor is in range. */
    ghost predicate Valid()
      reads this, sessions.Values, set s | s in sessions.Values :: s.env
    {
      forall id :: id in sessions ==> sessions[id].sessionId == id && sessions[id].env.Valid()
    }

    constructor ()
      ensures Valid() && sessions == map[]
    {
      sessions := map[];
    }

    /** `create_session` over the fallback environment: loads the table
        (with unit conversion on, the loader's default), builds and resets a
        fresh environment and files a new session under `freshId`, which
        stands in for the generated uuid. */
    method CreateSession(freshId: string, raw: Frame, investmentFreq: int)
      returns (r: Result<Session, ManagerError>)
      requires Valid() && WellFormed(raw) && freshId !in sessions
      modifies this
      ensures Valid()
      ensures r.Failure? <==> LoadEnergyFrame(raw, true).Failure?
      ensures r.Failure? ==> r.error == LoadFailed(LoadEnergyFrame(raw, true).error) && sessions == old(sessions)
      ensures r.Success? ==> fresh(r.value) && fresh(r.value.env)
      ensures r.Success? ==> sessions == old(sessions)[freshId := r.value]
      ensures r.Success? ==> r.value.sessionId == freshId && r.value.stepsTaken == 0
      ensures r.Success? ==> r.value.env.t == 0 && r.value.lastObservation == map[Manager := r.value.env.BuildObs(0)]
      ensures r.Success? ==>
                var data := LoadEnergyFrame(raw, true).value;
                var env := r.value.env;
                && env.investmentFreq == investmentFreq && env.lastRevenue == 0.0
                && env.wind == ColumnOrZeros(data, "wind") && env.solar == ColumnOrZeros(data, "solar")
                && env.hydro == ColumnOrZeros(data, "hydro") && env.load == ColumnOrZeros(data, "load")
                && env.price == ColumnOrZeros(data, "price")
    {
      var data := LoadEnergyFrame(raw, true);
      if data.Failure? {
        return Failure(LoadFailed(data.error));
      }
      var env := new MinimalEnv(data.value, investmentFreq);
      var obs := env.Reset();
      var session := new Session(freshId, env, obs);
      sessions := sessions[freshId := session];
      r := Success(session);
    }

    /** `close_session`: removes the entry if there is one. */
    method CloseSession(id: string)
      requires Valid()
      modifies this
      ensures Valid()
      ensures sessions == old(sessions) - {id}
      ensures id !in old(sessions) ==> sessions == old(sessions)
    {
      if id !in sessions {
        return;
      }
      sessions := sessions - {id};
    }

    /** `close_all`: empties the registry. */
    method CloseAll()
      modifies this
      ensures Valid() && sessions == map[]
    {
      sessions := map[];
    }

    /** `get_session`: the session filed under `id`, or KeyError. */
    method GetSession(id: string) returns (r: Result<Session, ManagerError>)
      ensures r.Success? <==> id in sessions
      ensures r.Success? ==> r.value == sessions[id]
      ensures r.Failure? ==> r.error == UnknownSession(id)
    {
      if id !in sessions {
        return Failure(UnknownSession(id));
      }
      r := Success(sessions[id]);
    }

    /** `step_session`: looks the session up (KeyError when it is unknown),
        advances it and reports its snapshot. */
    method StepSession(id: string, steps: int) returns (r: Result<Snapshot, ManagerError>)
      requires Valid()
      modifies if id in sessions then {sessions[id], sessions[id].env} else {}
      ensures Valid() && sessions == old(sessions)
      ensures r.Failure? <==> id !in sessions
      ensures r.Failure? ==> r.error == UnknownSession(id)
      ensures r.Success? ==>
        var s := sessions[id];
        var t0 := old(s.env.t);
        var c := StepCalls(t0, |s.env.load|, steps);
        && r.value == BuildStateSnapshot(s)
        && s.stepsTaken == old(s.stepsTaken) + c
        && s.env.lastRevenue == s.env.RevenueAt(t0 + c - 1)
        && (EndsInReset(t0, |s.env.load|, steps) ==> s.Restarted())
        && (!EndsInReset(t0, |s.env.load|, steps) ==> s.Ongoing() && s.env.t == t0 + c)
        && (|s.env.load| > 0 ==> s.env.t < |s.env.load|)
    {
      if id !in sessions {
        return Failure(UnknownSession(id));
      }
      var s := sessions[id];
      s.Advance(steps);
      r := Success(BuildStateSnapshot(s));
    }
  }
}
