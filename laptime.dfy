/** The bookkeeping of `compute_optimal_laptime`: option defaults, the
    cold-start seed, the warm-start problem, saving the solution's variables
    into the result tables and refilling the warm-start cache. The numerical
    engine (steady-state trim, collocation NLP) is a function parameter. */
module Laptime {
  import opened Common
  import opened Properties
  import opened ResultTables
  import opened Vehicles
  import opened Tracks

  /** km/h to m/s, the conversion applied to the initial speed. */
  const KMH: real := 1.0 / 3.6

  /** The `<initial_condition>` element: the vector-table entries holding
      the first point's q, qa and u. */
  datatype InitialCondition = InitialCondition(qTable: string, qaTable: string, uTable: string)

  /** The options document as parsed: `None` where an element is absent. */
  datatype Options = Options(
    warmStart: Option<bool>,
    saveWarmStart: Option<bool>,
    writeXml: Option<bool>,
    printLevel: Option<nat>,
    saveVariables: Option<SaveVariables>,
    initialSpeed: Option<real>,
    closedSimulation: Option<bool>,
    initialCondition: Option<InitialCondition>,
    sigma: Option<real>)

  /** An empty options string. */
  const NoOptions: Options := Options(None, None, None, None, None, None, None, None, None)

  /** The options in force for one solve. */
  datatype Config = Config(
    warmStart: bool,
    saveWarmStart: bool,
    writeXml: bool,
    printLevel: nat,
    initialSpeed: real,
    isDirect: bool,
    isClosed: bool,
    dissipations: (real, real),
    start: Option<Point>,
    sigma: real,
    prefix: string,
    variables: seq<string>)

  /** The dissipation weights; they depend only on the family and no option
      changes them. */
  function Dissipations(family: Family): (d: (real, real))
    ensures family == Lot2016Kart ==> d == (0.01, 0.000004)
    ensures family == Limebeer2014F1 ==> d == (5.0, 0.0008)
  {
    match family
    case Lot2016Kart => (1.0e-2, 200.0 * 200.0 * 1.0e-10)
    case Limebeer2014F1 => (5.0, 8.0e-4)
  }

  /** Option processing: family defaults, then the elements present in the
      document. The initial condition is read from the vector table, whose
      `at` throws for a missing entry (q, then qa, then u). */
  function ResolveOptions(family: Family, o: Options, vectors: map<string, seq<real>>): (r: Result<Config>)
    ensures r.Err? <==> (o.initialCondition.Some? &&
      (o.initialCondition.value.qTable !in vectors
       || o.initialCondition.value.qaTable !in vectors
       || o.initialCondition.value.uTable !in vectors))
    ensures r.Err? ==> var ic := o.initialCondition.value;
      r.error == InitialConditionNotFound(
        if ic.qTable !in vectors then ic.qTable else if ic.qaTable !in vectors then ic.qaTable else ic.uTable)
    ensures r.Ok? ==> r.value.isDirect == (family == Limebeer2014F1) && r.value.dissipations == Dissipations(family)
    ensures r.Ok? ==> r.value.warmStart == (o.warmStart == Some(true)) && r.value.saveWarmStart == (o.saveWarmStart == Some(true))
    ensures r.Ok? ==> r.value.writeXml == (o.writeXml == Some(true)) && r.value.printLevel == o.printLevel.GetOr(0)
    ensures r.Ok? ==> r.value.initialSpeed == o.initialSpeed.GetOr(50.0) && r.value.sigma == o.sigma.GetOr(0.5)
    ensures r.Ok? ==> r.value.isClosed == (o.closedSimulation != Some(false))
    ensures r.Ok? ==> r.value.prefix == (if o.saveVariables.Some? then o.saveVariables.value.prefix else "")
    ensures r.Ok? ==> r.value.variables == (if o.saveVariables.Some? then o.saveVariables.value.variables else [])
    ensures r.Ok? ==> (r.value.start.Some? <==> o.initialCondition.Some?)
    ensures r.Ok? && o.initialCondition.Some? ==>
      var ic := o.initialCondition.value;
      r.value.start == Some(Point(vectors[ic.qTable], vectors[ic.qaTable], vectors[ic.uTable]))
  {
    var start :- match o.initialCondition
      case None => Ok(None)
      case Some(ic) =>
        if ic.qTable !in vectors then Err(InitialConditionNotFound(ic.qTable))
        else if ic.qaTable !in vectors then Err(InitialConditionNotFound(ic.qaTable))
        else if ic.uTable !in vectors then Err(InitialConditionNotFound(ic.uTable))
        else Ok(Some(Point(vectors[ic.qTable], vectors[ic.qaTable], vectors[ic.uTable])));
    var save := o.saveVariables.GetOr(NoSaveVariables);
    Ok(Config(
      o.warmStart.GetOr(false),
      o.saveWarmStart.GetOr(false),
      o.writeXml.GetOr(false),
      o.printLevel.GetOr(0),
      o.initialSpeed.GetOr(50.0),
      family == Limebeer2014F1,
      o.closedSimulation.GetOr(true),
      Dissipations(family),
      start,
      o.sigma.GetOr(0.5),
      save.prefix,
      save.variables))
  }

  /** With an empty options string every setting takes its default: cold
      start, no cache save, 50 km/h, closed track, sigma 0.5, nothing saved;
      the F1 car is solved by direct transcription with its own weights. */
  lemma DefaultOptions(family: Family, vectors: map<string, seq<real>>)
    ensures ResolveOptions(family, NoOptions, vectors) == Ok(Config(
      false, false, false, 0, 50.0, family == Limebeer2014F1, true,
      if family == Limebeer2014F1 then (5.0, 8.0e-4) else (0.01, 0.000004),
      None, 0.5, "", []))
  {
  }

  /** The starting trajectory of a cold start, one array per kind. */
  datatype Seed = Seed(q: seq<seq<real>>, qa: seq<seq<real>>, u: seq<seq<real>>)

  /** The trim point; for a kart the second control is zeroed after the
      steady-state solve. */
  function TrimFor(family: Family, ss: Point): (r: Point)
    requires family == Lot2016Kart ==> |ss.u| > 1
    ensures r.q == ss.q && r.qa == ss.qa && |r.u| == |ss.u|
    ensures family == Lot2016Kart ==> r.u[1] == 0.0
    ensures forall i :: 0 <= i < |ss.u| && (i != 1 || family == Limebeer2014F1) ==> r.u[i] == ss.u[i]
  {
    if family == Lot2016Kart then ss.(u := ss.u[1 := 0.0]) else ss
  }

  /** The cold-start seed: the trim replicated over all `n` points, the
      first one replaced by the initial condition when there is one. */
  function ColdSeed(n: nat, trim: Point, start: Option<Point>): (r: Seed)
    requires start.Some? ==> n > 0
    ensures |r.q| == n && |r.qa| == n && |r.u| == n
    ensures forall i :: 0 <= i < n && (i > 0 || start.None?) ==>
      r.q[i] == trim.q && r.qa[i] == trim.qa && r.u[i] == trim.u
    ensures start.Some? ==> r.q[0] == start.value.q && r.qa[0] == start.value.qa && r.u[0] == start.value.u
  {
    var q0 := seq(n, _ => trim.q);
    var qa0 := seq(n, _ => trim.qa);
    var u0 := seq(n, _ => trim.u);
    match start
    case None => Seed(q0, qa0, u0)
    case Some(p) => Seed(q0[0 := p.q], qa0[0 := p.qa], u0[0 := p.u])
  }

  /** The warm-start cache: grid, dual vectors and primal trajectory of the
      last solve that asked for it. */
  datatype WarmStart = WarmStart(
    s: seq<real>, zl: seq<real>, zu: seq<real>, lambda: seq<real>,
    q: seq<seq<real>>, qa: seq<seq<real>>, u: seq<seq<real>>)

  const NoWarmStart: WarmStart := WarmStart([], [], [], [], [], [], [])

  datatype Duals = Duals(zl: seq<real>, zu: seq<real>, lambda: seq<real>)

  /** What the engine is asked to solve. */
  datatype Problem = Problem(
    grid: seq<real>, closed: bool, direct: bool, seed: Seed,
    dissipations: (real, real), duals: Option<Duals>, sigma: real, printLevel: nat)

  /** What the engine returns: grid, trajectory, lap time and multipliers. */
  datatype Solution = Solution(
    s: seq<real>, q: seq<seq<real>>, qa: seq<seq<real>>, u: seq<seq<real>>,
    laptime: real, zl: seq<real>, zu: seq<real>, lambda: seq<real>)

  /** The steady-state solver at a speed in m/s with zero accelerations. */
  type SteadyState = (Vehicle, real) -> Point

  /** The optimal-laptime engine on a vehicle whose curvilinear model has
      the track attached. */
  type Engine = (Vehicle, Problem) -> Solution

  /** One point of the solution per grid point. */
  predicate Shaped(sol: Solution, n: nat)
  {
    |sol.q| == n && |sol.qa| == n && |sol.u| == n
  }

  ghost predicate EngineShaped(engine: Engine)
  {
    forall vehicle, p :: Shaped(engine(vehicle, p), |p.grid|)
  }

  /** The problem handed to the engine. A cold start uses the caller's grid
      and the cold seed; a warm start uses the cached grid, trajectory and
      duals as they are, without checking them against the caller's grid. */
  function BuildProblem(cfg: Config, s: seq<real>, trim: Point, ws: WarmStart): (p: Problem)
    requires !cfg.warmStart && cfg.start.Some? ==> |s| > 0
    ensures !cfg.warmStart ==> p.grid == s && p.duals.None? && p.seed == ColdSeed(|s|, trim, cfg.start)
    ensures cfg.warmStart ==> p.grid == ws.s && p.seed == Seed(ws.q, ws.qa, ws.u) && p.duals == Some(Duals(ws.zl, ws.zu, ws.lambda))
    ensures p.closed == cfg.isClosed && p.direct == cfg.isDirect && p.dissipations == cfg.dissipations
    ensures p.sigma == cfg.sigma && p.printLevel == cfg.printLevel
  {
    if !cfg.warmStart then
      Problem(s, cfg.isClosed, cfg.isDirect, ColdSeed(|s|, trim, cfg.start), cfg.dissipations, None, cfg.sigma, cfg.printLevel)
    else
      Problem(ws.s, cfg.isClosed, cfg.isDirect, Seed(ws.q, ws.qa, ws.u), cfg.dissipations,
              Some(Duals(ws.zl, ws.zu, ws.lambda)), cfg.sigma, cfg.printLevel)
  }

  /** A warm start ignores the caller's grid and the trim: two requests that
      differ only in those pose the same problem. */
  lemma WarmProblemIgnoresGrid(cfg: Config, s1: seq<real>, s2: seq<real>, trim1: Point, trim2: Point, ws: WarmStart)
    requires cfg.warmStart
    ensures BuildProblem(cfg, s1, trim1, ws) == BuildProblem(cfg, s2, trim2, ws)
  {
  }

  /** The cache refill after a solve: every field is overwritten, and q, qa
      and u are rebuilt with one entry per solution point. */
  function Bundle(sol: Solution): (w: WarmStart)
    requires |sol.qa| >= |sol.q| && |sol.u| >= |sol.q|
    ensures w.s == sol.s && w.zl == sol.zl && w.zu == sol.zu && w.lambda == sol.lambda
    ensures |w.q| == |sol.q| && |w.qa| == |sol.q| && |w.u| == |sol.q|
    ensures forall i :: 0 <= i < |sol.q| ==> w.q[i] == sol.q[i] && w.qa[i] == sol.qa[i] && w.u[i] == sol.u[i]
  {
    WarmStart(sol.s, sol.zl, sol.zu, sol.lambda, sol.q, sol.qa[..|sol.q|], sol.u[..|sol.q|])
  }

  /** A warm start after a cache save poses exactly the saved solution:
      its grid, its trajectory as seed and its multipliers. */
  lemma WarmStartRoundTrip(cfg: Config, s: seq<real>, trim: Point, sol: Solution)
    requires cfg.warmStart && Shaped(sol, |sol.q|)
    ensures BuildProblem(cfg, s, trim, Bundle(sol)).grid == sol.s
    ensures BuildProblem(cfg, s, trim, Bundle(sol)).seed == Seed(sol.q, sol.qa, sol.u)
    ensures BuildProblem(cfg, s, trim, Bundle(sol)).duals == Some(Duals(sol.zl, sol.zu, sol.lambda))
  {
    assert sol.qa[..|sol.q|] == sol.qa;
    assert sol.u[..|sol.q|] == sol.u;
  }

  /** What output saving reads: the vehicle model, the solution and the
      caller's grid, which fixes the number of points saved. */
  datatype OutputContext = OutputContext(probe: Probe, vehicle: Vehicle, solution: Solution, s: seq<real>) {
    /** The solution has a point for every point of the caller's grid. */
    predicate Valid()
    {
      |s| <= |solution.q| && |s| <= |solution.qa| && |s| <= |solution.u|
    }

    function PointAt(i: nat): Point
      requires Valid() && i < |s|
    {
      Point(solution.q[i], solution.qa[i], solution.u[i])
    }
  }

  /** The vector saved under a variable name: the named property at every
      point of the caller's grid. The name is dispatched inside the loop
      over the points, so with no points even an unknown name yields an
      empty vector. */
  function Column(ctx: OutputContext, name: string): (r: Result<seq<real>>)
    requires ctx.Valid()
    ensures r.Err? <==> |ctx.s| > 0 && Lookup(ctx.vehicle.family, name).Err?
    ensures r.Err? ==> r.error == Lookup(ctx.vehicle.family, name).error
    ensures r.Ok? ==> |r.value| == |ctx.s|
    ensures r.Ok? ==> forall i :: 0 <= i < |ctx.s| ==>
      OutputProperty(ctx.probe, ctx.vehicle, ctx.PointAt(i), ctx.s[i], name) == Ok(r.value[i])
  {
    if |ctx.s| == 0 then Ok([])
    else match Lookup(ctx.vehicle.family, name)
      case Err(e) => Err(e)
      case Ok(q) => Ok(seq(|ctx.s|, i requires 0 <= i < |ctx.s| => Value(ctx.probe, ctx.vehicle, q, ctx.PointAt(i), ctx.s[i])))
  }

  /** The loop that fills the output vector point by point. */
  method OutputColumn(ctx: OutputContext, name: string) returns (r: Result<seq<real>>)
    requires ctx.Valid()
    ensures r == Column(ctx, name)
  {
    var n := |ctx.s|;
    var data := new real[n];
    var i := 0;
    while i < n
      invariant 0 <= i <= n
      invariant i > 0 ==> Lookup(ctx.vehicle.family, name).Ok?
      invariant forall j :: 0 <= j < i ==>
        data[j] == Value(ctx.probe, ctx.vehicle, Lookup(ctx.vehicle.family, name).value, ctx.PointAt(j), ctx.s[j])
    {
      var found := Lookup(ctx.vehicle.family, name);
      if found.Err? {
        return Err(found.error);
      }
      data[i] := Value(ctx.probe, ctx.vehicle, found.value, ctx.PointAt(i), ctx.s[i]);
      i := i + 1;
    }
    if n == 0 {
      return Ok([]);
    }
    var column := Column(ctx, name);
    forall j | 0 <= j < n
      ensures column.value[j] == data[..][j]
    {
      assert OutputProperty(ctx.probe, ctx.vehicle, ctx.PointAt(j), ctx.s[j], name) == Ok(column.value[j]);
    }
    assert column.value == data[..];
    r := Ok(data[..]);
  }

  /** Every name is "laptime", so no vector is ever built. */
  predicate OnlyLaptime(names: seq<string>)
  {
    forall i :: 0 <= i < |names| ==> names[i] == "laptime"
  }

  /** The loop over the variables to save: the key `prefix + name` must be
      free in both tables; "laptime" goes to the scalar table, any other
      name to the vector table. The first failure stops the loop, and what
      was saved before it stays saved. */
  function SaveOutputs(t: Tables, prefix: string, names: seq<string>, ctx: OutputContext): (o: Saved)
    requires OnlyLaptime(names) || ctx.Valid()
    ensures o.failure.Some? ==> var e := o.failure.value;
      e.ExistsInScalarTable? || e.ExistsInVectorTable? || e.VariableNotDefined? || e.OnlyForLimebeer?
    ensures OnlyLaptime(names) ==> o.tables.vectors == t.vectors
    decreases |names|
  {
    if names == [] then Saved(t, None)
    else
      var key := prefix + names[0];
      match CheckFree(t, key)
      case Some(e) => Saved(t, Some(e))
      case None =>
        if names[0] == "laptime" then
          SaveOutputs(t.(scalars := t.scalars[key := ctx.solution.laptime]), prefix, names[1..], ctx)
        else
          match Column(ctx, names[0])
          case Err(e) => Saved(t, Some(e))
          case Ok(data) => SaveOutputs(t.(vectors := t.vectors[key := data]), prefix, names[1..], ctx)
  }

  /** Every entry of `before` is in `after`, with the same value. */
  predicate Kept(before: Tables, after: Tables)
  {
    && (forall k :: k in before.scalars ==> k in after.scalars && after.scalars[k] == before.scalars[k])
    && (forall k :: k in before.vectors ==> k in after.vectors && after.vectors[k] == before.vectors[k])
  }

  /** Saving outputs never loses an entry: everything in the tables before,
      and everything saved before a failure, is still there. */
  lemma {:induction false} SaveOutputsKeeps(t: Tables, prefix: string, names: seq<string>, ctx: OutputContext)
    requires OnlyLaptime(names) || ctx.Valid()
    ensures Kept(t, SaveOutputs(t, prefix, names, ctx).tables)
    decreases |names|
  {
    if names != [] {
      var key := prefix + names[0];
      if CheckFree(t, key).None? {
        if names[0] == "laptime" {
          SaveOutputsKeeps(t.(scalars := t.scalars[key := ctx.solution.laptime]), prefix, names[1..], ctx);
        } else if Column(ctx, names[0]).Ok? {
          SaveOutputsKeeps(t.(vectors := t.vectors[key := Column(ctx, names[0]).value]), prefix, names[1..], ctx);
        }
      }
    }
  }

  /** What a shorter list of names saves, a longer one keeps: in
      particular, when saving fails at `names[i]`, the outputs of
      `names[..i]` are in the tables. */
  lemma {:induction false} SaveOutputsPrefix(t: Tables, prefix: string, names: seq<string>, ctx: OutputContext, i: nat)
    requires OnlyLaptime(names) || ctx.Valid()
    requires i <= |names|
    ensures OnlyLaptime(names[..i]) || ctx.Valid()
    ensures SaveOutputs(t, prefix, names[..i], ctx).failure.None? ==>
      Kept(SaveOutputs(t, prefix, names[..i], ctx).tables, SaveOutputs(t, prefix, names, ctx).tables)
    decreases i
  {
    assert OnlyLaptime(names) ==> OnlyLaptime(names[..i]) by {
      if OnlyLaptime(names) {
        forall j | 0 <= j < i ensures names[..i][j] == "laptime" {
          assert names[..i][j] == names[j];
        }
      }
    }
    if i == 0 {
      assert names[..0] == [];
      SaveOutputsKeeps(t, prefix, names, ctx);
    } else {
      var key := prefix + names[0];
      var rest := names[1..];
      assert names[..i][0] == names[0] && names[..i][1..] == rest[..i - 1];
      assert OnlyLaptime(rest) || ctx.Valid() by {
        if OnlyLaptime(names) {
          forall j | 0 <= j < |rest| ensures rest[j] == "laptime" {
            assert rest[j] == names[j + 1];
          }
        }
      }
      if CheckFree(t, key).None? && (names[0] == "laptime" || Column(ctx, names[0]).Ok?) {
        var t1 := if names[0] == "laptime" then t.(scalars := t.scalars[key := ctx.solution.laptime])
                  else t.(vectors := t.vectors[key := Column(ctx, names[0]).value]);
        assert SaveOutputs(t, prefix, names[..i], ctx) == SaveOutputs(t1, prefix, rest[..i - 1], ctx);
        assert SaveOutputs(t, prefix, names, ctx) == SaveOutputs(t1, prefix, rest, ctx);
        SaveOutputsPrefix(t1, prefix, rest, ctx, i - 1);
      }
    }
  }

  /** A key already taken in either table makes saving fail, however late
      in the list its name comes. */
  lemma {:induction false} SaveOutputsCollision(t: Tables, prefix: string, names: seq<string>, ctx: OutputContext, i: nat)
    requires OnlyLaptime(names) || ctx.Valid()
    requires i < |names| && t.Has(prefix + names[i])
    ensures SaveOutputs(t, prefix, names, ctx).failure.Some?
    decreases i
  {
    var key := prefix + names[0];
    if i > 0 && CheckFree(t, key).None? {
      assert names[1..][i - 1] == names[i];
      if names[0] == "laptime" {
        SaveOutputsCollision(t.(scalars := t.scalars[key := ctx.solution.laptime]), prefix, names[1..], ctx, i - 1);
      } else if Column(ctx, names[0]).Ok? {
        SaveOutputsCollision(t.(vectors := t.vectors[key := Column(ctx, names[0]).value]), prefix, names[1..], ctx, i - 1);
      }
    }
  }

  /** The keys a list of output names is saved under. */
  function KeysOf(prefix: string, names: seq<string>): set<string>
  {
    set n | n in names :: prefix + n
  }

  /** The tables that come out of saving outputs hold no key other than
      those already there and those the names are saved under. */
  lemma {:induction false} SaveOutputsDomain(t: Tables, prefix: string, names: seq<string>, ctx: OutputContext)
    requires OnlyLaptime(names) || ctx.Valid()
    ensures var o := SaveOutputs(t, prefix, names, ctx).tables;
      && o.scalars.Keys <= t.scalars.Keys + KeysOf(prefix, names)
      && o.vectors.Keys <= t.vectors.Keys + KeysOf(prefix, names)
    decreases |names|
  {
    if names != [] {
      var key := prefix + names[0];
      assert KeysOf(prefix, names) == {key} + KeysOf(prefix, names[1..]) by {
        assert names == [names[0]] + names[1..];
      }
      if CheckFree(t, key).None? {
        if names[0] == "laptime" {
          SaveOutputsDomain(t.(scalars := t.scalars[key := ctx.solution.laptime]), prefix, names[1..], ctx);
        } else if Column(ctx, names[0]).Ok? {
          SaveOutputsDomain(t.(vectors := t.vectors[key := Column(ctx, names[0]).value]), prefix, names[1..], ctx);
        }
      }
    }
  }

  /** After a successful save, `key` was free beforehand and now holds the
      output named `name`: the lap time in the scalar table only, or the
      named property's vector in the vector table only. */
  predicate SavedAs(t: Tables, o: Tables, key: string, name: string, ctx: OutputContext)
  {
    && !t.Has(key)
    && (name == "laptime" ==> key in o.scalars && o.scalars[key] == ctx.solution.laptime && key !in o.vectors)
    && (name != "laptime" ==> ctx.Valid() && key in o.vectors && Column(ctx, name) == Ok(o.vectors[key]) && key !in o.scalars)
  }

  /** A successful save stores every requested output under its own key,
      which was free before: the keys of the names are pairwise distinct
      and none was taken. */
  lemma {:induction false} SaveOutputsSuccess(t: Tables, prefix: string, names: seq<string>, ctx: OutputContext)
    requires OnlyLaptime(names) || ctx.Valid()
    requires SaveOutputs(t, prefix, names, ctx).failure.None?
    ensures forall i :: 0 <= i < |names| ==>
      SavedAs(t, SaveOutputs(t, prefix, names, ctx).tables, prefix + names[i], names[i], ctx)
    decreases |names|
  {
    if names != [] {
      var rest := names[1..];
      var t1 := SaveFirst(t, prefix, names, ctx);
      var o := SaveOutputs(t1, prefix, rest, ctx).tables;
      assert OnlyLaptime(rest) || ctx.Valid();
      SaveOutputsSuccess(t1, prefix, rest, ctx);
      SavedFirst(t, prefix, names, ctx);
      forall i | 1 <= i < |names| ensures SavedAs(t, o, prefix + names[i], names[i], ctx) {
        assert rest[i - 1] == names[i];
        assert SavedAs(t1, o, prefix + rest[i - 1], rest[i - 1], ctx);
      }
    }
  }

  /** The tables after the first output of a save that succeeds. */
  function SaveFirst(t: Tables, prefix: string, names: seq<string>, ctx: OutputContext): (t1: Tables)
    requires OnlyLaptime(names) || ctx.Valid()
    requires names != [] && SaveOutputs(t, prefix, names, ctx).failure.None?
    ensures !t.Has(prefix + names[0])
    ensures SaveOutputs(t1, prefix, names[1..], ctx) == SaveOutputs(t, prefix, names, ctx)
    ensures names[0] == "laptime" ==> t1 == t.(scalars := t.scalars[prefix + names[0] := ctx.solution.laptime])
    ensures names[0] != "laptime" ==> ctx.Valid() && Column(ctx, names[0]).Ok?
    ensures names[0] != "laptime" ==> t1 == t.(vectors := t.vectors[prefix + names[0] := Column(ctx, names[0]).value])
  {
    var key := prefix + names[0];
    if names[0] == "laptime" then t.(scalars := t.scalars[key := ctx.solution.laptime])
    else t.(vectors := t.vectors[key := Column(ctx, names[0]).value])
  }

  /** The first output of a successful save ends up under its key, which
      no later output reuses. */
  lemma SavedFirst(t: Tables, prefix: string, names: seq<string>, ctx: OutputContext)
    requires OnlyLaptime(names) || ctx.Valid()
    requires names != [] && SaveOutputs(t, prefix, names, ctx).failure.None?
    requires var t1 := SaveFirst(t, prefix, names, ctx);
      forall i :: 0 <= i < |names| - 1 ==>
        SavedAs(t1, SaveOutputs(t1, prefix, names[1..], ctx).tables, prefix + names[1..][i], names[1..][i], ctx)
    ensures SavedAs(t, SaveOutputs(t, prefix, names, ctx).tables, prefix + names[0], names[0], ctx)
  {
    var key := prefix + names[0];
    var rest := names[1..];
    var t1 := SaveFirst(t, prefix, names, ctx);
    assert OnlyLaptime(rest) || ctx.Valid();
    var o := SaveOutputs(t1, prefix, rest, ctx).tables;
    SaveOutputsKeeps(t1, prefix, rest, ctx);
    SaveOutputsDomain(t1, prefix, rest, ctx);
    forall n | n in rest ensures prefix + n != key {
      var j :| 0 <= j < |rest| && rest[j] == n;
      assert SavedAs(t1, o, prefix + rest[j], rest[j], ctx);
    }
    assert key !in KeysOf(prefix, rest);
  }

  /** A warm start with vector outputs reads the solution at every point of
      the caller's grid, and the solution has as many points as the cached
      grid; C++ leaves reading past its end undefined. A cold start with an
      initial condition overwrites the first point, which must exist. */
  ghost predicate WellPosed(g: Garage, options: Options, s: seq<real>, ws: WarmStart, steady: SteadyState, engine: Engine)
  {
    && Filed(g)
    && EngineShaped(engine)
    && (forall vehicle: Vehicle, v: real :: vehicle.family == Lot2016Kart ==> |steady(vehicle, v).u| > 1)
    && (options.warmStart == Some(true) && options.saveVariables.Some? && !OnlyLaptime(options.saveVariables.value.variables) ==> |s| <= |ws.s|)
    && (options.warmStart != Some(true) && options.initialCondition.Some? ==> |s| > 0)
  }

  /** The vehicle registries, the result tables, the cache and the error
      after one solve. */
  datatype Run = Run(garage: Garage, tables: Tables, warmStart: WarmStart, failure: Option<Error>)

  /** `optimal_laptime` and `compute_optimal_laptime`: look up the vehicle
      and the track, resolve the options, attach the track to the
      registered vehicle, solve, save the outputs, and only then, if asked,
      replace the cache. A handle whose type is neither family does
      nothing. */
  function RunOptimalLaptime(g: Garage, tracks: map<string, Track>, t: Tables, ws: WarmStart, h: Handle, trackName: string,
                             s: seq<real>, options: Options, steady: SteadyState, engine: Engine, probe: Probe): (o: Run)
    requires WellPosed(g, options, s, ws, steady, engine)
    ensures h.tag.None? ==> o == Run(g, t, ws, None)
    ensures h.tag.Some? && h.name !in g.Of(h.tag.value) ==> o == Run(g, t, ws, Some(VehicleNotFound(h.name)))
    ensures h.tag.Some? && h.name in g.Of(h.tag.value) && trackName !in tracks ==>
      o == Run(g, t, ws, Some(TrackNotFound(trackName)))
    ensures o.garage == g || (h.tag.Some? && h.name in g.Of(h.tag.value) && trackName in tracks
      && o.garage == AttachTrack(g, h.tag.value, h.name, tracks[trackName]))
    ensures o.failure.Some? ==> o.warmStart == ws
    ensures Filed(o.garage)
  {
    match h.tag
    case None => Run(g, t, ws, None)
    case Some(f) =>
      if h.name !in g.Of(f) then Run(g, t, ws, Some(VehicleNotFound(h.name)))
      else if trackName !in tracks then Run(g, t, ws, Some(TrackNotFound(trackName)))
      else
        match ResolveOptions(f, options, t.vectors)
        case Err(e) => Run(g, t, ws, Some(e))
        case Ok(cfg) =>
          var attached := AttachTrack(g, f, h.name, tracks[trackName]);
          var vehicle := attached.Of(f)[h.name];
          var trim := TrimFor(f, steady(vehicle, cfg.initialSpeed * KMH));
          var sol := engine(vehicle, BuildProblem(cfg, s, trim, ws));
          Finish(attached, t, ws, cfg, OutputContext(probe, vehicle, sol, s))
  }

  /** What follows the solve: save the outputs, then, only if that
      succeeded and it was asked for, replace the whole cache with the new
      solution. */
  function Finish(g: Garage, t: Tables, ws: WarmStart, cfg: Config, ctx: OutputContext): (o: Run)
    requires OnlyLaptime(cfg.variables) || ctx.Valid()
    requires Shaped(ctx.solution, |ctx.solution.q|)
    ensures o.garage == g
    ensures var saved := SaveOutputs(t, cfg.prefix, cfg.variables, ctx);
      o.tables == saved.tables && o.failure == saved.failure
    ensures cfg.saveWarmStart && o.failure.None? ==> o.warmStart == Bundle(ctx.solution)
    ensures !cfg.saveWarmStart || o.failure.Some? ==> o.warmStart == ws
  {
    var saved := SaveOutputs(t, cfg.prefix, cfg.variables, ctx);
    if saved.failure.Some? then Run(g, saved.tables, ws, saved.failure)
    else Run(g, saved.tables, if cfg.saveWarmStart then Bundle(ctx.solution) else ws, None)
  }

  /** The track stays attached to the vehicle once the options are
      resolved, whether or not saving the outputs succeeds; an option error
      leaves the vehicle as it was. */
  lemma AttachedBeforeSolve(g: Garage, tracks: map<string, Track>, t: Tables, ws: WarmStart, h: Handle, trackName: string,
                            s: seq<real>, options: Options, steady: SteadyState, engine: Engine, probe: Probe)
    requires WellPosed(g, options, s, ws, steady, engine)
    requires h.tag.Some? && h.name in g.Of(h.tag.value) && trackName in tracks
    ensures var o := RunOptimalLaptime(g, tracks, t, ws, h, trackName, s, options, steady, engine, probe);
      var r := ResolveOptions(h.tag.value, options, t.vectors);
      && (r.Ok? ==> o.garage == AttachTrack(g, h.tag.value, h.name, tracks[trackName]))
      && (r.Err? ==> o == Run(g, t, ws, Some(r.error)))
  {
  }

  /** The cache changes only when the whole solve, output saving included,
      succeeded and the cache save was asked for; and when both hold it is
      refilled with one entry per point of the engine's grid. */
  lemma WarmStartSavedLast(g: Garage, tracks: map<string, Track>, t: Tables, ws: WarmStart, h: Handle, trackName: string,
                           s: seq<real>, options: Options, steady: SteadyState, engine: Engine, probe: Probe)
    requires WellPosed(g, options, s, ws, steady, engine)
    ensures var o := RunOptimalLaptime(g, tracks, t, ws, h, trackName, s, options, steady, engine, probe);
      o.warmStart != ws ==> o.failure.None? && options.saveWarmStart == Some(true)
    ensures var o := RunOptimalLaptime(g, tracks, t, ws, h, trackName, s, options, steady, engine, probe);
      h.tag.Some? && o.failure.None? && options.saveWarmStart == Some(true) ==>
        && |o.warmStart.q| == |o.warmStart.qa| == |o.warmStart.u|
        && |o.warmStart.q| == (if options.warmStart == Some(true) then |ws.s| else |s|)
  {
  }
}
