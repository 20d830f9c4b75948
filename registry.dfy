/** The process-wide state of the C API as one object: the two vehicle
    maps, the track map, the scalar and vector result tables and the
    warm-start cache. Each API entry point that changes that state is a
    method, proved against the function that specifies it. */
module Api {
  import opened Common
  import opened Properties
  import opened ResultTables
  import opened Vehicles
  import opened Tracks
  import opened Laptime

  class Registry {
    var karts: map<string, Vehicle>
    var f1s: map<string, Vehicle>
    var tracks: map<string, Track>
    var scalars: map<string, real>
    var vectors: map<string, seq<real>>
    var warmStart: WarmStart

    function Garage(): Garage
      reads this
    {
      Vehicles.Garage(karts, f1s)
    }

    function Results(): Tables
      reads this
    {
      Tables(scalars, vectors)
    }

    /** Every vehicle sits in the map of its own family. */
    ghost predicate Valid()
      reads this
    {
      Filed(Garage())
    }

    /** Program start: every map empty, the cache empty. */
    constructor ()
      ensures Valid()
      ensures karts == map[] && f1s == map[] && tracks == map[]
      ensures scalars == map[] && vectors == map[] && warmStart == NoWarmStart
    {
      karts := map[];
      f1s := map[];
      tracks := map[];
      scalars := map[];
      vectors := map[];
      warmStart := NoWarmStart;
    }

    /** `create_vehicle`: on success the caller's handle carries the name and
        the family; nothing but the family's map changes. */
    method CreateVehicle(name: string, vehicleType: string, databaseFile: string, database: Database) returns (r: Result<Handle>)
      requires Valid()
      modifies this
      ensures Valid()
      ensures var c := Vehicles.CreateVehicle(old(Garage()), name, vehicleType, databaseFile, database);
        && (c.Ok? ==> Garage() == c.value && r == Ok(Handle(name, FamilyOf(vehicleType))))
        && (c.Err? ==> Garage() == old(Garage()) && r == Err(c.error))
      ensures tracks == old(tracks) && Results() == old(Results()) && warmStart == old(warmStart)
    {
      if vehicleType == KartType {
        if name in karts {
          return Err(VehicleExists(Lot2016Kart, name));
        }
        if database.rootType != vehicleType {
          return Err(DatabaseTypeMismatch(Lot2016Kart));
        }
        karts := karts[name := Vehicle(Lot2016Kart, FromDatabase(databaseFile), None)];
        r := Ok(Handle(name, Some(Lot2016Kart)));
      } else if vehicleType == F1Type {
        if name in f1s {
          return Err(VehicleExists(Limebeer2014F1, name));
        }
        if |databaseFile| > 0 {
          if database.rootType != vehicleType {
            return Err(DatabaseTypeMismatch(Limebeer2014F1));
          }
          f1s := f1s[name := Vehicle(Limebeer2014F1, FromDatabase(databaseFile), None)];
        } else {
          f1s := f1s[name := Vehicle(Limebeer2014F1, DefaultCar, None)];
        }
        r := Ok(Handle(name, Some(Limebeer2014F1)));
      } else {
        r := Err(VehicleTypeNotRecognized);
      }
    }

    /** `delete_vehicle`: erase the handle's name from its family's map. */
    method DeleteVehicle(h: Handle) returns (failure: Option<Error>)
      requires Valid()
      modifies this
      ensures Valid()
      ensures var d := Vehicles.DeleteVehicle(old(Garage()), h);
        && (d.Ok? ==> Garage() == d.value && failure.None?)
        && (d.Err? ==> Garage() == old(Garage()) && failure == Some(d.error))
      ensures tracks == old(tracks) && Results() == old(Results()) && warmStart == old(warmStart)
    {
      match h.tag
      case Some(Limebeer2014F1) =>
        f1s := f1s - {h.name};
        failure := None;
      case Some(Lot2016Kart) =>
        karts := karts - {h.name};
        failure := None;
      case None =>
        failure := Some(VehicleTypeNotRecognized);
    }

    /** `create_track`: the checks, the insertion into the track map, then
        the loop over the variables to save, which stops at the first
        failure. */
    method CreateTrack(name: string, file: TrackFile, options: SaveVariables) returns (r: Result<TrackHandle>)
      modifies this
      ensures var o := Tracks.CreateTrack(old(tracks), old(Results()), name, file, options);
        tracks == o.tracks && Results() == o.tables && r == o.result
      ensures Garage() == old(Garage()) && warmStart == old(warmStart)
    {
      if name in tracks {
        return Err(TrackExists(name));
      }
      var closed :- ClosedFromType(file.typeAttribute);
      if file.formatAttribute != "discrete" {
        return Err(TrackFormatUnsupported(file.formatAttribute));
      }
      tracks := tracks[name := Track(closed, file.grid)];
      var prefix, variables := options.prefix, options.variables;
      var i := 0;
      while i < |variables|
        invariant 0 <= i <= |variables|
        invariant SaveTrackVariables(old(Results()), prefix, variables, file.grid)
               == SaveTrackVariables(Results(), prefix, variables[i..], file.grid)
        invariant tracks == old(tracks)[name := Track(closed, file.grid)]
        invariant Garage() == old(Garage()) && warmStart == old(warmStart)
      {
        var key := prefix + variables[i];
        assert variables[i..][0] == variables[i] && variables[i..][1..] == variables[i + 1..];
        if key in scalars {
          return Err(ExistsInScalarTable(key));
        }
        if key in vectors {
          return Err(ExistsInVectorTable(key));
        }
        if variables[i] != "s" {
          return Err(VariableNotImplemented(variables[i]));
        }
        vectors := vectors[key := file.grid];
        i := i + 1;
      }
      r := Ok(TrackHandle(name, closed));
    }

    /** `download_vector_table_variable`: copy the stored vector into the
        caller's buffer of `n` values when the sizes agree. */
    method DownloadVectorTableVariable(data: array<real>, n: int, name: string) returns (failure: Option<Error>)
      requires n <= data.Length
      modifies data
      ensures var d := Download(Results(), n, name);
        && (d.Err? ==> failure == Some(d.error) && data[..] == old(data[..]))
        && (d.Ok? ==> failure.None? && data[..n] == d.value && data[n..] == old(data[n..]))
    {
      if name !in vectors {
        return Some(NotInVectorTable(name));
      }
      var stored := vectors[name];
      if |stored| != n {
        return Some(IncorrectInputSize(name, n, |stored|));
      }
      for i := 0 to n
        invariant data[..i] == stored[..i]
        invariant data[i..] == old(data[i..])
      {
        data[i] := stored[i];
      }
      failure := None;
    }

    /** `load_vector_table_variable`: store the first `n` values of the
        caller's buffer under a new name. */
    method LoadVectorTableVariable(data: array<real>, n: int, name: string) returns (failure: Option<Error>)
      requires 0 <= n <= data.Length
      modifies this
      ensures var l := LoadVector(old(Results()), name, data[..n]);
        && (l.Ok? ==> Results() == l.value && failure.None?)
        && (l.Err? ==> Results() == old(Results()) && failure == Some(l.error))
      ensures Garage() == old(Garage()) && tracks == old(tracks) && warmStart == old(warmStart)
    {
      if name in vectors {
        return Some(ExistsInVectorTable(name));
      }
      vectors := vectors[name := data[..n]];
      failure := None;
    }

    /** `clear_tables`: empties both tables and nothing else. */
    method ClearTables()
      modifies this
      ensures Results() == Empty
      ensures Garage() == old(Garage()) && tracks == old(tracks) && warmStart == old(warmStart)
    {
      scalars := map[];
      vectors := map[];
    }

    /** `clear_tables_by_prefix`: one pass over each table, erasing every
        entry whose key has the prefix at position 0. */
    method ClearTablesByPrefix(prefix: string)
      modifies this
      ensures Results() == ClearByPrefix(old(Results()), prefix)
      ensures Garage() == old(Garage()) && tracks == old(tracks) && warmStart == old(warmStart)
    {
      EraseScalarsByPrefix(prefix);
      EraseVectorsByPrefix(prefix);
    }

    /** The pass over the scalar table. */
    method EraseScalarsByPrefix(prefix: string)
      modifies this
      ensures scalars == WithoutPrefix(old(scalars), prefix)
      ensures vectors == old(vectors) && Garage() == old(Garage()) && tracks == old(tracks) && warmStart == old(warmStart)
    {
      var pending := scalars.Keys;
      while pending != {}
        invariant pending <= old(scalars).Keys
        invariant scalars == map k | k in old(scalars) && (k in pending || !(prefix <= k)) :: old(scalars)[k]
        invariant vectors == old(vectors) && Garage() == old(Garage()) && tracks == old(tracks) && warmStart == old(warmStart)
        decreases |pending|
      {
        var k :| k in pending;
        var at := Find(k, prefix);
        StartsAt(k, prefix, at);
        if at == Some(0) {
          scalars := scalars - {k};
        }
        pending := pending - {k};
      }
    }

    /** The pass over the vector table. */
    method EraseVectorsByPrefix(prefix: string)
      modifies this
      ensures vectors == WithoutPrefix(old(vectors), prefix)
      ensures scalars == old(scalars) && Garage() == old(Garage()) && tracks == old(tracks) && warmStart == old(warmStart)
    {
      var pending := vectors.Keys;
      while pending != {}
        invariant pending <= old(vectors).Keys
        invariant vectors == map k | k in old(vectors) && (k in pending || !(prefix <= k)) :: old(vectors)[k]
        invariant scalars == old(scalars) && Garage() == old(Garage()) && tracks == old(tracks) && warmStart == old(warmStart)
        decreases |pending|
      {
        var k :| k in pending;
        var at := Find(k, prefix);
        StartsAt(k, prefix, at);
        if at == Some(0) {
          vectors := vectors - {k};
        }
        pending := pending - {k};
      }
    }

    /** The output-saving loop of `compute_optimal_laptime`. */
    method StoreOutputs(prefix: string, names: seq<string>, ctx: OutputContext) returns (failure: Option<Error>)
      requires OnlyLaptime(names) || ctx.Valid()
      modifies this
      ensures var o := SaveOutputs(old(Results()), prefix, names, ctx);
        Results() == o.tables && failure == o.failure
      ensures Garage() == old(Garage()) && tracks == old(tracks) && warmStart == old(warmStart)
    {
      var i := 0;
      while i < |names|
        invariant 0 <= i <= |names|
        invariant OnlyLaptime(names[i..]) || ctx.Valid()
        invariant SaveOutputs(old(Results()), prefix, names, ctx) == SaveOutputs(Results(), prefix, names[i..], ctx)
        invariant Garage() == old(Garage()) && tracks == old(tracks) && warmStart == old(warmStart)
      {
        var key := prefix + names[i];
        assert names[i..][0] == names[i] && names[i..][1..] == names[i + 1..];
        if key in scalars {
          return Some(ExistsInScalarTable(key));
        }
        if key in vectors {
          return Some(ExistsInVectorTable(key));
        }
        if names[i] == "laptime" {
          scalars := scalars[key := ctx.solution.laptime];
        } else {
          var column := OutputColumn(ctx, names[i]);
          if column.Err? {
            return Some(column.error);
          }
          vectors := vectors[key := column.value];
        }
        i := i + 1;
      }
      failure := None;
    }

    /** The cache save of `compute_optimal_laptime`: the four flat vectors
        are replaced, then q, qa and u are cleared and refilled one point at
        a time. */
    method SaveWarmStart(sol: Solution)
      requires |sol.qa| >= |sol.q| && |sol.u| >= |sol.q|
      modifies this
      ensures warmStart == Bundle(sol)
      ensures Garage() == old(Garage()) && tracks == old(tracks) && Results() == old(Results())
    {
      warmStart := warmStart.(s := sol.s, zl := sol.zl, zu := sol.zu, lambda := sol.lambda);
      warmStart := warmStart.(q := [], qa := [], u := []);
      for i := 0 to |sol.q|
        invariant warmStart == WarmStart(sol.s, sol.zl, sol.zu, sol.lambda, sol.q[..i], sol.qa[..i], sol.u[..i])
        invariant Garage() == old(Garage()) && tracks == old(tracks) && Results() == old(Results())
      {
        warmStart := warmStart.(q := warmStart.q + [sol.q[i]], qa := warmStart.qa + [sol.qa[i]], u := warmStart.u + [sol.u[i]]);
      }
      assert sol.q[..|sol.q|] == sol.q;
    }

    /** `optimal_laptime` followed by `compute_optimal_laptime`. */
    method OptimalLaptime(h: Handle, trackName: string, s: seq<real>, options: Options,
                          steady: SteadyState, engine: Engine, probe: Probe) returns (failure: Option<Error>)
      requires WellPosed(Garage(), options, s, warmStart, steady, engine)
      modifies this
      ensures var o := RunOptimalLaptime(old(Garage()), old(tracks), old(Results()), old(warmStart),
                                         h, trackName, s, options, steady, engine, probe);
        Garage() == o.garage && Results() == o.tables && warmStart == o.warmStart && failure == o.failure
      ensures tracks == old(tracks) && Valid()
    {
      if h.tag.None? {
        return None;
      }
      var f := h.tag.value;
      var vehicles := if f == Lot2016Kart then karts else f1s;
      if h.name !in vehicles {
        return Some(VehicleNotFound(h.name));
      }
      if trackName !in tracks {
        return Some(TrackNotFound(trackName));
      }
      var resolved := ResolveOptions(f, options, vectors);
      if resolved.Err? {
        return Some(resolved.error);
      }
      var cfg := resolved.value;
      var vehicle := vehicles[h.name].(road := Some(tracks[trackName]));
      if f == Lot2016Kart {
        karts := karts[h.name := vehicle];
      } else {
        f1s := f1s[h.name := vehicle];
      }
      assert Garage() == AttachTrack(old(Garage()), f, h.name, tracks[trackName]);
      var trim := TrimFor(f, steady(vehicle, cfg.initialSpeed * KMH));
      var sol := engine(vehicle, BuildProblem(cfg, s, trim, warmStart));
      failure := SaveResults(cfg, OutputContext(probe, vehicle, sol, s));
    }

    /** The end of `compute_optimal_laptime`: the outputs are saved, then
        the cache is replaced if that was asked for. */
    method SaveResults(cfg: Config, ctx: OutputContext) returns (failure: Option<Error>)
      requires OnlyLaptime(cfg.variables) || ctx.Valid()
      requires Shaped(ctx.solution, |ctx.solution.q|)
      modifies this
      ensures var o := Finish(old(Garage()), old(Results()), old(warmStart), cfg, ctx);
        Garage() == o.garage && Results() == o.tables && warmStart == o.warmStart && failure == o.failure
      ensures tracks == old(tracks)
    {
      failure := StoreOutputs(cfg.prefix, cfg.variables, ctx);
      if failure.None? && cfg.saveWarmStart {
        SaveWarmStart(ctx.solution);
      }
    }
  }

  /** The test `find(prefix) == 0` of `clear_tables_by_prefix` holds exactly
      when the key starts with the prefix. */
  lemma StartsAt(key: string, prefix: string, at: Option<nat>)
    requires at.Some? ==> OccursAt(key, prefix, at.value)
    requires at.Some? ==> forall j :: 0 <= j < at.value ==> !OccursAt(key, prefix, j)
    requires at.None? ==> forall j: nat :: !OccursAt(key, prefix, j)
    ensures at == Some(0) <==> prefix <= key
  {
    OccursAtStart(key, prefix);
  }
}
