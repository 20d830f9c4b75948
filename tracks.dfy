/** The track registry (`table_track`) and `create_track`: validation of the
    track file's attributes, registration, then the optional saving of track
    variables into the result tables. */
module Tracks {
  import opened Common
  import opened ResultTables

  /** What `create_track` reads from the track file: the root element's
      "type" and "format" attributes and the preprocessor's arclength grid. */
  datatype TrackFile = TrackFile(typeAttribute: string, formatAttribute: string, grid: seq<real>)

  /** The caller's `c_Track` after a successful creation. */
  datatype TrackHandle = TrackHandle(name: string, closed: bool)

  /** The "type" attribute: "closed" or "open", anything else is refused. */
  function ClosedFromType(trackType: string): (r: Result<bool>)
    ensures r.Ok? <==> trackType == "closed" || trackType == "open"
    ensures r.Ok? ==> r.value == (trackType == "closed")
    ensures r.Err? ==> r.error == TrackTypeInvalid(trackType)
  {
    if trackType == "closed" then Ok(true)
    else if trackType == "open" then Ok(false)
    else Err(TrackTypeInvalid(trackType))
  }

  /** The loop over the variables to save: each key must be free in both
      tables, and only "s" (the preprocessor's grid) is implemented. */
  function SaveTrackVariables(t: Tables, prefix: string, variables: seq<string>, grid: seq<real>): (o: Saved)
    ensures o.failure.Some? ==> var e := o.failure.value;
      e.ExistsInScalarTable? || e.ExistsInVectorTable? || e.VariableNotImplemented?
    ensures o.failure.None? ==> |variables| == 0 || prefix + "s" in o.tables.vectors
    decreases |variables|
  {
    if variables == [] then Saved(t, None)
    else
      var key := prefix + variables[0];
      match CheckFree(t, key)
      case Some(e) => Saved(t, Some(e))
      case None =>
        if variables[0] == "s" then SaveTrackVariables(t.(vectors := t.vectors[key := grid]), prefix, variables[1..], grid)
        else Saved(t, Some(VariableNotImplemented(variables[0])))
  }

  /** What `create_track` leaves behind: the track map, the tables and the
      outcome. A failure after registration leaves the track registered. */
  datatype TrackOutcome = TrackOutcome(tracks: map<string, Track>, tables: Tables, result: Result<TrackHandle>)

  /** `create_track`: duplicate name, then "type", then "format" are checked
      before anything changes; the track is inserted before its variables
      are saved. */
  function CreateTrack(tracks: map<string, Track>, t: Tables, name: string, file: TrackFile, options: SaveVariables): (o: TrackOutcome)
    ensures name in tracks ==> o == TrackOutcome(tracks, t, Err(TrackExists(name)))
    ensures o.result.Ok? ==> o.result.value == TrackHandle(name, file.typeAttribute == "closed")
    ensures o.result.Ok? ==> name !in tracks && o.tracks == tracks[name := Track(file.typeAttribute == "closed", file.grid)]
  {
    if name in tracks then TrackOutcome(tracks, t, Err(TrackExists(name)))
    else match ClosedFromType(file.typeAttribute)
      case Err(e) => TrackOutcome(tracks, t, Err(e))
      case Ok(closed) =>
        if file.formatAttribute != "discrete" then TrackOutcome(tracks, t, Err(TrackFormatUnsupported(file.formatAttribute)))
        else
          var registered := tracks[name := Track(closed, file.grid)];
          var saved := SaveTrackVariables(t, options.prefix, options.variables, file.grid);
          match saved.failure
          case Some(e) => TrackOutcome(registered, saved.tables, Err(e))
          case None => TrackOutcome(registered, saved.tables, Ok(TrackHandle(name, closed)))
  }

  /** The three checks before registration leave both the track map and the
      tables untouched when they fail, each with its own error. */
  lemma CreateTrackRejectsEarly(tracks: map<string, Track>, t: Tables, name: string, file: TrackFile, options: SaveVariables)
    requires name !in tracks
    ensures ClosedFromType(file.typeAttribute).Err? ==>
      CreateTrack(tracks, t, name, file, options) == TrackOutcome(tracks, t, Err(TrackTypeInvalid(file.typeAttribute)))
    ensures ClosedFromType(file.typeAttribute).Ok? && file.formatAttribute != "discrete" ==>
      CreateTrack(tracks, t, name, file, options) == TrackOutcome(tracks, t, Err(TrackFormatUnsupported(file.formatAttribute)))
  {
  }

  /** Once the attributes pass, the track is registered whether or not the
      saving of its variables then fails. */
  lemma CreateTrackRegistersFirst(tracks: map<string, Track>, t: Tables, name: string, file: TrackFile, options: SaveVariables)
    requires name !in tracks
    requires file.typeAttribute == "closed" || file.typeAttribute == "open"
    requires file.formatAttribute == "discrete"
    ensures CreateTrack(tracks, t, name, file, options).tracks == tracks[name := Track(file.typeAttribute == "closed", file.grid)]
    ensures CreateTrack(tracks, t, name, file, options).tables == SaveTrackVariables(t, options.prefix, options.variables, file.grid).tables
    ensures CreateTrack(tracks, t, name, file, options).result.Err? <==> SaveTrackVariables(t, options.prefix, options.variables, file.grid).failure.Some?
  {
  }

  /** Saving track variables never loses an entry: what was in the tables
      before, including what earlier variables saved, is still there. */
  lemma {:induction false} SaveTrackVariablesKeeps(t: Tables, prefix: string, variables: seq<string>, grid: seq<real>)
    ensures var o := SaveTrackVariables(t, prefix, variables, grid).tables;
      && o.scalars == t.scalars
      && (forall k :: k in t.vectors ==> k in o.vectors && o.vectors[k] == t.vectors[k])
    decreases |variables|
  {
    if variables != [] {
      var key := prefix + variables[0];
      if CheckFree(t, key).None? && variables[0] == "s" {
        SaveTrackVariablesKeeps(t.(vectors := t.vectors[key := grid]), prefix, variables[1..], grid);
      }
    }
  }

  /** Only "s" is accepted, and only once: a successful save had at most one
      variable, and it stored the grid under `prefix + "s"`. */
  lemma {:induction false} SaveTrackVariablesOnlyS(t: Tables, prefix: string, variables: seq<string>, grid: seq<real>)
    requires SaveTrackVariables(t, prefix, variables, grid).failure.None?
    ensures |variables| <= 1
    ensures variables == [] ==> SaveTrackVariables(t, prefix, variables, grid).tables == t
    ensures variables != [] ==>
      && variables == ["s"]
      && !t.Has(prefix + "s")
      && SaveTrackVariables(t, prefix, variables, grid).tables == t.(vectors := t.vectors[prefix + "s" := grid])
  {
    if variables != [] {
      if |variables| > 1 {
        assert false;
      }
    }
  }

  /** A key already taken in either table makes the save fail, however late
      in the list its variable comes. */
  lemma {:induction false} SaveTrackVariablesCollision(t: Tables, prefix: string, variables: seq<string>, grid: seq<real>, i: nat)
    requires i < |variables| && t.Has(prefix + variables[i])
    ensures SaveTrackVariables(t, prefix, variables, grid).failure.Some?
    decreases i
  {
    var key := prefix + variables[0];
    if i > 0 && CheckFree(t, key).None? && variables[0] == "s" {
      var t' := t.(vectors := t.vectors[key := grid]);
      assert variables[1..][i - 1] == variables[i];
      SaveTrackVariablesCollision(t', prefix, variables[1..], grid, i - 1);
    }
  }
}
