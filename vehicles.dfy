/** The vehicle registries (`vehicles_lot2016kart`, `vehicles_limebeer2014f1`)
    as a value, with create, delete and the property query that looks a
    vehicle up by its handle. */
module Vehicles {
  import opened Common
  import opened Properties

  /** The two per-family name-keyed maps. */
  datatype Garage = Garage(karts: map<string, Vehicle>, f1s: map<string, Vehicle>) {
    function Of(family: Family): map<string, Vehicle>
    {
      match family
      case Lot2016Kart => karts
      case Limebeer2014F1 => f1s
    }

    function With(family: Family, m: map<string, Vehicle>): (g: Garage)
      ensures g.Of(family) == m
      ensures forall f :: f != family ==> g.Of(f) == Of(f)
    {
      match family
      case Lot2016Kart => this.(karts := m)
      case Limebeer2014F1 => this.(f1s := m)
    }
  }

  /** The caller's `c_Vehicle`: its name and its type tag, which may hold a
      value that is neither family. */
  datatype Handle = Handle(name: string, tag: Option<Family>)

  /** What the API reads from a vehicle database file: the root element's
      "type" attribute. */
  datatype Database = Database(rootType: string)

  const KartType: string := "roberto-lot-kart-2016"
  const F1Type: string := "limebeer-2014-f1"

  /** The family a type string names, if any. */
  function FamilyOf(vehicleType: string): (r: Option<Family>)
    ensures r == Some(Lot2016Kart) <==> vehicleType == KartType
    ensures r == Some(Limebeer2014F1) <==> vehicleType == F1Type
  {
    if vehicleType == KartType then Some(Lot2016Kart)
    else if vehicleType == F1Type then Some(Limebeer2014F1)
    else None
  }

  /** True when creating a vehicle of this family from this path opens the
      database: always for a kart, for an F1 car only when the path is
      not empty. */
  predicate ReadsDatabase(family: Family, databaseFile: string)
  {
    family == Lot2016Kart || |databaseFile| > 0
  }

  /** The vehicle a successful creation files: built from the database when
      one is read, the default car otherwise, with no track attached yet. */
  function Fresh(family: Family, databaseFile: string): (v: Vehicle)
    ensures v.family == family && v.road.None?
    ensures v.source.DefaultCar? <==> !ReadsDatabase(family, databaseFile)
    ensures v.source.FromDatabase? ==> v.source.path == databaseFile
  {
    Vehicle(family, if ReadsDatabase(family, databaseFile) then FromDatabase(databaseFile) else DefaultCar, None)
  }

  /** `create_vehicle`: the type string, then the duplicate check in the
      family's map, then the database's type, then the insertion. */
  function CreateVehicle(g: Garage, name: string, vehicleType: string, databaseFile: string, database: Database): (r: Result<Garage>)
    ensures FamilyOf(vehicleType).None? ==> r == Err(VehicleTypeNotRecognized)
    ensures FamilyOf(vehicleType).Some? ==> var f := FamilyOf(vehicleType).value;
      r.Ok? <==> name !in g.Of(f) && (ReadsDatabase(f, databaseFile) ==> database.rootType == vehicleType)
    ensures FamilyOf(vehicleType).Some? ==> var f := FamilyOf(vehicleType).value;
      name in g.Of(f) ==> r == Err(VehicleExists(f, name))
    ensures FamilyOf(vehicleType).Some? ==> var f := FamilyOf(vehicleType).value;
      name !in g.Of(f) && ReadsDatabase(f, databaseFile) && database.rootType != vehicleType ==> r == Err(DatabaseTypeMismatch(f))
    ensures r.Ok? ==> var f := FamilyOf(vehicleType).value;
      && name in r.value.Of(f)
      && r.value.Of(f)[name] == Fresh(f, databaseFile)
      && r.value.Of(f) - {name} == g.Of(f)
      && (forall other :: other != f ==> r.value.Of(other) == g.Of(other))
  {
    match FamilyOf(vehicleType)
    case None => Err(VehicleTypeNotRecognized)
    case Some(f) =>
      if name in g.Of(f) then Err(VehicleExists(f, name))
      else if ReadsDatabase(f, databaseFile) && database.rootType != vehicleType then Err(DatabaseTypeMismatch(f))
      else Ok(g.With(f, g.Of(f)[name := Fresh(f, databaseFile)]))
  }

  /** `delete_vehicle`: erases the name from its family's map; erasing an
      absent name is not an error. */
  function DeleteVehicle(g: Garage, h: Handle): (r: Result<Garage>)
    ensures r.Err? <==> h.tag.None?
    ensures r.Err? ==> r.error == VehicleTypeNotRecognized
    ensures r.Ok? ==> h.name !in r.value.Of(h.tag.value)
    ensures r.Ok? ==> forall k :: k != h.name && k in g.Of(h.tag.value) ==> k in r.value.Of(h.tag.value) && r.value.Of(h.tag.value)[k] == g.Of(h.tag.value)[k]
    ensures r.Ok? ==> r.value.Of(h.tag.value).Keys <= g.Of(h.tag.value).Keys
    ensures r.Ok? ==> forall other :: other != h.tag.value ==> r.value.Of(other) == g.Of(other)
  {
    match h.tag
    case None => Err(VehicleTypeNotRecognized)
    case Some(f) => Ok(g.With(f, g.Of(f) - {h.name}))
  }

  /** The duplicate check is per family: a kart does not stop an F1 car of
      the same name from being created, and afterwards both maps hold it. */
  lemma SameNameInBothFamilies(g: Garage, name: string, databaseFile: string, database: Database)
    requires name in g.karts && name !in g.f1s
    requires ReadsDatabase(Limebeer2014F1, databaseFile) ==> database.rootType == F1Type
    ensures CreateVehicle(g, name, F1Type, databaseFile, database).Ok?
    ensures name in CreateVehicle(g, name, F1Type, databaseFile, database).value.karts
    ensures name in CreateVehicle(g, name, F1Type, databaseFile, database).value.f1s
  {
  }

  /** An F1 car with an empty database path is the default car, whatever the
      database would have said. */
  lemma LimebeerDefaultCar(g: Garage, name: string, database: Database)
    requires name !in g.f1s
    ensures CreateVehicle(g, name, F1Type, "", database) == Ok(g.(f1s := g.f1s[name := Vehicle(Limebeer2014F1, DefaultCar, None)]))
  {
  }

  /** Deleting a vehicle that was just created restores the registries. */
  lemma CreateThenDelete(g: Garage, name: string, vehicleType: string, databaseFile: string, database: Database)
    requires CreateVehicle(g, name, vehicleType, databaseFile, database).Ok?
    ensures DeleteVehicle(CreateVehicle(g, name, vehicleType, databaseFile, database).value,
                          Handle(name, FamilyOf(vehicleType))) == Ok(g)
  {
    var f := FamilyOf(vehicleType).value;
    var created := CreateVehicle(g, name, vehicleType, databaseFile, database).value;
    var deleted := DeleteVehicle(created, Handle(name, Some(f))).value;
    assert deleted.Of(f) == g.Of(f);
    match f
    case Lot2016Kart => assert deleted.f1s == g.f1s;
    case Limebeer2014F1 => assert deleted.karts == g.karts;
  }

  /** `get_vehicle_property`: find the vehicle by its handle (`at` throws for
      an unknown name), then dispatch on the property name. */
  function GetVehicleProperty(g: Garage, h: Handle, probe: Probe, p: Point, s: real, name: string): (r: Result<real>)
    ensures h.tag.None? ==> r == Err(VehicleTypeNotDefined)
    ensures h.tag.Some? && h.name !in g.Of(h.tag.value) ==> r == Err(VehicleNotFound(h.name))
    ensures h.tag.Some? && h.name in g.Of(h.tag.value) ==> r == VehicleProperty(probe, g.Of(h.tag.value)[h.name], p, s, name)
  {
    match h.tag
    case None => Err(VehicleTypeNotDefined)
    case Some(f) =>
      if h.name !in g.Of(f) then Err(VehicleNotFound(h.name))
      else VehicleProperty(probe, g.Of(f)[h.name], p, s, name)
  }

  /** Every registered vehicle is filed under its own family. */
  predicate Filed(g: Garage)
  {
    (forall k :: k in g.karts ==> g.karts[k].family == Lot2016Kart)
    && (forall k :: k in g.f1s ==> g.f1s[k].family == Limebeer2014F1)
  }

  /** Creation files the new vehicle under the family its type string names,
      so a property query through the returned handle dispatches with that
      family's rules. */
  lemma CreatePreservesFiled(g: Garage, name: string, vehicleType: string, databaseFile: string, database: Database)
    requires Filed(g)
    requires CreateVehicle(g, name, vehicleType, databaseFile, database).Ok?
    ensures Filed(CreateVehicle(g, name, vehicleType, databaseFile, database).value)
  {
  }

  /** Step (3) of `compute_optimal_laptime`: the track is set into the
      registered vehicle's curvilinear models, which keep it after the call.
      The vehicle stays filed under its name; nothing else changes. */
  function AttachTrack(g: Garage, family: Family, name: string, track: Track): (r: Garage)
    requires name in g.Of(family)
    ensures r.Of(family).Keys == g.Of(family).Keys
    ensures r.Of(family)[name] == g.Of(family)[name].(road := Some(track))
    ensures forall k :: k in g.Of(family) && k != name ==> r.Of(family)[k] == g.Of(family)[k]
    ensures forall other :: other != family ==> r.Of(other) == g.Of(other)
    ensures Filed(g) ==> Filed(r)
  {
    g.With(family, g.Of(family)[name := g.Of(family)[name].(road := Some(track))])
  }
}
