/** The name-to-accessor dispatch on property names. The output saving of
    `compute_optimal_laptime` runs it on the full vehicle types, where the
    throttle and the normal loads resolve; `get_vehicle_property_generic`
    runs the same chain on the curvilinear scalar car, where the branches
    guarded by the full types are compiled out. */
module Properties {
  import opened Common

  datatype Axle = FrontAxle | RearAxle
  datatype Side = LeftTire | RightTire

  /** Every quantity a name can select. */
  datatype Quantity =
    | X | Y | S | N | Alpha | U | V | Time | Delta | Psi | Omega | Throttle
    | TireX(axle: Axle, side: Side)
    | TireY(axle: Axle, side: Side)
    | Kappa(axle: Axle, side: Side)
    | Fz(axle: Axle, side: Side)

  /** The vehicle model evaluated at a point and an arclength, read out at a
      quantity: road position, state/control component or tire output. It is
      external, so it is a parameter of the model. */
  type Probe = (Vehicle, Quantity, Point, real) -> real

  /** The name under which each quantity is requested. */
  function Name(q: Quantity): string
  {
    match q
    case X => "x"
    case Y => "y"
    case S => "s"
    case N => "n"
    case Alpha => "alpha"
    case U => "u"
    case V => "v"
    case Time => "time"
    case Delta => "delta"
    case Psi => "psi"
    case Omega => "omega"
    case Throttle => "throttle"
    case TireX(RearAxle, LeftTire) => "rear_axle.left_tire.x"
    case TireY(RearAxle, LeftTire) => "rear_axle.left_tire.y"
    case TireX(RearAxle, RightTire) => "rear_axle.right_tire.x"
    case TireY(RearAxle, RightTire) => "rear_axle.right_tire.y"
    case TireX(FrontAxle, LeftTire) => "front_axle.left_tire.x"
    case TireY(FrontAxle, LeftTire) => "front_axle.left_tire.y"
    case TireX(FrontAxle, RightTire) => "front_axle.right_tire.x"
    case TireY(FrontAxle, RightTire) => "front_axle.right_tire.y"
    case Kappa(FrontAxle, LeftTire) => "front_axle.left_tire.kappa"
    case Kappa(FrontAxle, RightTire) => "front_axle.right_tire.kappa"
    case Kappa(RearAxle, LeftTire) => "rear_axle.left_tire.kappa"
    case Kappa(RearAxle, RightTire) => "rear_axle.right_tire.kappa"
    case Fz(FrontAxle, LeftTire) => "Fz_fl"
    case Fz(FrontAxle, RightTire) => "Fz_fr"
    case Fz(RearAxle, LeftTire) => "Fz_rl"
    case Fz(RearAxle, RightTire) => "Fz_rr"
  }

  /** True when the family defines the quantity: the normal loads exist only
      in the limebeer-2014-f1 model. */
  predicate DefinedFor(family: Family, q: Quantity)
  {
    q.Fz? ==> family == Limebeer2014F1
  }

  /** The four normal-load names. */
  predicate NormalLoadName(name: string)
  {
    name == "Fz_fl" || name == "Fz_fr" || name == "Fz_rl" || name == "Fz_rr"
  }

  /** The if-chain on the property name of the output loop, in the order
      the source tests it. */
  function Lookup(family: Family, name: string): (r: Result<Quantity>)
    ensures r.Ok? ==> Name(r.value) == name && DefinedFor(family, r.value)
    ensures r.Err? ==> (r.error == VariableNotDefined(name)
      || (r.error == OnlyForLimebeer(name) && family == Lot2016Kart && NormalLoadName(name)))
  {
    if name == "x" then Ok(X)
    else if name == "y" then Ok(Y)
    else if name == "s" then Ok(S)
    else if name == "n" then Ok(N)
    else if name == "alpha" then Ok(Alpha)
    else if name == "u" then Ok(U)
    else if name == "v" then Ok(V)
    else if name == "time" then Ok(Time)
    else if name == "delta" then Ok(Delta)
    else if name == "psi" then Ok(Psi)
    else if name == "omega" then Ok(Omega)
    else if name == "throttle" then Ok(Throttle)
    else if name == "rear_axle.left_tire.x" then Ok(TireX(RearAxle, LeftTire))
    else if name == "rear_axle.left_tire.y" then Ok(TireY(RearAxle, LeftTire))
    else if name == "rear_axle.right_tire.x" then Ok(TireX(RearAxle, RightTire))
    else if name == "rear_axle.right_tire.y" then Ok(TireY(RearAxle, RightTire))
    else if name == "front_axle.left_tire.x" then Ok(TireX(FrontAxle, LeftTire))
    else if name == "front_axle.left_tire.y" then Ok(TireY(FrontAxle, LeftTire))
    else if name == "front_axle.right_tire.x" then Ok(TireX(FrontAxle, RightTire))
    else if name == "front_axle.right_tire.y" then Ok(TireY(FrontAxle, RightTire))
    else if name == "front_axle.left_tire.kappa" then Ok(Kappa(FrontAxle, LeftTire))
    else if name == "front_axle.right_tire.kappa" then Ok(Kappa(FrontAxle, RightTire))
    else if name == "rear_axle.left_tire.kappa" then Ok(Kappa(RearAxle, LeftTire))
    else if name == "rear_axle.right_tire.kappa" then Ok(Kappa(RearAxle, RightTire))
    else if name == "Fz_fl" then NormalLoad(family, name, FrontAxle, LeftTire)
    else if name == "Fz_fr" then NormalLoad(family, name, FrontAxle, RightTire)
    else if name == "Fz_rl" then NormalLoad(family, name, RearAxle, LeftTire)
    else if name == "Fz_rr" then NormalLoad(family, name, RearAxle, RightTire)
    else Err(VariableNotDefined(name))
  }

  /** The `if constexpr` guard of the four normal-load names. */
  function NormalLoad(family: Family, name: string, axle: Axle, side: Side): (r: Result<Quantity>)
    ensures r.Ok? <==> family == Limebeer2014F1
    ensures r.Ok? ==> r.value == Fz(axle, side)
    ensures r.Err? ==> r.error == OnlyForLimebeer(name)
  {
    if family == Limebeer2014F1 then Ok(Fz(axle, side)) else Err(OnlyForLimebeer(name))
  }

  /** Every quantity is reachable through its own name, and exactly the
      normal loads are refused on a kart: Lookup and Name are inverse on the
      quantities a family defines. */
  lemma LookupName(family: Family, q: Quantity)
    ensures DefinedFor(family, q) ==> Lookup(family, Name(q)) == Ok(q)
    ensures !DefinedFor(family, q) ==> Lookup(family, Name(q)) == Err(OnlyForLimebeer(Name(q)))
  {
    match q
    case TireX(FrontAxle, LeftTire) => LookupTireXFrontLeft(family);
    case TireX(FrontAxle, RightTire) => LookupTireXFrontRight(family);
    case TireX(RearAxle, LeftTire) => LookupTireXRearLeft(family);
    case TireX(RearAxle, RightTire) => LookupTireXRearRight(family);
    case TireY(FrontAxle, LeftTire) => LookupTireYFrontLeft(family);
    case TireY(FrontAxle, RightTire) => LookupTireYFrontRight(family);
    case TireY(RearAxle, LeftTire) => LookupTireYRearLeft(family);
    case TireY(RearAxle, RightTire) => LookupTireYRearRight(family);
    case Kappa(FrontAxle, LeftTire) => LookupKappaFrontLeft(family);
    case Kappa(FrontAxle, RightTire) => LookupKappaFrontRight(family);
    case Kappa(RearAxle, LeftTire) => LookupKappaRearLeft(family);
    case Kappa(RearAxle, RightTire) => LookupKappaRearRight(family);
    case Fz(FrontAxle, LeftTire) => LookupFzFrontLeft(family);
    case Fz(FrontAxle, RightTire) => LookupFzFrontRight(family);
    case Fz(RearAxle, LeftTire) => LookupFzRearLeft(family);
    case Fz(RearAxle, RightTire) => LookupFzRearRight(family);
    case _ => LookupPlain(family, q);
  }

  lemma LookupPlain(family: Family, q: Quantity)
    requires !q.TireX? && !q.TireY? && !q.Kappa? && !q.Fz?
    ensures Lookup(family, Name(q)) == Ok(q)
  {
  }

  // One lemma per tire quantity: evaluating the chain on two long names in
  // one proof obligation is far costlier than on one.

  lemma LookupTireXFrontLeft(family: Family)
    ensures Lookup(family, "front_axle.left_tire.x") == Ok(TireX(FrontAxle, LeftTire))
  {
  }

  lemma LookupTireXFrontRight(family: Family)
    ensures Lookup(family, "front_axle.right_tire.x") == Ok(TireX(FrontAxle, RightTire))
  {
  }

  lemma LookupTireXRearLeft(family: Family)
    ensures Lookup(family, "rear_axle.left_tire.x") == Ok(TireX(RearAxle, LeftTire))
  {
  }

  lemma LookupTireXRearRight(family: Family)
    ensures Lookup(family, "rear_axle.right_tire.x") == Ok(TireX(RearAxle, RightTire))
  {
  }

  lemma LookupTireYFrontLeft(family: Family)
    ensures Lookup(family, "front_axle.left_tire.y") == Ok(TireY(FrontAxle, LeftTire))
  {
  }

  lemma LookupTireYFrontRight(family: Family)
    ensures Lookup(family, "front_axle.right_tire.y") == Ok(TireY(FrontAxle, RightTire))
  {
  }

  lemma LookupTireYRearLeft(family: Family)
    ensures Lookup(family, "rear_axle.left_tire.y") == Ok(TireY(RearAxle, LeftTire))
  {
  }

  lemma LookupTireYRearRight(family: Family)
    ensures Lookup(family, "rear_axle.right_tire.y") == Ok(TireY(RearAxle, RightTire))
  {
  }

  lemma LookupKappaFrontLeft(family: Family)
    ensures Lookup(family, "front_axle.left_tire.kappa") == Ok(Kappa(FrontAxle, LeftTire))
  {
  }

  lemma LookupKappaFrontRight(family: Family)
    ensures Lookup(family, "front_axle.right_tire.kappa") == Ok(Kappa(FrontAxle, RightTire))
  {
  }

  lemma LookupKappaRearLeft(family: Family)
    ensures Lookup(family, "rear_axle.left_tire.kappa") == Ok(Kappa(RearAxle, LeftTire))
  {
  }

  lemma LookupKappaRearRight(family: Family)
    ensures Lookup(family, "rear_axle.right_tire.kappa") == Ok(Kappa(RearAxle, RightTire))
  {
  }

  lemma LookupFzFrontLeft(family: Family)
    ensures Lookup(family, "Fz_fl") == NormalLoad(family, "Fz_fl", FrontAxle, LeftTire)
  {
  }

  lemma LookupFzFrontRight(family: Family)
    ensures Lookup(family, "Fz_fr") == NormalLoad(family, "Fz_fr", FrontAxle, RightTire)
  {
  }

  lemma LookupFzRearLeft(family: Family)
    ensures Lookup(family, "Fz_rl") == NormalLoad(family, "Fz_rl", RearAxle, LeftTire)
  {
  }

  lemma LookupFzRearRight(family: Family)
    ensures Lookup(family, "Fz_rr") == NormalLoad(family, "Fz_rr", RearAxle, RightTire)
  {
  }

  /** The value of a quantity: "s" is the arclength argument itself, every
      other quantity is read from the evaluated vehicle. */
  function Value(probe: Probe, vehicle: Vehicle, q: Quantity, p: Point, s: real): real
  {
    if q == S then s else probe(vehicle, q, p, s)
  }

  /** The output loop's value of the named property at point `p` and
      arclength `s`. */
  function OutputProperty(probe: Probe, vehicle: Vehicle, p: Point, s: real, name: string): (r: Result<real>)
    ensures r.Ok? <==> Lookup(vehicle.family, name).Ok?
    ensures r.Err? ==> r.error == Lookup(vehicle.family, name).error
    ensures name == "s" ==> r == Ok(s)
    ensures r.Ok? && name != "s" ==> r.value == probe(vehicle, Lookup(vehicle.family, name).value, p, s)
  {
    match Lookup(vehicle.family, name)
    case Err(e) => Err(e)
    case Ok(q) => Ok(Value(probe, vehicle, q, p, s))
  }

  /** The chain of `get_vehicle_property_generic` as instantiated on the
      curvilinear scalar car: that type is neither full vehicle type, so
      "throttle" reaches the fallback that throws, and every normal-load
      name the branch that throws, for either family. */
  function ScalarLookup(family: Family, name: string): (r: Result<Quantity>)
    ensures r.Ok? ==> Name(r.value) == name && r.value != Throttle && !r.value.Fz?
    ensures name == "throttle" ==> r == Err(ThrottleTypeNotDefined)
    ensures NormalLoadName(name) ==> r == Err(OnlyForLimebeer(name))
    ensures name != "throttle" && !NormalLoadName(name) ==> r == Lookup(family, name)
  {
    match Lookup(family, name)
    case Ok(Throttle) => Err(ThrottleTypeNotDefined)
    case Ok(Fz(_, _)) => Err(OnlyForLimebeer(name))
    case other => other
  }

  /** `get_vehicle_property_generic` on the curvilinear scalar car: the
      named property of the vehicle at point `p` and arclength `s`. */
  function VehicleProperty(probe: Probe, vehicle: Vehicle, p: Point, s: real, name: string): (r: Result<real>)
    ensures name == "throttle" ==> r == Err(ThrottleTypeNotDefined)
    ensures NormalLoadName(name) ==> r == Err(OnlyForLimebeer(name))
    ensures name != "throttle" && !NormalLoadName(name) ==> r == OutputProperty(probe, vehicle, p, s, name)
  {
    match ScalarLookup(vehicle.family, name)
    case Err(e) => Err(e)
    case Ok(q) => Ok(Value(probe, vehicle, q, p, s))
  }

  /** The direct query answers nothing that depends on the family: the only
      family-specific names, the normal loads, are refused for both. */
  lemma VehiclePropertyFamilyBlind(probe: Probe, kart: Vehicle, f1: Vehicle, p: Point, s: real, name: string)
    requires kart.family == Lot2016Kart && f1.family == Limebeer2014F1
    ensures VehicleProperty(probe, kart, p, s, name).Ok? <==> VehicleProperty(probe, f1, p, s, name).Ok?
  {
    if !NormalLoadName(name) && name != "throttle" {
      LookupFamilyBlind(name);
    }
  }

  /** Outside the normal loads the chain does not look at the family. */
  lemma LookupFamilyBlind(name: string)
    requires !NormalLoadName(name)
    ensures Lookup(Lot2016Kart, name) == Lookup(Limebeer2014F1, name)
  {
  }

  /** Where the two dispatches differ: on the F1 car the output loop saves
      the throttle and the normal loads, while the direct query of the
      same vehicle refuses them; on the kart they differ on the throttle. */
  lemma DirectQueryRefusesThrottleAndLoads(probe: Probe, vehicle: Vehicle, p: Point, s: real, q: Quantity)
    requires q == Throttle || (q.Fz? && vehicle.family == Limebeer2014F1)
    ensures OutputProperty(probe, vehicle, p, s, Name(q)) == Ok(probe(vehicle, q, p, s))
    ensures VehicleProperty(probe, vehicle, p, s, Name(q)).Err?
  {
    LookupName(vehicle.family, q);
  }
}
