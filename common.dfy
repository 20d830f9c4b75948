/** Vocabulary shared by the model of the fastest-lap C API: the result
    wrappers, the errors the API raises, the two vehicle families and a
    trajectory point. */
module Common {

  datatype Option<+T> = None | Some(value: T) {
    /** The value, or `default` when absent: an option element left out of
        the options document keeps its default. */
    function GetOr(default: T): T
    {
      match this
      case Some(v) => v
      case None => default
    }
  }

  /** Success or the error the C API would have thrown. */
  datatype Result<+T> = Ok(value: T) | Err(error: Error) {
    predicate IsFailure() { Err? }
    function PropagateFailure<U>(): Result<U> requires Err? { Err(error) }
    function Extract(): T requires Ok? { value }
  }

  /** One constructor per `std::runtime_error` (or `std::out_of_range` from
      `at`) that the API layer raises. */
  datatype Error =
    | VehicleTypeNotRecognized                        // create_vehicle, delete_vehicle
    | VehicleExists(family: Family, name: string)     // create_vehicle duplicate in the family map
    | DatabaseTypeMismatch(family: Family)            // root "type" attribute of the database
    | VehicleTypeNotDefined                           // get_vehicle_property on an untagged handle
    | ThrottleTypeNotDefined                          // "throttle" on a vehicle type with no throttle accessor
    | VehicleNotFound(name: string)                   // `at` on a vehicle map
    | TrackExists(name: string)
    | TrackTypeInvalid(trackType: string)
    | TrackFormatUnsupported(format: string)
    | TrackNotFound(name: string)                     // `at` on the track map
    | ExistsInScalarTable(key: string)
    | ExistsInVectorTable(key: string)
    | NotInVectorTable(name: string)
    | IncorrectInputSize(name: string, given: int, stored: nat)
    | VariableNotImplemented(variable: string)        // track save variable other than "s"
    | VariableNotDefined(variable: string)            // unknown property name
    | OnlyForLimebeer(variable: string)               // Fz_* on a type that is not the F1 car
    | InitialConditionNotFound(table: string)         // `at` on the vector table

  /** The two vehicle families, each with its own registry. */
  datatype Family = Lot2016Kart | Limebeer2014F1

  /** Where a registered vehicle's parameters came from. The parameter values
      themselves live in the external vehicle model. */
  datatype VehicleSource = FromDatabase(path: string) | DefaultCar

  /** A registered track: open or closed, and the arclength grid of its
      preprocessor. The geometry itself is external. */
  datatype Track = Track(closed: bool, grid: seq<real>)

  /** A registered vehicle: its family, where its parameters came from, and
      the track last attached to its curvilinear models by an
      optimal-laptime solve (none before the first one). */
  datatype Vehicle = Vehicle(family: Family, source: VehicleSource, road: Option<Track>)

  /** A trajectory point: state, algebraic and control vectors. */
  datatype Point = Point(q: seq<real>, qa: seq<real>, u: seq<real>)
}
