# fastest-lap C API bookkeeping, modelled in Dafny

The C API of fastest-lap (`src/main/c/fastestlapc.cpp`) keeps process-wide
state between calls: one name-keyed map of vehicles per family (the
Lot 2016 kart and the Limebeer 2014 F1 car), a map of tracks, a scalar and a
vector result table, and a single warm-start cache. Around that state it
applies a handful of rules: insert-if-absent for vehicles, tracks and table
entries, size-checked downloads, clearing the tables by key prefix,
per-family option defaults for the optimal-laptime solve, the cold-start
seed, a name dispatch for vehicle properties and saved outputs, and the
wholesale replacement of the warm-start cache.

The project has seven modules:

- `Common` (common.dfy): `Option`, `Result`, one `Error` constructor per
  exception the API throws, the two families, a trajectory point.
- `Properties` (properties.dfy): the property-name dispatch of the output
  loop of `compute_optimal_laptime`, and the same chain as
  `get_vehicle_property_generic` runs it on the curvilinear scalar car,
  where the throttle and normal-load branches are compiled out; the
  vehicle model that evaluates a property is a function parameter
  (`Probe`).
- `ResultTables` (tables.dfy): the two tables as a value; load, download
  size, size-checked download, clearing by prefix, and `std::string::find`
  as a loop.
- `Vehicles` (vehicles.dfy): the vehicle maps as a value; create, delete,
  the property query by handle, and the attachment of a track to a
  registered vehicle by an optimal-laptime solve.
- `Tracks` (tracks.dfy): the track map; `create_track` and the saving of
  track variables.
- `Laptime` (laptime.dfy): option defaults, the trim and the cold-start
  seed, the problem handed to the engine (cold or warm), saving outputs,
  refilling the cache, and one full `optimal_laptime` call as a function
  of the state. The steady-state solver and the optimal-laptime engine
  are function parameters.
- `Api` (registry.dfy): class `Registry`, whose fields are the global maps
  and the cache. Each entry point that changes them is a method with a
  `modifies` clause, and each method is proved equal to the function that
  specifies it, including "nothing else changes".

## Model

| member | source | states |
|---|---|---|
| Properties.Lookup | src/main/c/fastestlapc.cpp:898-1030 | a recognised name maps to the quantity of that name, and the quantity is defined for the family; the only error other than "not defined" is the limebeer-only error, and only for an `Fz_*` name on a kart |
| Properties.NormalLoad | src/main/c/fastestlapc.cpp:979-1025 | a normal load resolves exactly for the F1 car, to the load of that axle and side; on a kart it fails with the limebeer-only error naming the variable |
| Properties.LookupName | src/main/c/fastestlapc.cpp:898-1030 | every quantity is found under its own name: for the F1 car always, for the kart every quantity except the normal loads, which fail with the limebeer-only error |
| Properties.LookupFamilyBlind | src/main/c/fastestlapc.cpp:898-1030 | outside the four normal-load names the dispatch gives the same answer for both families |
| Properties.OutputProperty | src/main/c/fastestlapc.cpp:898-1030 | succeeds exactly when the name is recognised for the family, with the dispatch's error otherwise; "s" gives the arclength unchanged, any other name the vehicle model's value for that quantity |
| Properties.ScalarLookup | src/main/c/fastestlapc.cpp:233-369 | "throttle" fails with "vehicle type is not defined" and every `Fz_*` name with the limebeer-only error, for both families; every other name resolves as in the output loop, never to the throttle or a normal load |
| Properties.VehicleProperty | src/main/c/fastestlapc.cpp:218-370 | "throttle" and the `Fz_*` names fail, for both families, with the errors of lines 279 and 326-362; every other name gives what the output loop gives at that point |
| Properties.VehiclePropertyFamilyBlind | src/main/c/fastestlapc.cpp:218-387 | a kart and an F1 car answer the same set of names |
| Properties.DirectQueryRefusesThrottleAndLoads | src/main/c/fastestlapc.cpp:266-363 | for the throttle, and the normal loads of the F1 car, the output loop gives the vehicle model's value while the direct query fails |
| ResultTables.CheckFree | src/main/c/fastestlapc.cpp:875-879 | a key is free exactly when it is in neither table; a key in the scalar table reports the scalar-table error first, else the vector-table error |
| ResultTables.LoadVector | src/main/c/fastestlapc.cpp:432-441 | fails exactly when the name is already a vector; otherwise the vector table gains name ↦ data, every other entry and the scalar table are unchanged |
| ResultTables.DownloadSize | src/main/c/fastestlapc.cpp:390-404 | succeeds exactly when the name is in the vector table, with the stored length; otherwise the "does not exist" error |
| ResultTables.Download | src/main/c/fastestlapc.cpp:407-429 | succeeds exactly when the name is stored with length `n`, returning the stored vector; an absent name and a size mismatch give their own errors |
| ResultTables.LoadThenDownload | src/main/c/fastestlapc.cpp:390-441 | after a successful load the size query returns the data's length, a download of that size returns the data, any other size fails with the size error |
| ResultTables.WithoutPrefix | src/main/c/fastestlapc.cpp:456-466 | keeps exactly the entries whose key does not start with the prefix, with their values |
| ResultTables.ClearByPrefix | src/main/c/fastestlapc.cpp:451-481 | a key is in the cleared tables exactly when it was in the tables and does not start with the prefix |
| ResultTables.ClearByPrefixSpec | src/main/c/fastestlapc.cpp:451-481 | after clearing, a key is present in either table exactly when it was present and does not start with the prefix, and keeps its value |
| ResultTables.ClearByPrefixIdempotent | src/main/c/fastestlapc.cpp:451-481 | clearing twice by the same prefix equals clearing once |
| ResultTables.ClearByEmptyPrefix | src/main/c/fastestlapc.cpp:444-481 | clearing by the empty prefix empties both tables, as `clear_tables` does |
| ResultTables.ClearByPrefixNested | src/main/c/fastestlapc.cpp:451-481 | clearing a longer prefix and then a shorter one equals clearing the shorter one |
| ResultTables.OccursAtStart | src/main/c/fastestlapc.cpp:458 | the prefix occurs at position 0 of a key exactly when it is a prefix of the key |
| ResultTables.Find | src/main/c/fastestlapc.cpp:458 | returns the first position at which the pattern occurs, or none when it occurs nowhere |
| Vehicles.FamilyOf | src/main/c/fastestlapc.cpp:52-116 | the kart type string names the kart family, the F1 type string the F1 family, nothing else names a family |
| Vehicles.Fresh | src/main/c/fastestlapc.cpp:66-110 | the filed vehicle is built from the database exactly when one is read, with its path, otherwise the default car; no track is attached |
| Vehicles.CreateVehicle | src/main/c/fastestlapc.cpp:38-117 | an unknown type fails with "not recognized"; for a known type creation succeeds exactly when the name is free in its family's map and, when a database is read, its type matches; a taken name gives the "already exists" error, a mismatch the database-type error; on success the family's map gains exactly the name, holding the fresh vehicle, and the other map is unchanged |
| Vehicles.DeleteVehicle | src/main/c/fastestlapc.cpp:484-494 | fails exactly for an untagged handle; otherwise only that name leaves its family's map, every other entry keeps its value, the other map is unchanged |
| Vehicles.SameNameInBothFamilies | src/main/c/fastestlapc.cpp:52-95 | a kart of a name does not stop an F1 car of the same name, and both maps then hold it |
| Vehicles.LimebeerDefaultCar | src/main/c/fastestlapc.cpp:75-111 | an F1 car with an empty database path is inserted as the default car whatever the database says |
| Vehicles.CreateThenDelete | src/main/c/fastestlapc.cpp:484-494 | deleting a vehicle right after creating it restores both maps |
| Vehicles.GetVehicleProperty | src/main/c/fastestlapc.cpp:373-387 | an untagged handle fails with "type not defined", an unknown vehicle name with "not found", otherwise `VehicleProperty` of the vehicle filed under that name, including the track an optimal-laptime solve last attached to it |
| Vehicles.CreatePreservesFiled | src/main/c/fastestlapc.cpp:52-116 | creation keeps every vehicle in the map of its own family |
| Vehicles.AttachTrack | src/main/c/fastestlapc.cpp:787-796 | the registered vehicle now carries the track; every other vehicle, both maps' names and the other family's map are unchanged, and vehicles stay filed by family |
| Tracks.ClosedFromType | src/main/c/fastestlapc.cpp:173-183 | "closed" and "open" are accepted, meaning closed and not closed; any other type fails with its own error |
| Tracks.CreateTrack | src/main/c/fastestlapc.cpp:119-215 | a duplicate name changes nothing and fails; on success the track is registered under the name and the handle carries the name and closedness |
| Tracks.CreateTrackRejectsEarly | src/main/c/fastestlapc.cpp:173-191 | a bad type or format fails with its error and leaves the track map and tables untouched |
| Tracks.CreateTrackRegistersFirst | src/main/c/fastestlapc.cpp:193-214 | once the attributes pass the track stays registered whether or not saving its variables fails |
| Tracks.SaveTrackVariables | src/main/c/fastestlapc.cpp:200-214 | fails only with a table collision or an unimplemented variable; a successful save of a non-empty list leaves prefix + "s" in the vector table |
| Tracks.SaveTrackVariablesKeeps | src/main/c/fastestlapc.cpp:200-214 | saving track variables leaves the scalar table alone and loses no vector entry |
| Tracks.SaveTrackVariablesOnlyS | src/main/c/fastestlapc.cpp:200-214 | a successful save had no variable, or only "s" whose key was free and now holds the grid |
| Tracks.SaveTrackVariablesCollision | src/main/c/fastestlapc.cpp:200-207 | a variable whose key is taken in either table makes the save fail, wherever it is in the list |
| Laptime.Dissipations | src/main/c/fastestlapc.cpp:692-707 | the kart's weights are 1e-2 and 4e-6, the F1 car's 5 and 8e-4 |
| Laptime.ResolveOptions | src/main/c/fastestlapc.cpp:684-785 | fails exactly when an initial condition names a missing vector, reporting q's table, else qa's, else u's; direct transcription and the dissipations follow the family; warm start, cache save, xml output, print level, initial speed, closedness, sigma, prefix and variables take the document's value when the element is present and their default otherwise; the start point is the three named vectors |
| Laptime.DefaultOptions | src/main/c/fastestlapc.cpp:684-707 | with no options: cold start, no cache save, no file, print level 0, 50 km/h, closed, sigma 0.5, nothing saved; direct and weights 5 and 8e-4 for the F1 car, weights 1e-2 and 4e-6 for the kart |
| Laptime.TrimFor | src/main/c/fastestlapc.cpp:801-804 | the kart's second control is zeroed; every other component of the trim is the steady state's |
| Laptime.ColdSeed | src/main/c/fastestlapc.cpp:818-829 | q0, qa0 and u0 have one entry per grid point, all equal to the trim, except entry 0 which is the initial condition when one is given |
| Laptime.BuildProblem | src/main/c/fastestlapc.cpp:811-863 | a cold start uses the caller's grid and the cold seed without duals; a warm start uses the cached grid, trajectory and duals as they are |
| Laptime.WarmProblemIgnoresGrid | src/main/c/fastestlapc.cpp:832-863 | a warm start poses the same problem whatever grid and trim the caller gives |
| Laptime.Bundle | src/main/c/fastestlapc.cpp:1039-1061 | all seven cache fields are overwritten: the flat vectors by the solution's, q, qa and u by one entry per solution point |
| Laptime.WarmStartRoundTrip | src/main/c/fastestlapc.cpp:832-1061 | a warm start after a cache save poses the saved grid, the saved trajectory as seed and the saved multipliers |
| Laptime.Column | src/main/c/fastestlapc.cpp:891-1032 | fails exactly when there is a point and the name is not recognised for the family; otherwise one value per point of the caller's grid, each the output loop's value of the property at that point |
| Laptime.OutputColumn | src/main/c/fastestlapc.cpp:893-1032 | the loop that fills the vector computes exactly `Column` |
| Laptime.SaveOutputs | src/main/c/fastestlapc.cpp:872-1037 | fails only with a table collision or a dispatch error; a list of only "laptime" leaves the vector table as it was |
| Laptime.SaveOutputsKeeps | src/main/c/fastestlapc.cpp:872-1037 | saving outputs loses no entry the tables held before |
| Laptime.SaveOutputsPrefix | src/main/c/fastestlapc.cpp:872-1037 | whatever saving the first `i` names stores stays stored when the list goes on, so the outputs saved before a failure remain |
| Laptime.SaveOutputsCollision | src/main/c/fastestlapc.cpp:874-879 | a name whose key is taken in either table makes the save fail, wherever it is in the list |
| Laptime.SaveOutputsDomain | src/main/c/fastestlapc.cpp:872-1037 | saving adds no key other than prefix + a requested name |
| Laptime.SaveOutputsSuccess | src/main/c/fastestlapc.cpp:881-1035 | after a successful save every requested key was free before; "laptime" holds the lap time in the scalar table only, any other name its vector in the vector table only |
| Laptime.RunOptimalLaptime | src/main/c/fastestlapc.cpp:1065-1077 | an untagged handle changes nothing; an unknown vehicle, then an unknown track, fail with nothing changed; the vehicles change at most by the track being attached to the one named; a failure leaves the cache alone; vehicles stay filed by family |
| Laptime.Finish | src/main/c/fastestlapc.cpp:870-1061 | tables and error are those of saving the outputs; the cache becomes `Bundle` of the solution exactly when saving succeeded and the cache save was asked for, and stays otherwise |
| Laptime.AttachedBeforeSolve | src/main/c/fastestlapc.cpp:772-796 | once the options resolve, the track stays attached to the vehicle whatever output saving does; an option error returns before attaching and changes nothing |
| Laptime.WarmStartSavedLast | src/main/c/fastestlapc.cpp:1039-1061 | the cache changes only when the whole solve and output saving succeeded and the cache save was asked for; when both hold it is refilled with one entry per point of the engine's grid |
| Api.Registry.constructor | src/main/c/fastestlapc.cpp:13-35 | at program start every map, both tables and the cache are empty |
| Api.Registry.CreateVehicle | src/main/c/fastestlapc.cpp:38-117 | the vehicle maps become those of `Vehicles.CreateVehicle`, the handle is tagged with the family; tracks, tables and cache are unchanged |
| Api.Registry.DeleteVehicle | src/main/c/fastestlapc.cpp:484-494 | the vehicle maps become those of `Vehicles.DeleteVehicle`; nothing else changes |
| Api.Registry.CreateTrack | src/main/c/fastestlapc.cpp:119-215 | the track map, the tables and the result are those of `Tracks.CreateTrack`; vehicles and cache are unchanged |
| Api.Registry.DownloadVectorTableVariable | src/main/c/fastestlapc.cpp:407-429 | on success the first `n` cells of the buffer hold the stored vector and the rest is untouched; on failure the buffer is untouched |
| Api.Registry.LoadVectorTableVariable | src/main/c/fastestlapc.cpp:432-441 | the tables become those of `LoadVector` with the first `n` values of the buffer; nothing else changes |
| Api.Registry.ClearTables | src/main/c/fastestlapc.cpp:444-448 | both tables are empty; vehicles, tracks and cache are unchanged |
| Api.Registry.ClearTablesByPrefix | src/main/c/fastestlapc.cpp:451-481 | the tables become `ClearByPrefix` of the old ones; nothing else changes |
| Api.Registry.EraseScalarsByPrefix | src/main/c/fastestlapc.cpp:456-466 | the erase loop over the scalar table leaves exactly the entries without the prefix |
| Api.Registry.EraseVectorsByPrefix | src/main/c/fastestlapc.cpp:470-480 | the erase loop over the vector table leaves exactly the entries without the prefix |
| Api.Registry.StoreOutputs | src/main/c/fastestlapc.cpp:872-1037 | the tables and the error are those of `SaveOutputs`; vehicles, tracks and cache are unchanged |
| Api.Registry.SaveWarmStart | src/main/c/fastestlapc.cpp:1039-1061 | the cache becomes `Bundle` of the solution after clearing and refilling q, qa and u |
| Api.Registry.SaveResults | src/main/c/fastestlapc.cpp:870-1061 | the tables, cache and error become those of `Finish`: outputs first, the cache only after they all succeeded; vehicles and tracks are unchanged |
| Api.Registry.OptimalLaptime | src/main/c/fastestlapc.cpp:1065-1077 | vehicles (with the track attached), tables, cache and error are those of `RunOptimalLaptime`; the track map is unchanged and vehicles stay filed by family |
| Api.StartsAt | src/main/c/fastestlapc.cpp:458 | the result of `find` is 0 exactly when the key starts with the prefix |

## Left out

- The numerical engine (steady-state solver, GG diagram, Crank–Nicolson step, collocation NLP) is not modelled: it is floating-point Newton/interior-point numerics in code that is not part of this model. The steady-state solve and the optimal-laptime solve are function parameters (`SteadyState`, `Engine`), and the values a vehicle model computes for a property are the parameter `Probe`.
- XML parsing of options, vehicle databases and track files is not modelled; the parsed documents are input records (`Options`, `SaveVariables`, `Database`, `TrackFile`). A malformed document, or a missing `prefix`/`variables`/`xml_file_name` element, is not modelled.
- `write_xml` is kept only as a flag; writing the solution file is file output.
- `track_coordinates`, `gg_diagram`, `propagate`/`compute_propagation`, `set_scalar_parameter`, `set_vector_parameter`, `set_matrix_parameter`, `add_variable_parameter` and `vehicle_equations` are not modelled: they call into the vehicle or track model, evaluate floating-point geometry, or (for `vehicle_equations`) have an empty body.
- Several of those entry points change the registered vehicle in place, and the model does not track those changes. `propagate` with `use_circuit` attaches a track to the vehicle's curvilinear models, and the track stays attached. `set_scalar_parameter`, `set_vector_parameter`, `set_matrix_parameter` and `add_variable_parameter` change the vehicle's parameters. A `Vehicle`'s `road` reflects only `optimal_laptime`. `Probe`, `SteadyState` and `Engine` stand for the vehicle in whatever state those calls left it.
- Copying names and paths into the caller's `c_Vehicle`/`c_Track` with `new`/`memcpy` is raw memory handling and is not modelled. The handle is returned only on success; the C code tags a vehicle handle, and sets a track handle's closedness, before the later checks, so a failed call may leave the handle partly filled.
- `download_vector_table_variable_size` returns the size as `int`; a size beyond the `int` range is not modelled (`DownloadSize` returns a `nat`).
- Fixed-size `std::array` copies (`copy_n` of NSTATE, NALGEBRAIC, NCONTROL values, and `std::copy` of the initial condition into `q_start`/`qa_start`/`u_start`) are modelled as whole sequences; a vector of the wrong length is not modelled.
- Laptime.RunOptimalLaptime: its precondition `WellPosed` excludes undefined reads instead of modelling them, and it is stated on the request alone, so it excludes more than the undefined calls. A warm start that asks for a vector output with a grid longer than the cached one is excluded, even when the call would throw first (unknown vehicle or track, missing initial-condition table, or a key collision before the first vector output). A cold start with an initial condition and an empty grid is excluded, even when one of those errors comes first. It also assumes two things about the external numerics. The engine returns one solution point per grid point it is given (`EngineShaped`), and the length clause of `Laptime.WarmStartSavedLast` rests on that. For the kart, the steady-state solver returns at least two controls.
- Api.Registry.OptimalLaptime, Laptime.WarmStartSavedLast, Laptime.AttachedBeforeSolve: the same `WellPosed` precondition as Laptime.RunOptimalLaptime, with the same over-exclusion.
- `double` and `scalar` values are modelled as exact `real`s, so rounding is not modelled: for instance the kart's second dissipation weight `200*200*1.0e-10` is the exact real 0.000004 in `Laptime.Dissipations`, which is not exactly the double the C++ computes.
- The attached track is held by the vehicle as a value; the steady-state solver receives the vehicle with the track attached, although the cartesian model it runs on has no road.
- The warm-start bundle is not checked against the caller's grid, neither here nor in the code: a warm start ignores the caller's `s` and `n_points` for the solve but output saving still uses them.
- Api.Registry.DownloadVectorTableVariable: the caller's buffer is assumed to hold at least `n` values (`n <= data.Length`), which C cannot check.
- Api.Registry.LoadVectorTableVariable: a negative `n` or a buffer shorter than `n` is undefined behaviour in C and is excluded by the precondition.
- Exceptions thrown by the engine or the vehicle model, and the "insertion to the map failed" branches after a successful absence check, cannot occur in the model and are not modelled.
- The order of the vehicle and track lookups in `optimal_laptime` is unspecified in C++ (argument evaluation order); the model looks up the vehicle first.

## Findings

| source | as written | input that shows it | evidently intended | confidence | as-written member | corrected member |
|---|---|---|---|---|---|---|
| src/main/c/fastestlapc.cpp:266-363 | `get_vehicle_property` instantiates `get_vehicle_property_generic` on `.curvilinear_scalar` (lines 377, 381), a member type that is neither `lot2016kart_all` nor `limebeer2014f1_all`, so the `if constexpr` branches for "throttle" and for the four `Fz_*` names are compiled out: "throttle" always throws "Vehicle type is not defined" and every `Fz_*` name throws the limebeer-only error, for the F1 car too | `get_vehicle_property` on a registered limebeer-2014-f1 car with property "Fz_fl", or on any car with "throttle" | the value the output loop of `compute_optimal_laptime` saves for that name and family | medium, not executed (the member types are declared in headers that are not part of this model) | Properties.VehicleProperty, shown by Properties.DirectQueryRefusesThrottleAndLoads | Properties.OutputProperty, with Properties.LookupName; `Laptime.Column` uses it |
