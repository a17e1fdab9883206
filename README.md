# Muscollo problem bookkeeping and the Moco acceleration-tracking goal

This project models two pieces of opensim-core in Dafny and proves properties about them.

**The optimal-control problem description.** This is `MucoVariableInfo`, `MucoPhase` and `MucoProblem` in `Muscollo/Muscollo/MucoProblem.cpp`.
- A variable info is a name with a bound over the whole trajectory and optional bounds at the initial and final time. Its constructor validates that the endpoint bounds lie inside the main bound.
- A phase keeps name-keyed registries:
  - state and control infos, which are set by overwriting or appending;
  - parameters, costs and path constraints, which are append-only and reject empty and duplicate names.
- `initialize(model)` of a phase does four things in order:
  - it checks the declared names against the model;
  - it records every enabled multibody constraint of the physics engine with a uniform bounds vector;
  - it counts their equations and allocates Lagrange multipliers named `lambda_cid<k>_p<i>`, `_v<i>` and `_a<i>`;
  - it hands each path constraint its running equation offset.
- A problem holds a list of phases that starts with one default phase. Its mutators forward to phase 0.

**The acceleration-tracking goal.** This is `MocoAccelerationTrackingGoal` in `Moco/Moco/MocoGoal/MocoAccelerationTrackingGoal.cpp`.
- `initializeOnModel` does the following:
  - it chooses the reference table (a file takes precedence over the in-memory table);
  - it decides which frames are tracked;
  - it rejects redundant column labels;
  - it caches the model frames with their weights (default 1.0);
  - it fits three splines per frame, `<path>/acceleration_x`, `_y` and `_z`.
- `calcIntegrand` sums `weight_i * |a_i - r_i|^2` over the frames, where `r_i[k]` is spline `3i+k` at the current time.

## Modules

| file | module | contents |
|---|---|---|
| outcomes.dfy | `Outcomes` | one `Error` constructor per exception the core throws; `Outcome`, `Result`, `Option` |
| bounds.dfy | `Bounds` | `Bounds` (unset or a closed range), `VariableInfo`, `Validate`, the validating constructor |
| naming.dfy | `Naming` | `findIndexForName`, `std::to_string` on naturals, multiplier names and their injectivity |
| phase.dfy | `MucoPhase` | specification functions for one `initialize`; class `Phase` with the registries and caches as fields |
| problem.dfy | `MucoProblem` | class `Problem` holding the phases |
| acceleration_tracking.dfy | `AccelerationTracking` | tables, splines, column selection, frame caching, the integrand; class `AccelerationTrackingGoal` |

## Where the code and its description differ

- **Ignored frame list.** The comment at `MocoAccelerationTrackingGoal.cpp` lines 47-49 says that an empty `frame_paths` property uses every column and a non-empty one selects. The guard at line 50 is inverted.
  - A non-empty property replaces the frame-path cache by all column labels and keeps the whole table.
  - An empty property runs the selection loop over no paths. That gives a table with the times and no column.
  - The model follows the code: `Resolve`, used by `Initialized`.
  - `IntendedResolve` is the reading the comment describes.
  - `RequestedPathsIgnored`, `EmptyRequestTracksNothing` and `GuardDivergence` state the difference. `GuardDivergence` is a concrete table with the frame list `["/a"]`: the code tracks `"/a"` and `"/b"`, the comment only `"/a"`.
- **Two reference sources.** The comment at line 36 says a file and a table should not be supplied together. The code does not reject that case: it only `assert`s exclusivity (lines 38 and 43), and the file wins. `FileTakesPrecedence` states this.
- **Stale caches.** `MucoPhase::initialize` resets the equation counter (line 384). It only appends to the recorded multibody constraints (line 404). `std::map::insert` (line 428) never overwrites a key. So a second `initialize` accumulates entries, and the multiplier properties are stated for the entries one call adds.
- **Stale goal caches.** A second `initializeOnModel` appends to the model frames and the weights again (lines 82 and 88). It replaces the frame paths (line 51) and the splines (line 91). When the reference has a column, there are afterwards more frames than splines divided by three, and `calcIntegrandImpl` would read `m_ref_splines[3*iframe + ia]` past the end (line 112). `InitializeOnModel` models this as written. `ReinitializationOutrunsSplines` exhibits it on a one-column reference. The requires of `CalcIntegrand` excludes exactly that state.

## Model

| member | source | states |
|---|---|---|
| Bounds.Validate | Muscollo/Muscollo/MucoProblem.cpp:45-70 | passes exactly when each set endpoint bound lies inside a set main bound; otherwise it fails for the first violated inequality in source order, naming the variable |
| Bounds.NewVariableInfo | Muscollo/Muscollo/MucoProblem.cpp:35-43 | the constructor stores its arguments and succeeds exactly when the info is valid; a failure is an invalid-bounds error for that name |
| Bounds.WithinIsContainment | Muscollo/Muscollo/MucoProblem.cpp:45-70 | for set, non-empty ranges the four inequalities say exactly that the sub-range is contained in the main range |
| Bounds.SameBoundsAreValid | Muscollo/Muscollo/MucoProblem.cpp:374-378 | an info whose initial and final bounds equal its bounds (every multiplier) is always accepted by the constructor |
| Naming.FindIndexForName | Muscollo/Muscollo/MucoProblem.cpp:125 | returns -1 exactly when the name is absent, otherwise the position of its first occurrence |
| Naming.FindIndexForNameUnique | Muscollo/Muscollo/MucoProblem.cpp:125-129 | in a registry with distinct names the index found is the one entry with that name |
| Naming.NatToStringInjective | Muscollo/Muscollo/MucoProblem.cpp:414-415 | different constraint or equation indices are rendered as different decimal strings |
| Naming.MultiplierNameInjective | Muscollo/Muscollo/MucoProblem.cpp:413-427 | a multiplier name determines its constraint index, its level and its equation index |
| MucoPhase.UpsertReplacesOrAppends | Muscollo/Muscollo/MucoProblem.cpp:123-139 | with a present name the entry at its index is replaced and the rest is unchanged; with a new name the info is appended |
| MucoPhase.UpsertThenLookup | Muscollo/Muscollo/MucoProblem.cpp:123-139 | names stay distinct after a set, and a lookup of the name then returns the new info |
| MucoPhase.UpsertTwice | Muscollo/Muscollo/MucoProblem.cpp:123-139 | two sets under one name equal the second set alone and add at most one entry |
| MucoPhase.CheckNewName | Muscollo/Muscollo/MucoProblem.cpp:140-165 | the add guard throws for an empty name, then for a present name, and passes for a new non-empty name |
| MucoPhase.CheckedAppendIsWellNamed | Muscollo/Muscollo/MucoProblem.cpp:140-165 | appending a name that passed the guard keeps the registry's names distinct and non-empty |
| MucoPhase.Lookup | Muscollo/Muscollo/MucoProblem.cpp:207-245 | succeeds exactly when some entry has the name; the entry returned has that name; otherwise a not-found error |
| MucoPhase.LookupUnique | Muscollo/Muscollo/MucoProblem.cpp:207-245 | with distinct names the lookup of an entry's name returns that very entry |
| MucoPhase.CollectNames | Muscollo/Muscollo/MucoProblem.cpp:172-199 | the loop of the create*Names helpers yields the names of the items, in order |
| MucoPhase.FirstMissing | Muscollo/Muscollo/MucoProblem.cpp:343-362 | -1 exactly when every name is in the universe, otherwise the first name that is not |
| MucoPhase.DeclaredNamesChecked | Muscollo/Muscollo/MucoProblem.cpp:343-362 | the check passes iff every state name is a model state and every control name an actuator path; unknown states are reported before unknown controls |
| MucoPhase.Multipliers | Muscollo/Muscollo/MucoProblem.cpp:413-427 | the multipliers of one level: n infos, the i-th named for (cid, level, i) with all three bounds equal to the multiplier bounds |
| MucoPhase.DiscoverShape | Muscollo/Muscollo/MucoProblem.cpp:385-404 | every recorded constraint comes from an enabled engine constraint with its counts, uniform bounds and name, in increasing index order |
| MucoPhase.DiscoverFindsEnabled | Muscollo/Muscollo/MucoProblem.cpp:385-389 | every constraint that is not disabled is recorded |
| MucoPhase.DiscoverStep | Muscollo/Muscollo/MucoProblem.cpp:385-404 | one more engine constraint adds nothing when disabled and exactly its own record otherwise |
| MucoPhase.MultipliersMatchEquations | Muscollo/Muscollo/MucoProblem.cpp:393-427 | a constraint's bounds vector holds one copy of the constraint bound per equation its info reports; it gets mp+mv+ma multipliers, each valid and bounded by the multiplier bounds at all times |
| MucoPhase.MultiplierNames | Muscollo/Muscollo/MucoProblem.cpp:412-427 | multipliers are named `_p0..`, then `_v0..`, then `_a0..` for their constraint, and no two share a name |
| MucoPhase.MultiplierNamesDistinct | Muscollo/Muscollo/MucoProblem.cpp:412-427 | the multiplier names of one constraint are pairwise different |
| MucoPhase.MultiplierNamesAcrossConstraints | Muscollo/Muscollo/MucoProblem.cpp:412-427 | multipliers of constraints with different indices never share a name |
| MucoPhase.CounterCountsEnabledEquations | Muscollo/Muscollo/MucoProblem.cpp:384-401 | the equation counter is the sum of the equation counts of exactly the constraints that are not disabled |
| MucoPhase.InsertKeepsExisting | Muscollo/Muscollo/MucoProblem.cpp:428 | a key present before the call keeps its multipliers (insert does not overwrite) |
| MucoPhase.InsertKeys | Muscollo/Muscollo/MucoProblem.cpp:428 | after the inserts the keys are the old keys plus the names of the recorded constraints |
| MucoPhase.InsertNewEntry | Muscollo/Muscollo/MucoProblem.cpp:428 | a constraint whose name is new to the map and to the earlier constraints maps to exactly its own multipliers |
| MucoPhase.FirstInitializeMultipliers | Muscollo/Muscollo/MucoProblem.cpp:385-429 | starting from an empty map with injective info names, every enabled constraint maps to exactly its own multipliers |
| MucoPhase.AssignOffsetsAt | Muscollo/Muscollo/MucoProblem.cpp:432-438 | path constraint i keeps its name and equation count and gets as offset the equation count of those before it |
| MucoPhase.AssignOffsetsKeepsNames | Muscollo/Muscollo/MucoProblem.cpp:432-438 | numbering the path constraints leaves their names unchanged |
| MucoPhase.OffsetsAreContiguous | Muscollo/Muscollo/MucoProblem.cpp:432-438 | the first offset is 0, each next one starts where its predecessor ends, and the total is where the last one ends |
| MucoPhase.AppendMultipliers | Muscollo/Muscollo/MucoProblem.cpp:413-417 | one inner loop appends exactly the specified multipliers of a level |
| MucoPhase.BuildMultiplierInfos | Muscollo/Muscollo/MucoProblem.cpp:412-427 | the three inner loops build exactly the position, velocity and acceleration multipliers in that order |
| MucoPhase.RecordOne | Muscollo/Muscollo/MucoProblem.cpp:387-428 | one enabled constraint extends the recorded list, the counter and the map as the specification functions say |
| MucoPhase.RecordConstraints | Muscollo/Muscollo/MucoProblem.cpp:384-430 | the constraint loop appends the enabled constraints, sets the counter to their equation total and inserts their multipliers |
| MucoPhase.Phase.constructor | Muscollo/Muscollo/MucoProblem.cpp:100-114 | empty registries and caches, unset time bounds, constraint bound 0 and multiplier bounds [-1000, 1000] |
| MucoPhase.Phase.SetModel | Muscollo/Muscollo/MucoProblem.cpp:115-117 | stores the model and changes nothing else |
| MucoPhase.Phase.SetTimeBounds | Muscollo/Muscollo/MucoProblem.cpp:118-122 | stores the initial and final time bounds and changes nothing else |
| MucoPhase.Phase.SetMultibodyConstraintBounds | Muscollo/Muscollo/MucoProblem.cpp:478-480 | stores the constraint bound and changes nothing else |
| MucoPhase.Phase.SetMultiplierBounds | Muscollo/Muscollo/MucoProblem.cpp:481-483 | stores the multiplier bounds and changes nothing else |
| MucoPhase.Phase.SetStateInfo | Muscollo/Muscollo/MucoProblem.cpp:123-130 | an invalid info throws and leaves the state infos; a valid one is set by name (overwrite or append); the phase invariant holds |
| MucoPhase.Phase.SetControlInfo | Muscollo/Muscollo/MucoProblem.cpp:131-139 | as for state infos, on the control infos |
| MucoPhase.Phase.AddParameter | Muscollo/Muscollo/MucoProblem.cpp:140-147 | throws on an empty or present name leaving the parameters unchanged, else appends at the end |
| MucoPhase.Phase.AddCost | Muscollo/Muscollo/MucoProblem.cpp:148-155 | throws on an empty or present name leaving the costs unchanged, else appends at the end |
| MucoPhase.Phase.AddPathConstraint | Muscollo/Muscollo/MucoProblem.cpp:156-165 | throws on an empty or present name leaving the path constraints unchanged, else appends at the end |
| MucoPhase.Phase.CreateStateInfoNames | Muscollo/Muscollo/MucoProblem.cpp:172-178 | the names of the state infos, in order |
| MucoPhase.Phase.CreateControlInfoNames | Muscollo/Muscollo/MucoProblem.cpp:179-185 | the names of the control infos, in order |
| MucoPhase.Phase.CreateParameterNames | Muscollo/Muscollo/MucoProblem.cpp:186-192 | the names of the parameters, in order |
| MucoPhase.Phase.CreatePathConstraintNames | Muscollo/Muscollo/MucoProblem.cpp:193-199 | the names of the path constraints, in order |
| MucoPhase.Phase.CreateMultibodyConstraintNames | Muscollo/Muscollo/MucoProblem.cpp:200-206 | the info names of the recorded multibody constraints, in order |
| MucoPhase.Phase.GetStateInfo | Muscollo/Muscollo/MucoProblem.cpp:207-213 | returns a state info with the name iff one exists, else a not-found error |
| MucoPhase.Phase.GetControlInfo | Muscollo/Muscollo/MucoProblem.cpp:214-221 | returns a control info with the name iff one exists, else a not-found error |
| MucoPhase.Phase.GetParameter | Muscollo/Muscollo/MucoProblem.cpp:222-229 | returns a parameter with the name iff one exists, else a not-found error |
| MucoPhase.Phase.GetPathConstraint | Muscollo/Muscollo/MucoProblem.cpp:238-245 | returns a path constraint with the name iff one exists, else a not-found error |
| MucoPhase.Phase.GetMultibodyConstraint | Muscollo/Muscollo/MucoProblem.cpp:246-255 | returns the first recorded constraint whose info has the name iff one exists, else a not-found error |
| MucoPhase.Phase.GetMultiplierInfos | Muscollo/Muscollo/MucoProblem.cpp:256-267 | returns the map entry iff the key is present, else a not-found error |
| MucoPhase.Phase.ApplyParametersToModel | Muscollo/Muscollo/MucoProblem.cpp:440-450 | throws exactly when the value count differs from the parameter count; otherwise value i goes to parameter i |
| MucoPhase.Phase.CheckModelNames | Muscollo/Muscollo/MucoProblem.cpp:343-362 | the two name-checking loops give the outcome of the declared-name check |
| MucoPhase.Phase.RecordMultibodyConstraints | Muscollo/Muscollo/MucoProblem.cpp:372-430 | appends the enabled constraints to the cache, sets the counter to their equation total and inserts their multipliers without overwriting |
| MucoPhase.Phase.NumberPathConstraints | Muscollo/Muscollo/MucoProblem.cpp:432-438 | each path constraint gets its running offset and the total is stored; the invariant holds |
| MucoPhase.Phase.Initialize | Muscollo/Muscollo/MucoProblem.cpp:340-439 | throws for an unknown state or control with the caches untouched; otherwise the caches are extended by exactly the discovered constraints, their equation total, their multipliers and the path-constraint offsets |
| MucoProblem.Problem.constructor | Muscollo/Muscollo/MucoProblem.cpp:506-508 | exactly one fresh default phase: empty registries, unset time bounds, the default constraint and multiplier bounds, and empty caches with zero equation counters |
| MucoProblem.Problem.SetModel | Muscollo/Muscollo/MucoProblem.cpp:461-463 | sets the model of phase 0; other phases unchanged |
| MucoProblem.Problem.SetTimeBounds | Muscollo/Muscollo/MucoProblem.cpp:464-467 | sets the time bounds of phase 0; other phases unchanged |
| MucoProblem.Problem.SetStateInfo | Muscollo/Muscollo/MucoProblem.cpp:468-472 | sets a state info of phase 0 as the phase does; other phases unchanged |
| MucoProblem.Problem.SetControlInfo | Muscollo/Muscollo/MucoProblem.cpp:473-477 | sets a control info of phase 0 as the phase does; other phases unchanged |
| MucoProblem.Problem.SetMultibodyConstraintBounds | Muscollo/Muscollo/MucoProblem.cpp:478-480 | sets the constraint bound of phase 0; other phases unchanged |
| MucoProblem.Problem.SetMultiplierBounds | Muscollo/Muscollo/MucoProblem.cpp:481-483 | sets the multiplier bounds of phase 0; other phases unchanged |
| MucoProblem.Problem.AddParameter | Muscollo/Muscollo/MucoProblem.cpp:484-486 | adds a parameter to phase 0 as the phase does; other phases unchanged |
| MucoProblem.Problem.AddCost | Muscollo/Muscollo/MucoProblem.cpp:487-489 | adds a cost to phase 0 as the phase does; other phases unchanged |
| MucoProblem.Problem.AddPathConstraint | Muscollo/Muscollo/MucoProblem.cpp:490-492 | adds a path constraint to phase 0 as the phase does; other phases unchanged |
| MucoProblem.Problem.InitializePhase | Muscollo/Muscollo/MucoProblem.cpp:503-504 | initializing phase k gives its name-check outcome; on a throw its caches are untouched, otherwise they are extended exactly as the phase's initialize does; nothing but those caches changes |
| MucoProblem.Problem.Initialize | Muscollo/Muscollo/MucoProblem.cpp:502-505 | passes only when every phase's names match the model; a failure is the outcome of the first phase that fails |
| AccelerationTracking.SplineLayout | Moco/Moco/MocoGoal/MocoAccelerationTrackingGoal.cpp:91-92 | there are three splines per column, and spline 3i+k is component k of column i, labelled with the column label and the k-th suffix |
| AccelerationTracking.SplineCount | Moco/Moco/MocoGoal/MocoAccelerationTrackingGoal.cpp:91-92 | three splines per column |
| AccelerationTracking.SelectSpec | Moco/Moco/MocoGoal/MocoAccelerationTrackingGoal.cpp:54-69 | the loop pushes a prefix of the requested paths, all of them labels; it passes iff it pushed all of them, else it throws for the first one that is not a label |
| AccelerationTracking.SelectedTable | Moco/Moco/MocoGoal/MocoAccelerationTrackingGoal.cpp:54-69 | a passing selection keeps the times, and its columns are exactly the requested paths in order, each holding the source's column |
| AccelerationTracking.SelectColumns | Moco/Moco/MocoGoal/MocoAccelerationTrackingGoal.cpp:54-69 | the selection loop computes the selection function |
| AccelerationTracking.SelectPrefix | Moco/Moco/MocoGoal/MocoAccelerationTrackingGoal.cpp:59-65 | once the loop throws, later paths do not matter |
| AccelerationTracking.RequestedPathsIgnored | Moco/Moco/MocoGoal/MocoAccelerationTrackingGoal.cpp:50-52 | with a table or file, a non-empty frame list gives the whole source and all its labels as the frame paths |
| AccelerationTracking.EmptyRequestTracksNothing | Moco/Moco/MocoGoal/MocoAccelerationTrackingGoal.cpp:53-69 | with a table or file, an empty frame list gives a table with the times and no column, and the cache is kept |
| AccelerationTracking.GuardDivergence | Moco/Moco/MocoGoal/MocoAccelerationTrackingGoal.cpp:47-70 | on a two-column table with frame list ["/a"] the code tracks both columns, the comment's reading only "/a" |
| AccelerationTracking.IntendedResolveSelects | Moco/Moco/MocoGoal/MocoAccelerationTrackingGoal.cpp:47-49 | under the comment's reading an empty list uses all labels, and a non-empty one passes iff every requested path is a label, selecting exactly those paths |
| AccelerationTracking.FileTakesPrecedence | Moco/Moco/MocoGoal/MocoAccelerationTrackingGoal.cpp:33-45 | with a reference file, the in-memory table has no influence |
| AccelerationTracking.FirstRepeat | Moco/Moco/MocoGoal/MocoAccelerationTrackingGoal.cpp:75 | -1 iff the labels are distinct, else a position whose label occurred before |
| AccelerationTracking.CheckRedundantLabels | Moco/Moco/MocoGoal/MocoAccelerationTrackingGoal.cpp:75 | passes iff the labels are distinct; a failure names a label found at two positions |
| AccelerationTracking.CacheSpec | Moco/Moco/MocoGoal/MocoAccelerationTrackingGoal.cpp:79-89 | frames and weights are cached in lockstep; entry i is the frame of path i and its weight (configured, else 1.0); the loop passes iff it cached every path, else it throws for the path without a frame |
| AccelerationTracking.CachePassesIffAllFramesExist | Moco/Moco/MocoGoal/MocoAccelerationTrackingGoal.cpp:79-83 | caching passes exactly when every frame path names a frame of the model |
| AccelerationTracking.CachePrefix | Moco/Moco/MocoGoal/MocoAccelerationTrackingGoal.cpp:81 | once a lookup throws, later paths do not matter |
| AccelerationTracking.OneIntegralOneOutput | Moco/Moco/MocoGoal/MocoAccelerationTrackingGoal.cpp:94 | a successful initialization declares one integral and one output |
| AccelerationTracking.DuplicateLabelsFail | Moco/Moco/MocoGoal/MocoAccelerationTrackingGoal.cpp:75 | duplicate labels in the chosen table make initialization throw a redundant-column error before any frame or weight is cached |
| AccelerationTracking.FreshInitializationAligned | Moco/Moco/MocoGoal/MocoAccelerationTrackingGoal.cpp:29-95 | from empty caches with a non-empty frame list, frame i is the model frame of column i with its weight, and splines 3i..3i+2 are that column's x, y and z |
| AccelerationTracking.Reference | Moco/Moco/MocoGoal/MocoAccelerationTrackingGoal.cpp:110-113 | component k of frame i's reference is spline 3i+k evaluated at t |
| AccelerationTracking.IntegrandNonNegative | Moco/Moco/MocoGoal/MocoAccelerationTrackingGoal.cpp:114-118 | with non-negative weights the integrand is non-negative |
| AccelerationTracking.ZeroWeightIgnoresReference | Moco/Moco/MocoGoal/MocoAccelerationTrackingGoal.cpp:117-118 | the splines of a frame with weight 0 do not influence the integrand |
| AccelerationTracking.ReinitializationOutrunsSplines | Moco/Moco/MocoGoal/MocoAccelerationTrackingGoal.cpp:79-94 | initializing twice with a one-column reference leaves two cached frames and weights but only three splines |
| AccelerationTracking.SingleFrameExample | Moco/Moco/MocoGoal/MocoAccelerationTrackingGoal.cpp:103-119 | one worked example, not a general property: one frame of weight 2 with error (1, 0, 0) gives the integrand 2 |
| AccelerationTracking.AccelerationTrackingGoal.InitializeOnModel | Moco/Moco/MocoGoal/MocoAccelerationTrackingGoal.cpp:29-95 | the outcome and the new caches are those of the initialization function on the old configuration and caches |
| AccelerationTracking.AccelerationTrackingGoal.CacheFramesAndWeights | Moco/Moco/MocoGoal/MocoAccelerationTrackingGoal.cpp:79-89 | appends the frames and weights of the caching function and returns its outcome |
| AccelerationTracking.AccelerationTrackingGoal.CalcIntegrand | Moco/Moco/MocoGoal/MocoAccelerationTrackingGoal.cpp:97-120 | the sum over frames of weight times the squared norm of model minus reference acceleration; 0 with no frames |

## Left out

- I/O: `readTableFromFileT` (line 40 of the goal) becomes the parameter `fileTable` of `InitializeOnModel`. All `printDescription` methods write to a stream and are not modelled.
- Simbody and the model are plain data. A `ModelData` holds the state names, the actuator paths relative to the model, and one `(disabled, mp, mv, ma, numEquations)` record per constraint. `getComponent<Frame>` is a map from paths to frame handles. `realizeAcceleration` and `getLinearAccelerationInGround` become the parameter `accel`.
- MucoPhase.NewMultibodyConstraint: the MucoMultibodyConstraint constructor is not part of this model. The equation count its info reports (`getNumEquations()`, lines 394-395 and 400-401) is the engine record's field `numEquations`. It is kept apart from mp + mv + ma, because the comment at lines 406-410 says that the derivative equations get no multiplier. The info's name is the parameter `infoName`, and the properties of the multiplier map assume that `infoName` is injective.
- MucoPhase.TotalPathEquations: the equation count of each path constraint is taken as already known. The source reads it after the constraint's own `initialize` (lines 434-437), which is not part of this model.
- `MucoParameter::initialize`, `MucoCost::initialize`, `applyParameterToModel` and `MucoPathConstraint::initialize` are not part of this model (lines 364-370, 434-435, 448). They are taken to return normally. In the source, a throw at line 365 or 369 would end `initialize` before any cache is extended, and a throw at line 434 would come after the multibody caches were extended. `MucoPhase.Phase.Initialize` states its outcome and caches under this assumption. Only the offset handed to each path constraint is kept. `ApplyParametersToModel` returns the (name, value) pairs it would hand over.
- `updParameter`, `getTimeInitialBounds` and `getTimeFinalBounds` (lines 166-171, 230-237) are reference accessors with no logic beyond the lookup or return. They are not modelled.
- MucoBounds.h is not part of this model. An unset bound is taken to report NaN for both ends, so every comparison against it is false.
- MucoPhase.MultipliersMatchEquations: for a set multiplier bound, the endpoint bounds built from `getLower()`/`getUpper()` (lines 375-378) equal the bound itself. For an unset multiplier bound, the source builds `MucoInitialBounds(NaN, NaN)` and `MucoFinalBounds(NaN, NaN)`. Depending on MucoBounds.h, these are two-valued NaN bounds or a throw. The model assumes they are `Unset` instead. `validate()` treats both the same way, because every comparison with NaN is false.
- Error-message wording is not modelled. The upper-bound messages say ">=" where the test is ">". Each error keeps only the data it reports.
- Floating point is modelled as `real`, so there is no rounding or NaN. GCV spline fitting and evaluation become the parameter `eval` over a spline's data.
- The flatten step's column layout and labels are modelled. The internals of `TimeSeriesTable` are not: `appendColumn` with a duplicate label is treated like any other label.
- Two behaviours of library code outside this model are assumed. `flatten` followed by `GCVSplineSet` (lines 91-92 of the goal) on a table with no dependent column gives no splines and does not throw; the empty-`frame_paths` branch and the no-reference case produce such a table. `checkRedundantLabels` (line 75) reports the label at the first position that repeats an earlier one, as `FirstRepeat` finds it.
- The `assert`s at lines 38 and 43 of the goal are not modelled. They vanish in release builds.
- OpenSim/Simulation/SimulationUtilities.h and OpenSim/Simulation/OpenSense/IMU.h are not part of this model.
- AccelerationTracking.AccelerationTrackingGoal.constructor: MocoAccelerationTrackingGoal.h is not part of this model. The constructor stands for the goal's default construction followed by the header's property setters (reference file, table, frame paths, weight set). It stores those four values and leaves every cache empty.
- Concurrency, the reflection framework (properties and sockets) and `mutable`/`const_cast` are not modelled. The caches are ordinary fields.
- AccelerationTracking.AccelerationTrackingGoal.CalcIntegrand: requires three splines per cached frame and one weight per frame. The source reads `m_ref_splines[3*iframe + ia]` unchecked. `FreshInitializationAligned` shows that a fresh initialization provides this. `ReinitializationOutrunsSplines` shows that a second initialization does not.
- MucoPhase.Phase.CreateMultibodyConstraintNames: the source has no return statement (line 206), which is undefined behaviour. The model returns the evident intent, the names of the constraint infos.
- MucoProblem.Problem.Initialize: states only the outcome and that every phase stays valid. The caches each phase gets are stated per phase by `MucoPhase.Phase.Initialize`, not repeated here. Nor does it state that the phases after a failing one are left untouched.
