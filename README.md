# HumanReach: measurement buffer and reachability driver of the safety shield

This project models the `HumanReach` class of the safety shield in Dafny and proves what it
does. The class is the human-reachability core of a robot safety monitor. It keeps the last
measured joint positions of a tracked human and turns successive samples into velocity
estimates. It then drives three conservative motion models over future time horizons. These
are the position-limit model (`human_p_`), the velocity-bound model (`human_v_`) and the
acceleration-bound model (`human_a_`). The driver either updates the models once over a
single horizon or cuts a horizon into time slices and collects one capsule snapshot per slice.

Files and modules:

- `geometry.dfy` (`Geometry`): 3D points with exact real coordinates, the zero point, `std::max`.
- `reach_lib.dfy` (`ReachLib`): the external motion-model library, abstracted. A model is its
  construction-time configuration plus the arguments of its latest `update` call, which is all
  its capsules depend on, since an update replaces the capsule state. A snapshot
  (`getAllCapsules()`) is the three models in the order position, velocity, acceleration.
  Every `update` call is also recorded in a trace of `(model, begin, end, pos, vel)` calls.
- `slicing.dfy` (`Slicing`): the time arithmetic of the driver. It holds the reach horizon,
  `ceil`, the slice count and length, the interval of each slice and the calls of a sliced
  run, with the lemmas about them.
- `human_reach.dfy` (`SafetyShield`): the class `HumanReach` with its fields as Dafny
  fields and its operations as methods with loop invariants. It also holds the extremity
  set-up of the constructor, and a client scenario (`EndToEndScenario`) whose assertions follow from the contracts alone.

The object invariant `HumanReach.Valid()` says that each model holds the arguments of its
latest call in the trace, so the trace and the model states never disagree.

In several places the code behaves differently from what a reader might expect, and the model follows the code:

- `reset()` appends `n_joints_meas_` zero points to the joint positions and velocities.
  One might expect a reset to clear the vectors and refill them with exactly that many.
  It also leaves `has_second_meas_` as it was (`HumanReach.Reset`).
- The joint vectors are not fixed in size. A measurement replaces the positions by the input,
  whatever its length (`HumanReach.Measurement`).
- A time-sliced run whose slice count is not positive is not rejected. It updates nothing
  and returns an empty list (`HumanReach.ImprovedHumanReachabilityAnalysis`).
- A negative human reach horizon is not guarded. It gives inverted intervals
  (`Slicing.SliceOrientation`).
- A measurement taken at time `-1` sets the timestamp to the "no measurement" value, so the
  following sample is treated as a first sample. This falls out of `HumanReach.Measurement`'s
  contract.

The initial values of `last_meas_timestep_` and `has_second_meas_` are set in the class
header, and the header is not part of this model. They are taken to be `-1` and `false`, and
the joint vectors start empty.

## Model

| member | source | states |
|---|---|---|
| SafetyShield.BuildExtremities | safety_shield/src/human_reach.cc:27-35 | the loop builds exactly the extremity map and the extremity speed list defined by `ExtremityMap` and `ExtremitySpeeds`; requires equal-length name lists whose names are joints and whose joint indices are within the speed limits |
| SafetyShield.ExtremityMapKeys | safety_shield/src/human_reach.cc:30-31 | a name is a key of the extremity map exactly when it is one of the base names |
| SafetyShield.ExtremityMapLastWins | safety_shield/src/human_reach.cc:30-31 | a base name maps to the joint pair (its base joint index, its end joint index) of its last occurrence in the list |
| SafetyShield.ExtremitySpeedsLength | safety_shield/src/human_reach.cc:30-33 | the speed list has exactly one entry per extremity, the empty list included |
| SafetyShield.ExtremitySpeedsAt | safety_shield/src/human_reach.cc:32-33 | the speed list has one entry per base name, and entry i is the larger of the speed limits of extremity i's base joint and end joint |
| SafetyShield.HumanReach.constructor | safety_shield/src/human_reach.cc:5-42 | positions and velocities are `n_joints_meas` zero points each (none when it is not positive); no measurement yet; velocity and acceleration models built from the system errors, body links, thickness and max_v / max_a; the position model from `ExtremityMap` and `ExtremitySpeeds` of the extremity lists; no update made |
| SafetyShield.HumanReach.Reset | safety_shield/src/human_reach.cc:44-50 | timestamp becomes -1; both joint vectors keep their entries and gain `n_joints_meas` zero points at the end; `has_second_meas_`, models and trace unchanged |
| SafetyShield.HumanReach.Measurement | safety_shield/src/human_reach.cc:52-74 | positions become the input and the timestamp the given time in every case; on a first sample or when dt < 1e-7 velocities and `has_second_meas_` are unchanged; otherwise velocity i is the finite difference of input i and old position i over dt for every measured joint, later velocities are unchanged, the length is kept and `has_second_meas_` becomes true; needs both stored vectors as long as the input only on that last path |
| SafetyShield.FiniteDifferenceInverts | safety_shield/src/human_reach.cc:62-65 | the estimated velocity times dt added to the old position gives the new position, and each component is the displacement divided by dt |
| SafetyShield.HumanReach.UpdateModel | safety_shield/src/human_reach.cc:81-83 | one `update(begin, end, joint_pos_, joint_vel_)` call: only that model changes, to reflect this update; the call is appended to the trace; joint state untouched |
| SafetyShield.HumanReach.UpdateModels | safety_shield/src/human_reach.cc:102-104 | the p, v, a update calls with one interval: the trace gains exactly these three calls in that order, and the snapshot is the update applied to each model |
| SafetyShield.HumanReach.HumanReachabilityAnalysis | safety_shield/src/human_reach.cc:76-87 | the trace gains exactly the p, v, a calls, in that order, over [0, t_command - last time + t_brake] with the current joint state; the snapshot is that update applied to each model; joint state and timestamp unchanged |
| SafetyShield.HumanReach.ImprovedHumanReachabilityAnalysis | safety_shield/src/human_reach.cc:89-110 | returns max(0, steps) snapshots with steps = ceil((goal - current) / sample_time); the list is `SliceSnapshots`: snapshot i is every model updated over slice i = [i*inc, (i+1)*inc], inc = human horizon / steps; the trace gains the p, v, a calls of each slice in slice order; the final models are the last snapshot (unchanged when there is none); joint state and timestamp unchanged |
| Slicing.Ceil | safety_shield/src/human_reach.cc:96 | the result is the least integer not below the argument |
| Slicing.TimeSteps | safety_shield/src/human_reach.cc:95-96 | the slice count is the least integer not below robot horizon / sample time |
| Slicing.SliceTraceLength | safety_shield/src/human_reach.cc:100-105 | n slices make exactly 3n model calls |
| Slicing.SliceTraceAt | safety_shield/src/human_reach.cc:100-105 | call 3i + j of a sliced run is call j (p, v, a) of slice i, over slice i's interval |
| Slicing.LastUpdateOfSlices | safety_shield/src/human_reach.cc:102-105 | after n > 0 slices, on top of any earlier calls, each of the three models holds the update of slice n - 1; this is the state each collected snapshot captures |
| Slicing.SliceSnapshotsAt | safety_shield/src/human_reach.cc:100-108 | a sliced run collects exactly n snapshots, and snapshot i holds every model updated over slice i |
| Slicing.SliceLength | safety_shield/src/human_reach.cc:97-99 | every slice is one increment long |
| Slicing.SlicesContiguous | safety_shield/src/human_reach.cc:98-107 | slice i ends where slice i + 1 begins |
| Slicing.SlicesCoverHorizon | safety_shield/src/human_reach.cc:94-107 | with a positive slice count, the first slice begins at 0 and the last ends exactly at the human reach horizon |
| Slicing.SliceOrientation | safety_shield/src/human_reach.cc:94-107 | with a positive slice count, every slice is a proper interval when the horizon is positive, a point when it is 0, and inverted when it is negative |
| Slicing.SingleShotIsOneSlice | safety_shield/src/human_reach.cc:79-83 | the single-shot calls over horizon h are the calls of a one-slice run over h |
| Slicing.TrajectoryExample | safety_shield/src/human_reach.cc:94-107 | goal 0.5, current 0, sample time 0.25, command 0.1 after the last measurement: 2 slices of 0.3, [0, 0.3] and [0.3, 0.6] |
| ReachLib.LastUpdateAppend | safety_shield/src/human_reach.cc:102-104 | a new call changes the latest update of its own model to its arguments and no other model's |

## Left out

- The geometry of `reach_lib::ArticulatedPos`, `ArticulatedVel` and `ArticulatedAccel` and of `getAllCapsules()` belongs to an external library. A model is its configuration and latest update, so the capsules themselves are not modelled.
- The property that a model's capsule radius does not decrease as the horizon grows, for fixed measurement state, cannot be stated. It is a property of the external models' geometry.
- The `spdlog` warning and error messages (lines 57, 72, 85) are logging only.
- The `try`/`catch` blocks (lines 53, 71, 77, 84) are not modelled. The exceptions they catch in `measurement` and `humanReachabilityAnalysis` can only come from unseen library code, and the partial state those exceptions would leave is not modelled. Both operations complete normally under their requires.
- HumanReach.constructor: the lookups `joint_names.at(...)` (lines 31, 33) and `max_v.at(...)` (line 33) are outside any `try`. They throw `std::out_of_range` to the caller when an extremity name is not a joint name or a joint index is outside `max_v`. The model does not model this error path. Its requires `ExtremitiesResolvable` assumes every lookup succeeds, and `BuildExtremities` has the same requires.
- BuildExtremities: the extremity loop (lines 30-34) does the same `.at()` lookups. Its requires excludes the inputs that make them throw `std::out_of_range`, so the model has no error result for them.
- Floating-point rounding is not modelled. Times and coordinates are exact reals. The accumulation `begin += increment` at lines 106-107 is therefore exactly `i * increment`, which idealises the C++.
- The conversion of the `ceil` result to a 32-bit `int` at line 96 is modelled by an unbounded integer. Its overflow is not modelled.
- Division by zero at line 96: `sample_time == 0` is excluded by a requires, because the C++ then converts an infinite or NaN value to `int`. With a slice count of 0, the C++ divides by zero at line 97, but the loop never uses the quotient. The model sets the increment to 0 there.
- The `assert` at line 35 is modelled as a requires that the base and end name lists have equal length.
- Out-of-range `joint_vel_[i]` and `joint_pos_[i]` at line 64 would be undefined behaviour, not an exception. They are excluded by the requires of `HumanReach.Measurement`.
- The header-declared fields and their initial values are not visible. They are taken as stated above.
