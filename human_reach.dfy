/** safety_shield::HumanReach: the measurement buffer of a tracked human and the driver that
    advances the three reachability models over future time horizons. */
module SafetyShield {
  import opened Geometry
  import opened ReachLib
  import opened Slicing

  /** The value of the last-measurement timestamp meaning "no measurement yet". */
  const NoMeasurement: real := -1.0

  /** Two samples closer together than this yield no velocity estimate. */
  const MinDt: real := 1e-7

  /** The velocity estimate from two position samples `dt` apart:
      (current - previous) * (1 / dt). */
  function FiniteDifference(current: Point, previous: Point, dt: real): (v: Point)
    requires dt != 0.0
  {
    var s := 1.0 / dt;
    Point((current.x - previous.x) * s, (current.y - previous.y) * s, (current.z - previous.z) * s)
  }

  /** The estimate explains the motion: moving from `previous` at the estimated velocity for
      `dt` reaches `current`, and each component is the displacement divided by `dt`. */
  lemma FiniteDifferenceInverts(current: Point, previous: Point, dt: real)
    requires dt != 0.0
    ensures Add(previous, Scale(FiniteDifference(current, previous, dt), dt)) == current
    ensures var v := FiniteDifference(current, previous, dt);
      v.x == (current.x - previous.x) / dt && v.y == (current.y - previous.y) / dt && v.z == (current.z - previous.z) / dt
  {
  }

  /** The constructor looks every extremity's base and end name up in the joint map. */
  ghost predicate ExtremityNamesKnown(jointNames: map<string, int>, bases: seq<string>, ends: seq<string>) {
    |ends| == |bases| &&
    forall i :: 0 <= i < |bases| ==> bases[i] in jointNames && ends[i] in jointNames
  }

  /** ... and then looks their joint indices up in the speed limits. */
  ghost predicate ExtremitiesResolvable(jointNames: map<string, int>, maxV: seq<real>, bases: seq<string>, ends: seq<string>) {
    ExtremityNamesKnown(jointNames, bases, ends) &&
    forall i :: 0 <= i < |bases| ==> 0 <= jointNames[bases[i]] < |maxV| && 0 <= jointNames[ends[i]] < |maxV|
  }

  /** The extremity map after the loop has stored extremity after extremity, each under its
      base name; a later extremity with the same base name overwrites an earlier one. */
  function ExtremityMap(jointNames: map<string, int>, bases: seq<string>, ends: seq<string>): (segments: map<string, JointPair>)
    requires ExtremityNamesKnown(jointNames, bases, ends)
    decreases |bases|
  {
    if bases == [] then map[]
    else
      var n := |bases| - 1;
      ExtremityMap(jointNames, bases[..n], ends[..n])[bases[n] := JointPair(jointNames[bases[n]], jointNames[ends[n]])]
  }

  /** The extremity speed limits after the loop has pushed one per extremity. */
  function ExtremitySpeeds(jointNames: map<string, int>, maxV: seq<real>, bases: seq<string>, ends: seq<string>): (speeds: seq<real>)
    requires ExtremitiesResolvable(jointNames, maxV, bases, ends)
    decreases |bases|
  {
    if bases == [] then []
    else
      var n := |bases| - 1;
      ExtremitySpeeds(jointNames, maxV, bases[..n], ends[..n]) + [Max(maxV[jointNames[bases[n]]], maxV[jointNames[ends[n]]])]
  }

  /** The extremity map has exactly the base names as keys. */
  lemma {:induction false} ExtremityMapKeys(jointNames: map<string, int>, bases: seq<string>, ends: seq<string>, name: string)
    requires ExtremityNamesKnown(jointNames, bases, ends)
    ensures name in ExtremityMap(jointNames, bases, ends) <==> name in bases
  {
    if bases != [] {
      var n := |bases| - 1;
      ExtremityMapKeys(jointNames, bases[..n], ends[..n], name);
      assert bases == bases[..n] + [bases[n]];
    }
  }

  /** A base name maps to the joint pair of its last occurrence in the list. */
  lemma {:induction false} ExtremityMapLastWins(jointNames: map<string, int>, bases: seq<string>, ends: seq<string>, i: int)
    requires ExtremityNamesKnown(jointNames, bases, ends)
    requires 0 <= i < |bases| && forall j :: i < j < |bases| ==> bases[j] != bases[i]
    ensures bases[i] in ExtremityMap(jointNames, bases, ends)
    ensures ExtremityMap(jointNames, bases, ends)[bases[i]] == JointPair(jointNames[bases[i]], jointNames[ends[i]])
  {
    var n := |bases| - 1;
    if i < n {
      ExtremityMapLastWins(jointNames, bases[..n], ends[..n], i);
    }
  }

  /** There is one speed limit per extremity. */
  lemma {:induction false} ExtremitySpeedsLength(jointNames: map<string, int>, maxV: seq<real>, bases: seq<string>, ends: seq<string>)
    requires ExtremitiesResolvable(jointNames, maxV, bases, ends)
    ensures |ExtremitySpeeds(jointNames, maxV, bases, ends)| == |bases|
  {
    if bases != [] {
      var n := |bases| - 1;
      ExtremitySpeedsLength(jointNames, maxV, bases[..n], ends[..n]);
    }
  }

  /** The speed limit of an extremity is the larger of its base and end joints' limits. */
  lemma {:induction false} ExtremitySpeedsAt(jointNames: map<string, int>, maxV: seq<real>, bases: seq<string>, ends: seq<string>, i: int)
    requires ExtremitiesResolvable(jointNames, maxV, bases, ends)
    requires 0 <= i < |bases|
    ensures |ExtremitySpeeds(jointNames, maxV, bases, ends)| == |bases|
    ensures ExtremitySpeeds(jointNames, maxV, bases, ends)[i] == Max(maxV[jointNames[bases[i]]], maxV[jointNames[ends[i]]])
  {
    var n := |bases| - 1;
    if n > 0 {
      ExtremitySpeedsAt(jointNames, maxV, bases[..n], ends[..n], if i < n then i else 0);
    }
  }

  /** The extremity loop of the constructor: builds the extremity map and the extremity
      speed limits the position-limit model is constructed with. */
  method BuildExtremities(jointNames: map<string, int>, maxV: seq<real>, bases: seq<string>, ends: seq<string>)
    returns (segments: map<string, JointPair>, speeds: seq<real>)
    requires ExtremitiesResolvable(jointNames, maxV, bases, ends)
    ensures segments == ExtremityMap(jointNames, bases, ends)
    ensures speeds == ExtremitySpeeds(jointNames, maxV, bases, ends)
  {
    segments := map[];
    speeds := [];
    var i := 0;
    while i < |bases|
      invariant 0 <= i <= |bases|
      invariant segments == ExtremityMap(jointNames, bases[..i], ends[..i])
      invariant speeds == ExtremitySpeeds(jointNames, maxV, bases[..i], ends[..i])
    {
      assert bases[..i + 1][..i] == bases[..i] && ends[..i + 1][..i] == ends[..i];
      segments := segments[bases[i] := JointPair(jointNames[bases[i]], jointNames[ends[i]])];
      speeds := speeds + [Max(maxV[jointNames[bases[i]]], maxV[jointNames[ends[i]]])];
      i := i + 1;
    }
    assert bases[..i] == bases && ends[..i] == ends;
  }

  class HumanReach {
    const nJointsMeas: int
    const bodyLinkJoints: map<string, JointPair>
    const measurementErrorPos: real
    const measurementErrorVel: real
    const delay: real

    /** The last measured joint positions and the estimated joint velocities. */
    var jointPos: seq<Point>
    var jointVel: seq<Point>
    /** The time of the last measurement, or NoMeasurement. */
    var lastMeasTimestep: real
    /** Whether some velocity was computed from two measurements. */
    var hasSecondMeas: bool

    /** The position-limit, velocity-bound and acceleration-bound models. */
    var humanP: Model
    var humanV: Model
    var humanA: Model
    /** Every `update` call made on the three models, oldest first. */
    var trace: seq<Call>

    /** Each model is of its kind and holds the arguments of its latest call in the trace. */
    ghost predicate Valid()
      reads this
    {
      KindOf(humanP.config) == Pos && KindOf(humanV.config) == Vel && KindOf(humanA.config) == Accel &&
      humanP.last == LastUpdate(trace, Pos) &&
      humanV.last == LastUpdate(trace, Vel) &&
      humanA.last == LastUpdate(trace, Accel)
    }

    /** The capsules of all three models (getAllCapsules). */
    function AllCapsules(): Snapshot
      reads this
    {
      Snapshot(humanP, humanV, humanA)
    }

    /** The header's initial values are taken as: no measurement yet (-1), no second
        measurement, empty joint vectors. */
    constructor (nJointsMeas: int, jointNames: map<string, int>, bodyLinkJoints: map<string, JointPair>,
                 thickness: map<string, real>, maxV: seq<real>, maxA: seq<real>,
                 extremityBaseNames: seq<string>, extremityEndNames: seq<string>,
                 extremityLength: seq<real>, extremityThickness: seq<real>,
                 measurementErrorPos: real, measurementErrorVel: real, delay: real)
      requires ExtremitiesResolvable(jointNames, maxV, extremityBaseNames, extremityEndNames)
      ensures Valid() && trace == []
      ensures jointPos == Zeros(nJointsMeas) && jointVel == Zeros(nJointsMeas)
      ensures lastMeasTimestep == NoMeasurement && !hasSecondMeas
      ensures this.nJointsMeas == nJointsMeas && this.bodyLinkJoints == bodyLinkJoints
      ensures this.measurementErrorPos == measurementErrorPos && this.measurementErrorVel == measurementErrorVel
      ensures this.delay == delay
      ensures var system := System(measurementErrorPos, measurementErrorVel, delay);
        && humanV == Model(VelConfig(system, bodyLinkJoints, thickness, maxV), None)
        && humanA == Model(AccelConfig(system, bodyLinkJoints, thickness, maxA), None)
        && humanP.last == None && humanP.config.PosConfig?
        && humanP.config.system == system
        && humanP.config.extremityThickness == extremityThickness
        && humanP.config.extremityLength == extremityLength
        && humanP.config.extremities == ExtremityMap(jointNames, extremityBaseNames, extremityEndNames)
        && humanP.config.maxV == ExtremitySpeeds(jointNames, maxV, extremityBaseNames, extremityEndNames)
    {
      this.nJointsMeas := nJointsMeas;
      this.bodyLinkJoints := bodyLinkJoints;
      this.measurementErrorPos := measurementErrorPos;
      this.measurementErrorVel := measurementErrorVel;
      this.delay := delay;
      var system := System(measurementErrorPos, measurementErrorVel, delay);
      humanV := Model(VelConfig(system, bodyLinkJoints, thickness, maxV), None);
      humanA := Model(AccelConfig(system, bodyLinkJoints, thickness, maxA), None);
      var segments, speeds := BuildExtremities(jointNames, maxV, extremityBaseNames, extremityEndNames);
      humanP := Model(PosConfig(system, segments, extremityThickness, speeds, extremityLength), None);
      trace := [];
      jointPos := [];
      jointVel := [];
      lastMeasTimestep := NoMeasurement;
      hasSecondMeas := false;
      new;
      var i := 0;
      while i < nJointsMeas
        invariant 0 <= i && (i <= nJointsMeas || i == 0)
        invariant jointPos == Zeros(i) && jointVel == Zeros(i)
        invariant Valid() && trace == [] && lastMeasTimestep == NoMeasurement && !hasSecondMeas
        invariant humanV == Model(VelConfig(system, bodyLinkJoints, thickness, maxV), None)
        invariant humanA == Model(AccelConfig(system, bodyLinkJoints, thickness, maxA), None)
        invariant humanP == Model(PosConfig(system, segments, extremityThickness, speeds, extremityLength), None)
      {
        jointPos := jointPos + [Origin];
        jointVel := jointVel + [Origin];
        i := i + 1;
      }
      assert nJointsMeas <= 0 ==> Zeros(nJointsMeas) == [];
    }

    /** Marks "no measurement yet" and appends nJointsMeas zero points to the joint
        positions and velocities; it does not clear them. */
    method Reset()
      requires Valid()
      modifies this
      ensures Valid()
      ensures lastMeasTimestep == NoMeasurement
      ensures jointPos == old(jointPos) + Zeros(nJointsMeas)
      ensures jointVel == old(jointVel) + Zeros(nJointsMeas)
      ensures hasSecondMeas == old(hasSecondMeas)
      ensures humanP == old(humanP) && humanV == old(humanV) && humanA == old(humanA) && trace == old(trace)
    {
      lastMeasTimestep := NoMeasurement;
      var i := 0;
      while i < nJointsMeas
        invariant i <= nJointsMeas ==> jointPos == old(jointPos) + Zeros(i) && jointVel == old(jointVel) + Zeros(i)
        invariant i > nJointsMeas ==> i == 0 && jointPos == old(jointPos) && jointVel == old(jointVel)
        invariant lastMeasTimestep == NoMeasurement && hasSecondMeas == old(hasSecondMeas)
        invariant humanP == old(humanP) && humanV == old(humanV) && humanA == old(humanA) && trace == old(trace)
      {
        jointPos := jointPos + [Origin];
        jointVel := jointVel + [Origin];
        i := i + 1;
      }
      assert Zeros(if nJointsMeas > 0 then nJointsMeas else 0) == Zeros(nJointsMeas);
      assert nJointsMeas <= 0 ==> Zeros(nJointsMeas) == [];
    }

    /** Records one frame of joint positions taken at `time`. The first frame (no
        measurement yet) and a frame less than MinDt after the last one only store the
        positions and the time; otherwise every measured joint also gets the finite-difference
        velocity from its previous position. The velocity loop indexes the stored positions
        and velocities by the measured joints, so in that case both must be long enough. */
    method Measurement(humanJointPos: seq<Point>, time: real)
      requires Valid()
      requires lastMeasTimestep != NoMeasurement && time - lastMeasTimestep >= MinDt ==>
        |humanJointPos| <= |jointPos| && |humanJointPos| <= |jointVel|
      modifies this
      ensures Valid()
      ensures jointPos == humanJointPos && lastMeasTimestep == time
      ensures old(lastMeasTimestep) == NoMeasurement || time - old(lastMeasTimestep) < MinDt ==>
        jointVel == old(jointVel) && hasSecondMeas == old(hasSecondMeas)
      ensures old(lastMeasTimestep) != NoMeasurement && time - old(lastMeasTimestep) >= MinDt ==>
        && hasSecondMeas
        && |jointVel| == |old(jointVel)|
        && (forall i :: 0 <= i < |humanJointPos| ==>
              jointVel[i] == FiniteDifference(humanJointPos[i], old(jointPos)[i], time - old(lastMeasTimestep)))
        && (forall i :: |humanJointPos| <= i < |jointVel| ==> jointVel[i] == old(jointVel)[i])
      ensures humanP == old(humanP) && humanV == old(humanV) && humanA == old(humanA) && trace == old(trace)
    {
      if lastMeasTimestep != NoMeasurement {
        var dt := time - lastMeasTimestep;
        if dt < MinDt {
          jointPos := humanJointPos;
          lastMeasTimestep := time;
          return;
        }
        var i := 0;
        while i < |humanJointPos|
          invariant 0 <= i <= |humanJointPos|
          invariant |humanJointPos| <= |jointPos| && |humanJointPos| <= |jointVel|
          invariant |jointVel| == |old(jointVel)|
          invariant forall k :: 0 <= k < i ==> jointVel[k] == FiniteDifference(humanJointPos[k], jointPos[k], dt)
          invariant forall k :: i <= k < |jointVel| ==> jointVel[k] == old(jointVel)[k]
          invariant jointPos == old(jointPos) && lastMeasTimestep == old(lastMeasTimestep)
          invariant hasSecondMeas == old(hasSecondMeas)
          invariant humanP == old(humanP) && humanV == old(humanV) && humanA == old(humanA) && trace == old(trace)
        {
          jointVel := jointVel[i := FiniteDifference(humanJointPos[i], jointPos[i], dt)];
          i := i + 1;
        }
        hasSecondMeas := true;
      }
      jointPos := humanJointPos;
      lastMeasTimestep := time;
    }

    /** `human_X_.update(begin, end, joint_pos_, joint_vel_)` on the model of kind `kind`:
        that model's capsules now reflect this update, and the call is recorded. */
    method UpdateModel(kind: ModelKind, begin: real, end: real)
      requires Valid()
      modifies this
      ensures Valid()
      ensures var u := Update(begin, end, jointPos, jointVel);
        && trace == old(trace) + [Call(kind, u)]
        && humanP == (if kind == Pos then ApplyUpdate(old(humanP), u) else old(humanP))
        && humanV == (if kind == Vel then ApplyUpdate(old(humanV), u) else old(humanV))
        && humanA == (if kind == Accel then ApplyUpdate(old(humanA), u) else old(humanA))
      ensures jointPos == old(jointPos) && jointVel == old(jointVel)
      ensures lastMeasTimestep == old(lastMeasTimestep) && hasSecondMeas == old(hasSecondMeas)
    {
      var u := Update(begin, end, jointPos, jointVel);
      match kind {
        case Pos => humanP := ApplyUpdate(humanP, u);
        case Vel => humanV := ApplyUpdate(humanV, u);
        case Accel => humanA := ApplyUpdate(humanA, u);
      }
      LastUpdateAppend(trace, Call(kind, u), Pos);
      LastUpdateAppend(trace, Call(kind, u), Vel);
      LastUpdateAppend(trace, Call(kind, u), Accel);
      trace := trace + [Call(kind, u)];
    }

    /** The three calls `human_p_.update`, `human_v_.update`, `human_a_.update`, in that
        order, with the same interval and the current joint state. */
    method UpdateModels(begin: real, end: real)
      requires Valid()
      modifies this
      ensures Valid()
      ensures var u := Update(begin, end, jointPos, jointVel);
        && trace == old(trace) + ModelCalls(u)
        && AllCapsules() == SliceSnapshot(old(humanP), old(humanV), old(humanA), u)
      ensures jointPos == old(jointPos) && jointVel == old(jointVel)
      ensures lastMeasTimestep == old(lastMeasTimestep) && hasSecondMeas == old(hasSecondMeas)
    {
      ghost var u := Update(begin, end, jointPos, jointVel);
      ghost var before := trace;
      UpdateModel(Pos, begin, end);
      UpdateModel(Vel, begin, end);
      UpdateModel(Accel, begin, end);
      assert before + [Call(Pos, u)] + [Call(Vel, u)] + [Call(Accel, u)] == before + ModelCalls(u);
    }

    /** Single-shot analysis: updates the position-limit, velocity-bound and
        acceleration-bound models, in that order, over [0, t_command - last measurement
        time + t_brake] with the current joint state. */
    method HumanReachabilityAnalysis(tCommand: real, tBrake: real)
      requires Valid()
      modifies this
      ensures Valid()
      ensures var u := Update(0.0, ReachHorizon(tCommand, lastMeasTimestep, tBrake), jointPos, jointVel);
        && trace == old(trace) + ModelCalls(u)
        && AllCapsules() == SliceSnapshot(old(humanP), old(humanV), old(humanA), u)
      ensures jointPos == old(jointPos) && jointVel == old(jointVel)
      ensures lastMeasTimestep == old(lastMeasTimestep) && hasSecondMeas == old(hasSecondMeas)
    {
      var tReach := ReachHorizon(tCommand, lastMeasTimestep, tBrake);
      UpdateModels(0.0, tReach);
    }

    /** Time-sliced analysis: splits [0, t_command - last measurement time + goal_motion_time]
        into ceil((goal_motion_time - current_motion_time) / sample_time) equal contiguous
        slices; for each, updates the three models over it and collects their capsules.
        With no positive number of slices nothing is updated and the result is empty. */
    method ImprovedHumanReachabilityAnalysis(tCommand: real, currentMotionTime: real, goalMotionTime: real, sampleTime: real)
      returns (list: seq<Snapshot>)
      requires Valid()
      requires sampleTime != 0.0
      modifies this
      ensures Valid()
      ensures var steps := TimeSteps(goalMotionTime - currentMotionTime, sampleTime);
        var inc := Increment(ReachHorizon(tCommand, lastMeasTimestep, goalMotionTime), steps);
        && |list| == (if steps > 0 then steps else 0)
        && list == SliceSnapshots(old(humanP), old(humanV), old(humanA), inc, |list|, jointPos, jointVel)
        && trace == old(trace) + SliceTrace(inc, |list|, jointPos, jointVel)
        && AllCapsules() == (if |list| == 0 then old(AllCapsules()) else list[|list| - 1])
      ensures jointPos == old(jointPos) && jointVel == old(jointVel)
      ensures lastMeasTimestep == old(lastMeasTimestep) && hasSecondMeas == old(hasSecondMeas)
    {
      ghost var p0, v0, a0, trace0 := humanP, humanV, humanA, trace;
      ghost var pos, vel := jointPos, jointVel;
      list := [];
      var tReachHuman := ReachHorizon(tCommand, lastMeasTimestep, goalMotionTime);
      var tReachRobot := goalMotionTime - currentMotionTime;
      var timeSteps := TimeSteps(tReachRobot, sampleTime);
      var increment := Increment(tReachHuman, timeSteps);
      var begin := 0.0;
      var end := increment;
      var i := 0;
      while i < timeSteps
        invariant 0 <= i && (i <= timeSteps || i == 0)
        invariant begin == SliceUpdate(increment, i, pos, vel).begin && end == begin + increment
        invariant Valid()
        invariant jointPos == pos && jointVel == vel
        invariant lastMeasTimestep == old(lastMeasTimestep) && hasSecondMeas == old(hasSecondMeas)
        invariant humanP.config == p0.config && humanV.config == v0.config && humanA.config == a0.config
        invariant |list| == i
        invariant list == SliceSnapshots(p0, v0, a0, increment, i, pos, vel)
        invariant trace == trace0 + SliceTrace(increment, i, pos, vel)
      {
        ghost var u := SliceUpdate(increment, i, pos, vel);
        SliceLength(increment, i, pos, vel);
        SliceLength(increment, i + 1, pos, vel);
        assert Update(begin, end, jointPos, jointVel) == u;
        assert SliceSnapshot(humanP, humanV, humanA, u) == SliceSnapshot(p0, v0, a0, u);
        UpdateModels(begin, end);
        list := list + [AllCapsules()];
        begin := begin + increment;
        end := end + increment;
        i := i + 1;
      }
      if i > 0 {
        LastUpdateOfSlices(trace0, increment, i, pos, vel, Pos);
        LastUpdateOfSlices(trace0, increment, i, pos, vel, Vel);
        LastUpdateOfSlices(trace0, increment, i, pos, vel, Accel);
        SliceSnapshotsAt(p0, v0, a0, increment, i, pos, vel, i - 1);
      }
    }
  }

  /** Two joints one unit apart both move 0.1 along x in 0.1 time units: the first sample
      leaves the velocities at zero, the second is far enough from it to record a second
      measurement, and a command 0.1 after the second measurement with a brake time of
      0.05 gives the horizon [0, 0.15]. */
  method EndToEndScenario() {
    var noNames: seq<string> := [];
    assert ExtremitiesResolvable(map[], [1.0, 1.0], noNames, noNames);
    var reach := new HumanReach(2, map[], map["ab" := JointPair(0, 1)], map["ab" := 0.1],
                                [1.0, 1.0], [1.0, 1.0], noNames, noNames, [], [], 0.0, 0.0, 0.0);
    reach.Measurement([Point(0.0, 0.0, 0.0), Point(1.0, 0.0, 0.0)], 0.0);
    assert reach.jointVel == [Origin, Origin];
    reach.Measurement([Point(0.1, 0.0, 0.0), Point(1.1, 0.0, 0.0)], 0.1);
    assert reach.hasSecondMeas;
    reach.HumanReachabilityAnalysis(0.2, 0.05);
    assert reach.humanV.last == Some(Update(0.0, 0.15, reach.jointPos, reach.jointVel));
  }
}
