/** The part of the external motion-model library that the core drives.
    The geometry of the three articulated models is not modelled: a model is its
    construction-time configuration plus the arguments of its last `update`, which is all
    its capsules depend on, since an update replaces the capsule state and keeps no history. */
module ReachLib {
  import opened Geometry

  datatype Option<T> = None | Some(value: T)

  /** reach_lib::jointPair: the indices of the two joints a segment connects. */
  datatype JointPair = JointPair(first: int, second: int)

  /** reach_lib::System: the measurement errors and the sensing delay shared by all models. */
  datatype System = System(measurementErrorPos: real, measurementErrorVel: real, delay: real)

  /** The three models, in the order the core updates them. */
  datatype ModelKind = Pos | Vel | Accel

  /** The arguments each model's constructor receives. */
  datatype Config =
    | PosConfig(system: System, extremities: map<string, JointPair>, extremityThickness: seq<real>,
                maxV: seq<real>, extremityLength: seq<real>)
    | VelConfig(system: System, bodyLinks: map<string, JointPair>, thickness: map<string, real>,
                maxV: seq<real>)
    | AccelConfig(system: System, bodyLinks: map<string, JointPair>, thickness: map<string, real>,
                  maxA: seq<real>)

  function KindOf(c: Config): (k: ModelKind) {
    match c
    case PosConfig(_, _, _, _, _) => Pos
    case VelConfig(_, _, _, _) => Vel
    case AccelConfig(_, _, _, _) => Accel
  }

  /** The arguments of one `update(begin, end, joint_pos, joint_vel)` call. */
  datatype Update = Update(begin: real, end: real, pos: seq<Point>, vel: seq<Point>)

  /** A model's state: its configuration and the update its capsules were computed from
      (None before the first update). */
  datatype Model = Model(config: Config, last: Option<Update>)

  /** The effect of `update` on a model: its capsules now reflect exactly this update. */
  function ApplyUpdate(m: Model, u: Update): (updated: Model) {
    m.(last := Some(u))
  }

  /** One recorded `update` call, on the model of the given kind. */
  datatype Call = Call(kind: ModelKind, update: Update)

  /** What getAllCapsules() returns: the capsules of all three models, position-limit model
      first, then velocity-bound, then acceleration-bound. */
  datatype Snapshot = Snapshot(pos: Model, vel: Model, accel: Model)

  /** The arguments of the latest call on the model of kind `k` in a call trace. */
  function LastUpdate(trace: seq<Call>, k: ModelKind): (last: Option<Update>)
    decreases |trace|
  {
    if trace == [] then None
    else if trace[|trace| - 1].kind == k then Some(trace[|trace| - 1].update)
    else LastUpdate(trace[..|trace| - 1], k)
  }

  /** Appending a call changes the latest update of that call's model only. */
  lemma LastUpdateAppend(trace: seq<Call>, c: Call, k: ModelKind)
    ensures LastUpdate(trace + [c], k) == if c.kind == k then Some(c.update) else LastUpdate(trace, k)
  {
  }
}
