/** The time arithmetic of the reachability driver: reach horizons, the number of slices
    of a trajectory, and the interval and model calls of each slice. */
module Slicing {
  import opened Geometry
  import opened ReachLib

  /** std::ceil, written with Dafny's floor. */
  function Ceil(x: real): (r: int)
    ensures r as real - 1.0 < x <= r as real
  {
    -((-x).Floor)
  }

  /** Time between the last measurement and the command, plus the time after it that
      must be covered (the brake time, or the goal motion time). */
  function ReachHorizon(tCommand: real, lastMeasurement: real, tAfter: real): (h: real) {
    tCommand - lastMeasurement + tAfter
  }

  /** The number of slices: ceil(t_reach_robot / sample_time). */
  function TimeSteps(tReachRobot: real, sampleTime: real): (steps: int)
    requires sampleTime != 0.0
    ensures steps as real - 1.0 < tReachRobot / sampleTime <= steps as real
  {
    Ceil(tReachRobot / sampleTime)
  }

  /** The length of one slice. With no slice it is never used, and is taken to be 0. */
  function Increment(tReachHuman: real, steps: int): (inc: real) {
    if steps == 0 then 0.0 else tReachHuman / steps as real
  }

  /** The update of slice `i`: the interval [i * inc, (i + 1) * inc]. */
  function SliceUpdate(inc: real, i: int, pos: seq<Point>, vel: seq<Point>): (u: Update) {
    Update(i as real * inc, (i + 1) as real * inc, pos, vel)
  }

  /** The three calls the driver makes with one update: position-limit, velocity-bound,
      acceleration-bound, in that order. */
  function ModelCalls(u: Update): (calls: seq<Call>) {
    [Call(Pos, u), Call(Vel, u), Call(Accel, u)]
  }

  /** The calls made by the first `n` slices. */
  function SliceTrace(inc: real, n: nat, pos: seq<Point>, vel: seq<Point>): (calls: seq<Call>) {
    if n == 0 then [] else SliceTrace(inc, n - 1, pos, vel) + ModelCalls(SliceUpdate(inc, n - 1, pos, vel))
  }

  /** The snapshot collected after slice update `u`, from models configured as p, v, a. */
  function SliceSnapshot(p: Model, v: Model, a: Model, u: Update): (s: Snapshot) {
    Snapshot(ApplyUpdate(p, u), ApplyUpdate(v, u), ApplyUpdate(a, u))
  }

  /** The snapshots collected by the first `n` slices, from models configured as p, v, a. */
  function SliceSnapshots(p: Model, v: Model, a: Model, inc: real, n: nat, pos: seq<Point>, vel: seq<Point>): (snapshots: seq<Snapshot>) {
    if n == 0 then []
    else SliceSnapshots(p, v, a, inc, n - 1, pos, vel) + [SliceSnapshot(p, v, a, SliceUpdate(inc, n - 1, pos, vel))]
  }

  /** Snapshot i of a sliced run holds every model updated over slice i. */
  lemma {:induction false} SliceSnapshotsAt(p: Model, v: Model, a: Model, inc: real, n: nat, pos: seq<Point>, vel: seq<Point>, i: nat)
    requires i < n
    ensures |SliceSnapshots(p, v, a, inc, n, pos, vel)| == n
    ensures SliceSnapshots(p, v, a, inc, n, pos, vel)[i] == SliceSnapshot(p, v, a, SliceUpdate(inc, i, pos, vel))
  {
    if i < n - 1 {
      SliceSnapshotsAt(p, v, a, inc, n - 1, pos, vel, i);
    } else if n > 1 {
      SliceSnapshotsAt(p, v, a, inc, n - 1, pos, vel, 0);
    }
  }

  /** The kind of the `j`-th call of a slice. */
  function KindAt(j: int): (k: ModelKind) {
    if j == 0 then Pos else if j == 1 then Vel else Accel
  }

  lemma {:induction false} SliceTraceLength(inc: real, n: nat, pos: seq<Point>, vel: seq<Point>)
    ensures |SliceTrace(inc, n, pos, vel)| == 3 * n
  {
    if n > 0 {
      SliceTraceLength(inc, n - 1, pos, vel);
    }
  }

  /** Call 3i + j of the slice trace is call j (p, v, a) of slice i. */
  lemma {:induction false} SliceTraceAt(inc: real, n: nat, pos: seq<Point>, vel: seq<Point>, i: nat, j: nat)
    requires i < n && j < 3
    ensures |SliceTrace(inc, n, pos, vel)| == 3 * n
    ensures SliceTrace(inc, n, pos, vel)[3 * i + j] == Call(KindAt(j), SliceUpdate(inc, i, pos, vel))
  {
    SliceTraceLength(inc, n, pos, vel);
    SliceTraceLength(inc, n - 1, pos, vel);
    if i < n - 1 {
      SliceTraceAt(inc, n - 1, pos, vel, i, j);
    }
  }

  /** After `n > 0` slices, every model holds the update of the last slice. */
  lemma {:induction false} LastUpdateOfSlices(prefix: seq<Call>, inc: real, n: nat, pos: seq<Point>, vel: seq<Point>, k: ModelKind)
    requires n > 0
    ensures LastUpdate(prefix + SliceTrace(inc, n, pos, vel), k) == Some(SliceUpdate(inc, n - 1, pos, vel))
  {
    var u := SliceUpdate(inc, n - 1, pos, vel);
    var before := prefix + SliceTrace(inc, n - 1, pos, vel);
    assert prefix + SliceTrace(inc, n, pos, vel) == before + [Call(Pos, u)] + [Call(Vel, u)] + [Call(Accel, u)];
    LastUpdateAppend(before, Call(Pos, u), k);
    LastUpdateAppend(before + [Call(Pos, u)], Call(Vel, u), k);
    LastUpdateAppend(before + [Call(Pos, u)] + [Call(Vel, u)], Call(Accel, u), k);
  }

  /** Consecutive slices are contiguous: each one begins where the previous one ends. */
  lemma SlicesContiguous(inc: real, i: int, pos: seq<Point>, vel: seq<Point>)
    ensures SliceUpdate(inc, i, pos, vel).end == SliceUpdate(inc, i + 1, pos, vel).begin
  {
  }

  /** Every slice is `inc` long. */
  lemma SliceLength(inc: real, i: int, pos: seq<Point>, vel: seq<Point>)
    ensures SliceUpdate(inc, i, pos, vel).end == SliceUpdate(inc, i, pos, vel).begin + inc
  {
  }

  /** The slices of a horizon start at 0 and the last one ends at the horizon. */
  lemma SlicesCoverHorizon(h: real, steps: int, pos: seq<Point>, vel: seq<Point>)
    requires steps > 0
    ensures SliceUpdate(Increment(h, steps), 0, pos, vel).begin == 0.0
    ensures SliceUpdate(Increment(h, steps), steps - 1, pos, vel).end == h
  {
  }

  /** Every slice has the orientation of the horizon: a proper interval when the horizon is
      positive, a point when it is 0, an inverted interval when it is negative. */
  lemma SliceOrientation(h: real, steps: int, i: int, pos: seq<Point>, vel: seq<Point>)
    requires steps > 0
    ensures var u := SliceUpdate(Increment(h, steps), i, pos, vel);
      (h > 0.0 ==> u.begin < u.end) && (h == 0.0 ==> u.begin == u.end) && (h < 0.0 ==> u.end < u.begin)
  {
  }

  /** The single-shot analysis makes the calls of a one-slice trajectory over the same horizon. */
  lemma SingleShotIsOneSlice(h: real, pos: seq<Point>, vel: seq<Point>)
    ensures SliceTrace(Increment(h, 1), 1, pos, vel) == ModelCalls(Update(0.0, h, pos, vel))
  {
  }

  /** A trajectory of 0.5 time units sampled every 0.25, commanded 0.1 after the last
      measurement: two slices of 0.3, [0, 0.3] and [0.3, 0.6]. */
  lemma TrajectoryExample(pos: seq<Point>, vel: seq<Point>)
    ensures TimeSteps(0.5 - 0.0, 0.25) == 2
    ensures ReachHorizon(1.0, 0.9, 0.5) == 0.6 && Increment(0.6, 2) == 0.3
    ensures SliceUpdate(0.3, 0, pos, vel) == Update(0.0, 0.3, pos, vel)
    ensures SliceUpdate(0.3, 1, pos, vel) == Update(0.3, 0.6, pos, vel)
  {
  }
}
