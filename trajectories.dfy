/** Reference trajectories: objects a task queries at time `t` for its
    desired state, velocity and acceleration. */
module Trajectories {
  import opened Numpy
  import opened Pinocchio

  /** The base trajectory: dimension 0, and every query answers three empty
      (0 x 0) matrices. */
  class RefTrajectory {
    const name: string
    const dimension: nat := 0

    constructor (name: string)
      ensures this.name == name
    {
      this.name := name;
    }

    /** The `dim` property. */
    function Dim(): (d: nat)
      ensures d == 0
    {
      dimension
    }

    /** `__call__`: the answer is the same empty triple at every time. */
    function Call(t: real): (r: (Mat, Mat, Mat))
      ensures r.0 == [] && r.1 == [] && r.2 == []
    {
      ([], [], [])
    }
  }

  /** A pose trajectory that stays at one reference pose with zero velocity
      and zero acceleration. The reference pose can be replaced. */
  class ConstantSE3Trajectory {
    const name: string
    const dimension: nat := 6
    const vRef: Motion := ZeroMotion()
    const aRef: Motion := ZeroMotion()
    var mRef: SE3

    constructor (name: string, mRef: SE3)
      ensures this.name == name && this.mRef == mRef
    {
      this.name := name;
      this.mRef := mRef;
    }

    /** The `dim` property: a pose trajectory is 6-dimensional. */
    function Dim(): (d: nat)
      ensures d == 6
    {
      dimension
    }

    /** `setReference`: replaces the stored pose and nothing else. */
    method SetReference(m: SE3)
      modifies this`mRef
      ensures mRef == m
    {
      mRef := m;
    }

    /** `__call__`: the stored pose, zero velocity, zero acceleration; the
        time argument is ignored. */
    function Call(t: real): (r: (SE3, Motion, Motion))
      reads this
      ensures r.0 == mRef
      ensures r.1 == ZeroMotion() && r.2 == ZeroMotion()
    {
      (mRef, vRef, aRef)
    }
  }

  /** Every query of a constant trajectory gives the same answer, whatever
      the two times. */
  lemma ConstantTrajectoryIgnoresTime(traj: ConstantSE3Trajectory, t0: real, t1: real)
    ensures traj.Call(t0) == traj.Call(t1)
  {
  }

  /** A client of the two classes: the pose given at construction is served
      until `SetReference` replaces it, and the velocity, acceleration and
      dimension never change. */
  method ReferenceLifecycle(m0: SE3, m1: SE3, t0: real, t1: real)
  {
    var base := new RefTrajectory("base");
    assert base.Dim() == 0 && base.Call(t0) == ([], [], []);

    var traj := new ConstantSE3Trajectory("constant", m0);
    assert traj.Call(t0).0 == m0 && traj.Call(t1).0 == m0;
    traj.SetReference(m1);
    var (m, v, a) := traj.Call(t0);
    assert m == m1 && v == ZeroMotion() && a == ZeroMotion();
    assert traj.Dim() == 6 && traj.name == "constant";
  }

  /** A trajectory object of a vector space (a CoM trajectory of dimension
      3, a joint-posture trajectory): its `dim` and its `__call__`, which
      answers `(reference, velocity, acceleration)` at a time. Only the
      interface is used by the tasks; no concrete vector trajectory is part
      of this model. */
  datatype VecTrajectory = VecTrajectory(dim: nat, sample: real -> (Vec, Vec, Vec))
}
