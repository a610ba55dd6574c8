/** The interface the task layer uses from the rigid-body library: poses
    (elements of SE(3)), spatial motions, the group operations on poses, and
    the robot wrapper that answers kinematic and dynamic queries. None of the
    library's numerics is modelled: every query is an uninterpreted function
    supplied from outside. */
module Pinocchio {
  import opened Numpy

  /** A rigid-body pose: rotation matrix and translation. */
  datatype SE3 = SE3(rotation: Mat, translation: Vec)

  /** `SE3.Identity()`. */
  function IdentitySE3(): (m: SE3)
    ensures |m.rotation| == 3 && forall i :: 0 <= i < 3 ==> |m.rotation[i]| == 3
    ensures forall i, j :: 0 <= i < 3 && 0 <= j < 3 ==> m.rotation[i][j] == if i == j then 1.0 else 0.0
    ensures m.translation == [0.0, 0.0, 0.0]
  {
    SE3(Identity(3), [0.0, 0.0, 0.0])
  }

  /** A spatial velocity or acceleration: linear part and angular part. */
  datatype Motion = Motion(linear: Vec3, angular: Vec3)
  {
    /** `Motion.vector`: the linear part stacked on the angular part. */
    function Vector(): (v: Vec)
      ensures |v| == 6
      ensures v[..3] == linear && v[3..] == angular
    {
      linear + angular
    }
  }

  /** `Motion.Zero()`. */
  function ZeroMotion(): (m: Motion)
    ensures forall i :: 0 <= i < 6 ==> m.Vector()[i] == 0.0
  {
    Motion([0.0, 0.0, 0.0], [0.0, 0.0, 0.0])
  }

  /** The group operations the tasks call on poses: `se3.log`, pose
      composition `A * B`, `A.inverse()`, and `M.actInv(m)`, which expresses a
      motion given in the world frame in the frame of `M`. */
  datatype SE3Algebra = SE3Algebra(
    log: SE3 -> Motion,
    compose: (SE3, SE3) -> SE3,
    inverse: SE3 -> SE3,
    actInv: (SE3, Motion) -> Motion)

  /** The robot wrapper shared by all tasks. Upstream code sets the robot's
      configuration and velocity once per control tick; the answers below are
      the snapshot for the current tick, so they are fields that the owner of
      the robot may replace between ticks, and a task only reads them.
      `differentiate(q0, q1)` is `se3.differentiate(model, q0, q1)`. */
  class RobotWrapper {
    const nv: nat
    var framePosition: nat -> SE3
    var frameVelocity: nat -> Motion
    var frameAcceleration: nat -> Motion
    var frameJacobian: (Vec, nat, bool) -> Rows6
    var com: (Vec, Vec, Vec) -> (Vec3, Vec3, Vec3)
    var jcom: Vec -> Rows3
    var differentiate: (Vec, Vec) -> Vec

    constructor (nv: nat,
                 framePosition: nat -> SE3,
                 frameVelocity: nat -> Motion,
                 frameAcceleration: nat -> Motion,
                 frameJacobian: (Vec, nat, bool) -> Rows6,
                 com: (Vec, Vec, Vec) -> (Vec3, Vec3, Vec3),
                 jcom: Vec -> Rows3,
                 differentiate: (Vec, Vec) -> Vec)
      ensures this.nv == nv
      ensures this.framePosition == framePosition && this.frameVelocity == frameVelocity
      ensures this.frameAcceleration == frameAcceleration && this.frameJacobian == frameJacobian
      ensures this.com == com && this.jcom == jcom && this.differentiate == differentiate
    {
      this.nv := nv;
      this.framePosition := framePosition;
      this.frameVelocity := frameVelocity;
      this.frameAcceleration := frameAcceleration;
      this.frameJacobian := frameJacobian;
      this.com := com;
      this.jcom := jcom;
      this.differentiate := differentiate;
    }
  }
}
