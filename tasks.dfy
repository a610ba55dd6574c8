/** The task layer: every task turns a control objective into the triple
    (J, drift, a_des) that a hierarchical solver stacks. Modelled here are the
    gain laws, the shared gain state of every task, and the frame-pose
    (SE3Task), center-of-mass (CoMTask) and reduced joint-posture
    (JointPostureTask) tasks with their masks.

    Python's class inheritance (SE3Task(Task), ...) becomes composition: each
    concrete task owns a `Task` object, `base`, that carries the gains. */
module Tasks {
  import opened Numpy
  import opened Pinocchio
  import opened Trajectories

  /** The exceptions the modelled code raises. */
  datatype TaskError =
    | MaskLengthMismatch(expected: nat, actual: nat)            // AssertionError of a mask setter
    | TrajectoryDimensionMismatch(expected: nat, actual: nat)   // AssertionError of CoMTask's constructor
    | NoSuchAttribute(name: string)                             // AttributeError

  datatype Outcome = Pass | Fail(error: TaskError)

  datatype Result<T> = Ok(value: T) | Err(error: TaskError)

  /** What a task hands to the solver: Jacobian, drift, desired acceleration. */
  datatype TaskOutput = TaskOutput(J: Mat, drift: Vec, aDes: Vec)

  // ---------------------------------------------------------------------
  // Reference behaviours

  /** `exponentialDecay`: the derivative gain that critically damps a
      proportional gain, 2 * sqrt(kp). */
  function ExponentialDecay(tr: Transcendentals, kp: real): real
  {
    2.0 * tr.sqrt(kp)
  }

  /** Wherever `sqrt` is exact at kp, kv * kv == 4 * kp. */
  lemma ExponentialDecayCriticallyDamps(tr: Transcendentals, kp: real)
    requires tr.sqrt(kp) * tr.sqrt(kp) == kp
    ensures ExponentialDecay(tr, kp) * ExponentialDecay(tr, kp) == 4.0 * kp
  {
  }

  /** `adaptativeGain`: kmax far from the target, relaxing towards kmin as
      the error vanishes, with `beta` setting how fast. */
  function AdaptativeGain(tr: Transcendentals, pError: Vec, kmin: real, kmax: real, beta: real): (kp: real)
    ensures kmin == kmax ==> kp == kmax
  {
    Blend(kmin, kmax, tr.exp(DecayExponent(beta, Norm(tr, pError))))
  }

  /** The argument of exp in `adaptativeGain`: -beta times the error norm. */
  function DecayExponent(beta: real, n: real): real
  {
    -beta * n
  }

  /** (kmin - kmax) e + kmax: kmin at e == 1, kmax at e == 0. */
  function Blend(kmin: real, kmax: real, e: real): real
  {
    (kmin - kmax) * e + kmax
  }

  /** At zero error (where sqrt(0) == 0 and exp(0) == 1) the adaptive gain is
      kmin. */
  lemma AdaptativeGainAtZeroError(tr: Transcendentals, pError: Vec, kmin: real, kmax: real, beta: real)
    requires forall i :: 0 <= i < |pError| ==> pError[i] == 0.0
    requires tr.sqrt(0.0) == 0.0 && tr.exp(0.0) == 1.0
    ensures AdaptativeGain(tr, pError, kmin, kmax, beta) == kmin
  {
    SumSquaresOfZero(pError);
  }

  /** When exp maps non-positive arguments into (0, 1] and sqrt is
      non-negative on non-negative arguments, a non-negative `beta` keeps the
      adaptive gain between kmin and kmax. */
  lemma AdaptativeGainBetweenBounds(tr: Transcendentals, pError: Vec, kmin: real, kmax: real, beta: real)
    requires kmin <= kmax && 0.0 <= beta
    requires forall x :: 0.0 <= x ==> 0.0 <= tr.sqrt(x)
    requires forall x :: x <= 0.0 ==> 0.0 < tr.exp(x) <= 1.0
    ensures kmin <= AdaptativeGain(tr, pError, kmin, kmax, beta) <= kmax
  {
    var n := Norm(tr, pError);
    NormNonNegative(tr, pError);
    MulNonNegative(beta, n);
    assert DecayExponent(beta, n) <= 0.0;
    BlendBetween(kmin, kmax, tr.exp(DecayExponent(beta, n)));
  }

  lemma MulNonNegative(a: real, b: real)
    requires 0.0 <= a && 0.0 <= b
    ensures 0.0 <= a * b
  {
  }

  /** (kmin - kmax) e + kmax lies between kmin and kmax for e in (0, 1]. */
  lemma BlendBetween(kmin: real, kmax: real, e: real)
    requires kmin <= kmax && 0.0 < e <= 1.0
    ensures kmin <= Blend(kmin, kmax, e) <= kmax
  {
    var d := kmax - kmin;
    MulNonNegative(d, e);
    MulNonNegative(d, 1.0 - e);
    assert d * (1.0 - e) == d - d * e;
    assert (kmin - kmax) * e == -(d * e);
  }

  /** `errorInSE3`: log(Mdes^-1 * M), the tangent-space error of M against
      Mdes. */
  function ErrorInSE3(alg: SE3Algebra, m: SE3, mDes: SE3): Motion
  {
    alg.log(alg.compose(alg.inverse(mDes), m))
  }

  // ---------------------------------------------------------------------
  // Feedback laws

  /** The kinematic law of `SE3Task.kin_value`: v_des = -kp e - kv de. */
  function VelocityLaw(kp: real, kv: real, pError: Vec, vError: Vec): (r: Vec)
    requires |pError| == |vError|
    ensures |r| == |pError|
    ensures forall i :: 0 <= i < |r| ==> r[i] == -kp * pError[i] - kv * vError[i]
  {
    Sub(Scale(-kp, pError), Scale(kv, vError))
  }

  /** The proportional-derivative acceleration law shared by the dynamic
      tasks: a_des = a_ref - (kp e + kv de), component by component. */
  function PdAcceleration(aRef: Vec, kp: real, kv: real, pError: Vec, vError: Vec): (r: Vec)
    requires |aRef| == |pError| == |vError|
    ensures |r| == |aRef|
    ensures forall i :: 0 <= i < |r| ==> r[i] == aRef[i] - (kp * pError[i] + kv * vError[i])
  {
    Sub(aRef, Add(Scale(kp, pError), Scale(kv, vError)))
  }

  /** With no position or velocity error the desired acceleration is the
      feed-forward reference acceleration. */
  lemma PdAccelerationAtRest(aRef: Vec, kp: real, kv: real, pError: Vec, vError: Vec)
    requires |aRef| == |pError| == |vError|
    requires forall i :: 0 <= i < |pError| ==> pError[i] == 0.0 && vError[i] == 0.0
    ensures PdAcceleration(aRef, kp, kv, pError, vError) == aRef
  {
    var r := PdAcceleration(aRef, kp, kv, pError, vError);
    assert forall i :: 0 <= i < |r| ==> r[i] == aRef[i];
  }

  /** Masking commutes with the feedback law: applying the law and then the
      mask equals applying the law to masked inputs. */
  lemma {:induction false} MaskCommutesWithPd(aRef: Vec, kp: real, kv: real, pError: Vec, vError: Vec, mask: seq<bool>)
    requires |aRef| == |pError| == |vError| == |mask|
    ensures Select(PdAcceleration(aRef, kp, kv, pError, vError), mask)
         == PdAcceleration(Select(aRef, mask), kp, kv, Select(pError, mask), Select(vError, mask))
  {
    var full := PdAcceleration(aRef, kp, kv, pError, vError);
    var lhs := Select(full, mask);
    var rhs := PdAcceleration(Select(aRef, mask), kp, kv, Select(pError, mask), Select(vError, mask));
    SelectKeepsMarkedRows(full, mask);
    SelectKeepsMarkedRows(aRef, mask);
    SelectKeepsMarkedRows(pError, mask);
    SelectKeepsMarkedRows(vError, mask);
    forall k | 0 <= k < |lhs|
      ensures lhs[k] == rhs[k]
    {
      var i := TrueIndices(mask)[k];
      calc {
        lhs[k];
        full[i];
        aRef[i] - (kp * pError[i] + kv * vError[i]);
        Select(aRef, mask)[k] - (kp * Select(pError, mask)[k] + kv * Select(vError, mask)[k]);
        rhs[k];
      }
    }
  }

  // ---------------------------------------------------------------------
  // Shared task state

  /** The state every task inherits: the collaborator it queries, its name,
      the gains and the gain-adaptation settings. */
  class Task {
    const robot: RobotWrapper
    const name: string
    var kp: real
    var kv: real
    var expDecay: bool
    var adaptGain: bool
    var kmin: real
    var kmax: real
    var beta: real

    /** The values `Task.__init__` gives. */
    predicate HasDefaultGains()
      reads this
    {
      kp == 1.0 && kv == 1.0 && !expDecay && !adaptGain && kmin == 1.0 && kmax == 10.0 && beta == 5.0
    }

    constructor (robot: RobotWrapper, name: string)
      ensures this.robot == robot && this.name == name
      ensures HasDefaultGains()
    {
      this.robot := robot;
      this.name := name;
      kp, kv := 1.0, 1.0;
      expDecay, adaptGain := false, false;
      kmin, kmax, beta := 1.0, 10.0, 5.0;
    }
  }

  // ---------------------------------------------------------------------
  // Frame-pose task

  /** Tracks the pose of one frame of the robot. Its native dimension is 6
      (linear then angular); the mask keeps a subset of those rows. */
  class SE3Task {
    const base: Task
    const frameId: nat
    const refTrajectory: ConstantSE3Trajectory
    var mask: seq<bool>
    /** The local-to-world transform; each evaluation copies the frame's
        current rotation into it. */
    var gMl: SE3
    /** The unmasked Jacobian last fetched by `Jacobian`. The source leaves
        it unset until then; no member reads it, so the model starts it as
        the empty matrix. */
    var jacobianValue: Mat

    predicate Valid()
      reads this
    {
      |mask| == 6
    }

    constructor (robot: RobotWrapper, frameId: nat, refTrajectory: ConstantSE3Trajectory, name: string)
      ensures Valid() && mask == AllTrue(6) && gMl == IdentitySE3()
      ensures fresh(base) && base.robot == robot && base.name == name && base.HasDefaultGains()
      ensures this.frameId == frameId && this.refTrajectory == refTrajectory
    {
      base := new Task(robot, name);
      this.frameId := frameId;
      this.refTrajectory := refTrajectory;
      mask := AllTrue(6);
      gMl := IdentitySE3();
      jacobianValue := [];
    }

    /** `mask(m)`: a mask of length 6 is stored as booleans; any other
        length is refused and the mask stays as it was. */
    method SetMask(m: seq<real>) returns (r: Outcome)
      requires Valid()
      modifies this`mask
      ensures Valid()
      ensures |m| == 6 ==> r == Pass && mask == AsBool(m)
      ensures |m| != 6 ==> r == Fail(MaskLengthMismatch(6, |m|)) && mask == old(mask)
    {
      if |m| != 6 {
        return Fail(MaskLengthMismatch(6, |m|));
      }
      mask := AsBool(m);
      r := Pass;
    }

    /** The unmasked pose error of the frame against the reference at `t`. */
    function PoseError(alg: SE3Algebra, t: real): (e: Vec)
      reads this, base.robot, refTrajectory
      ensures |e| == 6
    {
      ErrorInSE3(alg, base.robot.framePosition(frameId), refTrajectory.Call(t).0).Vector()
    }

    /** The unmasked velocity error: the frame velocity minus the reference
        velocity expressed in the frame through the current `gMl`. */
    function MotionError(alg: SE3Algebra, t: real): (e: Vec)
      reads this, base.robot, refTrajectory
      ensures |e| == 6
    {
      Sub(base.robot.frameVelocity(frameId).Vector(), alg.actInv(gMl, refTrajectory.Call(t).1).Vector())
    }

    /** The frame's bias acceleration, with the `omega x v` correction added
        to its linear part. */
    function Drift(): (d: Vec)
      reads base.robot
      ensures |d| == 6
      ensures var a := base.robot.frameAcceleration(frameId);
              var w := base.robot.frameVelocity(frameId);
              (forall i :: 0 <= i < 3 ==> d[i] == a.linear[i] + Cross(w.angular, w.linear)[i])
              && d[3..] == a.angular
    {
      var a := base.robot.frameAcceleration(frameId);
      var w := base.robot.frameVelocity(frameId);
      Motion(Add(a.linear, Cross(w.angular, w.linear)), a.angular).Vector()
    }

    /** `positionError(t)`: the masked pose error. */
    function PositionError(alg: SE3Algebra, t: real): (e: Vec)
      requires Valid()
      reads this, base.robot, refTrajectory
      ensures IsSelection(e, PoseError(alg, t), mask)
    {
      SelectKeepsMarkedRows(PoseError(alg, t), mask);
      Select(PoseError(alg, t), mask)
    }

    /** `velocityError(t)`: copies the frame rotation into `gMl`, then
        returns the masked velocity error. */
    method VelocityError(alg: SE3Algebra, t: real) returns (e: Vec)
      requires Valid()
      modifies this`gMl
      ensures Valid()
      ensures gMl == old(gMl).(rotation := base.robot.framePosition(frameId).rotation)
      ensures IsSelection(e, MotionError(alg, t), mask)
    {
      gMl := gMl.(rotation := base.robot.framePosition(frameId).rotation);
      e := Select(MotionError(alg, t), mask);
      SelectKeepsMarkedRows(MotionError(alg, t), mask);
    }

    /** `kin_value(t, q)` with the frame's local convention (the default):
        copies the frame rotation into `gMl`, applies the gain modes (kv is
        derived from the kp in force before adaptGain replaces kp), and
        returns the masked Jacobian and the masked desired velocity computed
        with the updated gains. */
    method KinValue(t: real, q: Vec, alg: SE3Algebra, tr: Transcendentals) returns (J: Mat, vDes: Vec)
      requires Valid()
      modifies this`gMl, base`kp, base`kv
      ensures Valid()
      ensures gMl == old(gMl).(rotation := base.robot.framePosition(frameId).rotation)
      ensures base.kv == if base.expDecay then ExponentialDecay(tr, old(base.kp)) else old(base.kv)
      ensures base.kp == if base.adaptGain
                         then AdaptativeGain(tr, PoseError(alg, t), base.kmin, base.kmax, base.beta)
                         else old(base.kp)
      ensures IsSelection(J, base.robot.frameJacobian(q, frameId, false), mask)
      ensures IsSelection(vDes, VelocityLaw(base.kp, base.kv, PoseError(alg, t), MotionError(alg, t)), mask)
    {
      gMl := gMl.(rotation := base.robot.framePosition(frameId).rotation);
      var pError := PoseError(alg, t);
      var vError := MotionError(alg, t);
      if base.expDecay {
        base.kv := ExponentialDecay(tr, base.kp);
      }
      if base.adaptGain {
        base.kp := AdaptativeGain(tr, pError, base.kmin, base.kmax, base.beta);
      }
      var vFull := VelocityLaw(base.kp, base.kv, pError, vError);
      var jFull := base.robot.frameJacobian(q, frameId, false);
      J, vDes := Select(jFull, mask), Select(vFull, mask);
      SelectKeepsMarkedRows(jFull, mask);
      SelectKeepsMarkedRows(vFull, mask);
    }

    /** `dyn_value(t, q, v)` with the frame's local convention. It copies the
        frame rotation into `gMl`; with a gain mode enabled it then fails
        (it calls gain laws as methods that the class does not have) and
        leaves the gains alone; otherwise it returns the masked Jacobian,
        drift and desired acceleration. */
    method DynValue(t: real, q: Vec, v: Vec, alg: SE3Algebra) returns (r: Result<TaskOutput>)
      requires Valid()
      modifies this`gMl
      ensures Valid()
      ensures gMl == old(gMl).(rotation := base.robot.framePosition(frameId).rotation)
      ensures r.Err? <==> base.expDecay || base.adaptGain
      ensures base.expDecay ==> r == Err(NoSuchAttribute("exponentialDecay"))
      ensures !base.expDecay && base.adaptGain ==> r == Err(NoSuchAttribute("adaptativeGain"))
      ensures r.Ok? ==> IsSelection(r.value.J, base.robot.frameJacobian(q, frameId, false), mask)
      ensures r.Ok? ==> IsSelection(r.value.drift, Drift(), mask)
      ensures r.Ok? ==> IsSelection(r.value.aDes,
                                    PdAcceleration(alg.actInv(gMl, refTrajectory.Call(t).2).Vector(),
                                                   base.kp, base.kv, PoseError(alg, t), MotionError(alg, t)),
                                    mask)
    {
      gMl := gMl.(rotation := base.robot.framePosition(frameId).rotation);
      var pError := PoseError(alg, t);
      var vError := MotionError(alg, t);
      var drift := Drift();
      if base.expDecay {
        return Err(NoSuchAttribute("exponentialDecay"));
      }
      if base.adaptGain {
        return Err(NoSuchAttribute("adaptativeGain"));
      }
      var aFull := PdAcceleration(alg.actInv(gMl, refTrajectory.Call(t).2).Vector(), base.kp, base.kv, pError, vError);
      var jFull := base.robot.frameJacobian(q, frameId, false);
      SelectKeepsMarkedRows(jFull, mask);
      SelectKeepsMarkedRows(drift, mask);
      SelectKeepsMarkedRows(aFull, mask);
      r := Ok(TaskOutput(Select(jFull, mask), Select(drift, mask), Select(aFull, mask)));
    }

    /** `jacobian(q, update_geometry)`: fetches and keeps the frame
        Jacobian, and returns its masked rows. */
    method Jacobian(q: Vec, updateGeometry: bool) returns (J: Mat)
      requires Valid()
      modifies this`jacobianValue
      ensures Valid()
      ensures jacobianValue == base.robot.frameJacobian(q, frameId, updateGeometry)
      ensures IsSelection(J, jacobianValue, mask)
    {
      jacobianValue := base.robot.frameJacobian(q, frameId, updateGeometry);
      J := Select(jacobianValue, mask);
      SelectKeepsMarkedRows(jacobianValue, mask);
    }
  }

  // ---------------------------------------------------------------------
  // Center-of-mass task

  /** Tracks the robot's center of mass along the three axes; the mask keeps
      a subset of the axes. */
  class CoMTask {
    const base: Task
    const refTrajectory: VecTrajectory
    var mask: seq<bool>
    /** The unmasked CoM Jacobian last fetched by `Jacobian`; unset in the
        source until then, the empty matrix here. */
    var jacobianValue: Mat

    predicate Valid()
      reads this
    {
      |mask| == 3
    }

    constructor (robot: RobotWrapper, refTrajectory: VecTrajectory, name: string)
      requires refTrajectory.dim == 3
      ensures Valid() && mask == AllTrue(3)
      ensures fresh(base) && base.robot == robot && base.name == name && base.HasDefaultGains()
      ensures this.refTrajectory == refTrajectory
    {
      base := new Task(robot, name);
      this.refTrajectory := refTrajectory;
      mask := AllTrue(3);
      jacobianValue := [];
    }

    /** `CoMTask(robot, ref_trajectory, name)`: refuses a trajectory whose
        `dim` is not 3. */
    static method Create(robot: RobotWrapper, refTrajectory: VecTrajectory, name: string) returns (r: Result<CoMTask>)
      ensures r.Err? <==> refTrajectory.dim != 3
      ensures r.Err? ==> r.error == TrajectoryDimensionMismatch(3, refTrajectory.dim)
      ensures r.Ok? ==> fresh(r.value) && fresh(r.value.base) && r.value.Valid() && r.value.mask == AllTrue(3)
      ensures r.Ok? ==> r.value.base.robot == robot && r.value.base.HasDefaultGains()
      ensures r.Ok? ==> r.value.refTrajectory == refTrajectory && r.value.base.name == name
    {
      if refTrajectory.dim != 3 {
        return Err(TrajectoryDimensionMismatch(3, refTrajectory.dim));
      }
      var task := new CoMTask(robot, refTrajectory, name);
      r := Ok(task);
    }

    /** The `dim` property: the number of axes the mask keeps. */
    function Dim(): (d: nat)
      reads this
      ensures d == |MarkedSet(mask)|
    {
      CountTrueIsCardinality(mask);
      CountTrue(mask)
    }

    /** `mask(m)`: a mask of length 3 is stored as booleans; any other
        length is refused and the mask stays as it was. */
    method SetMask(m: seq<real>) returns (r: Outcome)
      requires Valid()
      modifies this`mask
      ensures Valid()
      ensures |m| == 3 ==> r == Pass && mask == AsBool(m)
      ensures |m| != 3 ==> r == Fail(MaskLengthMismatch(3, |m|)) && mask == old(mask)
    {
      if |m| != 3 {
        return Fail(MaskLengthMismatch(3, |m|));
      }
      mask := AsBool(m);
      r := Pass;
    }

    /** The reference trajectory answers 3-vectors at `t`. */
    predicate ReferenceShaped(t: real)
    {
      var (p, v, a) := refTrajectory.sample(t);
      |p| == 3 && |v| == 3 && |a| == 3
    }

    /** `dyn_value(t, q, v)`: each kept axis i gives
        J row = Jcom(q) row i, drift = CoM acceleration at zero joint
        acceleration, and a_des = a_ref - (kp (p_com - p_ref) + kv (v_com - v_ref)),
        all three with `Dim()` rows. */
    function DynValue(t: real, q: Vec, v: Vec): (r: TaskOutput)
      requires Valid() && ReferenceShaped(t)
      reads this, base, base.robot
      ensures |r.J| == Dim() && |r.drift| == Dim() && |r.aDes| == Dim()
      ensures IsSelection(r.J, base.robot.jcom(q), mask)
      ensures IsSelection(r.drift, base.robot.com(q, v, Scale(0.0, v)).2, mask)
      ensures forall k :: 0 <= k < |r.aDes| ==>
                var i := TrueIndices(mask)[k];
                var (pCom, vCom, _) := base.robot.com(q, v, Scale(0.0, v));
                var (pRef, vRef, aRef) := refTrajectory.sample(t);
                r.aDes[k] == aRef[i] - (base.kp * (pCom[i] - pRef[i]) + base.kv * (vCom[i] - vRef[i]))
    {
      var (pCom, vCom, aCom) := base.robot.com(q, v, Scale(0.0, v));
      var (pRef, vRef, aRef) := refTrajectory.sample(t);
      var pError := Sub(pCom, pRef);
      var vError := Sub(vCom, vRef);
      var drift := aCom;
      var aDes := PdAcceleration(aRef, base.kp, base.kv, pError, vError);
      var J := base.robot.jcom(q);
      SelectKeepsMarkedRows(J, mask);
      SelectKeepsMarkedRows(drift, mask);
      SelectKeepsMarkedRows(aDes, mask);
      TaskOutput(Select(J, mask), Select(drift, mask), Select(aDes, mask))
    }

    /** `jacobian(q)`: fetches and keeps the CoM Jacobian and returns its
        masked rows, the same rows `DynValue` returns at that `q`. */
    method Jacobian(q: Vec) returns (J: Mat)
      requires Valid()
      modifies this`jacobianValue
      ensures Valid()
      ensures jacobianValue == base.robot.jcom(q)
      ensures IsSelection(J, jacobianValue, mask)
      ensures forall t, v :: ReferenceShaped(t) ==> DynValue(t, q, v).J == J
    {
      jacobianValue := base.robot.jcom(q);
      J := Select(jacobianValue, mask);
      SelectKeepsMarkedRows(jacobianValue, mask);
    }
  }

  /** With the CoM on its reference position and velocity, the task asks for
      exactly the masked reference acceleration. */
  lemma CoMTaskAtRest(task: CoMTask, t: real, q: Vec, v: Vec)
    requires task.Valid() && task.ReferenceShaped(t)
    requires task.base.robot.com(q, v, Scale(0.0, v)).0 == task.refTrajectory.sample(t).0
    requires task.base.robot.com(q, v, Scale(0.0, v)).1 == task.refTrajectory.sample(t).1
    ensures task.DynValue(t, q, v).aDes == Select(task.refTrajectory.sample(t).2, task.mask)
  {
    var r := task.DynValue(t, q, v);
    var (pCom, vCom, _) := task.base.robot.com(q, v, Scale(0.0, v));
    var (pRef, vRef, aRef) := task.refTrajectory.sample(t);
    var kept := Select(aRef, task.mask);
    SelectKeepsMarkedRows(aRef, task.mask);
    forall k | 0 <= k < |r.aDes|
      ensures r.aDes[k] == kept[k]
    {
      var i := TrueIndices(task.mask)[k];
      assert pCom[i] - pRef[i] == 0.0 && vCom[i] - vRef[i] == 0.0;
      assert r.aDes[k] == aRef[i] - (task.base.kp * (pCom[i] - pRef[i]) + task.base.kv * (vCom[i] - vRef[i]));
    }
  }

  /** A CoM task masked to the x and y axes contributes two rows of each
      output, whatever its native dimension of 3. */
  method CoMPlanarMask(task: CoMTask, t: real, q: Vec, v: Vec)
    requires task.Valid() && task.ReferenceShaped(t)
    modifies task
  {
    var ok := task.SetMask([1.0, 1.0, 0.0]);
    assert ok == Pass && task.mask == [true, true, false];
    assert CountTrue([true]) == 1 && CountTrue([true, true]) == 2;
    assert [true, true, false][..2] == [true, true];
    assert task.Dim() == 2;
    var out := task.DynValue(t, q, v);
    assert |out.J| == 2 && |out.drift| == 2 && |out.aDes| == 2;
  }

  // ---------------------------------------------------------------------
  // Reduced joint-posture task

  /** The joint-posture Jacobian of a robot with `nv` velocity coordinates,
      `[0 | I]`: zero over the 6 floating-base columns, identity over the
      nv - 6 actuated ones. */
  function PostureJacobian(nv: nat): (J: Mat)
    requires nv >= 6
    ensures |J| == nv - 6
    ensures forall i :: 0 <= i < nv - 6 ==> |J[i]| == nv
    ensures forall i, j :: 0 <= i < nv - 6 && 0 <= j < nv ==> J[i][j] == if j == i + 6 then 1.0 else 0.0
  {
    HStack(Zeros(nv - 6, 6), Identity(nv - 6))
  }

  /** Holds the actuated joints (all but the 6 floating-base coordinates) at
      a reference posture. */
  class JointPostureTask {
    const base: Task
    const refTrajectory: VecTrajectory
    const jacobianMatrix: Mat
    var mask: seq<bool>

    predicate Valid()
      reads this
    {
      base.robot.nv >= 6 && |mask| == base.robot.nv - 6 && jacobianMatrix == PostureJacobian(base.robot.nv)
    }

    constructor (robot: RobotWrapper, refTrajectory: VecTrajectory, name: string)
      requires robot.nv >= 6
      ensures Valid() && mask == AllTrue(robot.nv - 6)
      ensures fresh(base) && base.robot == robot && base.name == name && base.HasDefaultGains()
      ensures this.refTrajectory == refTrajectory
    {
      base := new Task(robot, name);
      mask := AllTrue(robot.nv - 6);
      this.refTrajectory := refTrajectory;
      jacobianMatrix := PostureJacobian(robot.nv);
    }

    /** The `dim` property: the number of joints the mask keeps. */
    function Dim(): (d: nat)
      reads this
      ensures d == |MarkedSet(mask)|
    {
      CountTrueIsCardinality(mask);
      CountTrue(mask)
    }

    /** `mask(m)`: a mask of length nv - 6 is stored as booleans; any other
        length is refused and the mask stays as it was. */
    method SetMask(m: seq<real>) returns (r: Outcome)
      requires Valid()
      modifies this`mask
      ensures Valid()
      ensures |m| == base.robot.nv - 6 ==> r == Pass && mask == AsBool(m)
      ensures |m| != base.robot.nv - 6 ==> r == Fail(MaskLengthMismatch(base.robot.nv - 6, |m|)) && mask == old(mask)
    {
      if |m| != base.robot.nv - 6 {
        return Fail(MaskLengthMismatch(base.robot.nv - 6, |m|));
      }
      mask := AsBool(m);
      r := Pass;
    }

    /** The mask keeps every joint. */
    predicate FullMask()
      reads this
    {
      forall i :: 0 <= i < |mask| ==> mask[i]
    }

    /** The shapes `dyn_value` needs from its inputs: v has nv entries, the
        reference velocity and acceleration have nv - 6, and differentiating
        the reference configuration against q gives nv entries. */
    predicate InputsShaped(t: real, q: Vec, v: Vec)
      reads this, base.robot
    {
      var ref := refTrajectory.sample(t);
      |v| == base.robot.nv && |ref.1| == |mask| && |ref.2| == |mask|
      && |base.robot.differentiate(ref.0, q)| == base.robot.nv
    }

    /** `dyn_value(t, q, v)` with a mask that keeps every joint: J is
        `[0 | I]` whatever q, the drift is zero, and a_des is the PD law
        a_ref - (kp err + kv derr) on the actuated joints, where err is the
        actuated part of differentiate(q_ref, q) and derr = v[6:] - v_ref. */
    function DynValue(t: real, q: Vec, v: Vec): (r: TaskOutput)
      requires Valid() && FullMask() && InputsShaped(t, q, v)
      reads this, base, base.robot
      ensures |r.J| == Dim() && |r.drift| == Dim() && |r.aDes| == Dim()
      ensures r.J == PostureJacobian(base.robot.nv)
      ensures forall i :: 0 <= i < |r.drift| ==> r.drift[i] == 0.0
      ensures var ref := refTrajectory.sample(t);
              r.aDes == PdAcceleration(ref.2, base.kp, base.kv,
                                       base.robot.differentiate(ref.0, q)[6..], Sub(v[6..], ref.1))
    {
      var ref := refTrajectory.sample(t);
      var err := base.robot.differentiate(ref.0, q)[6..];
      var vRef := Select(ref.1, mask);
      var aRef := Select(ref.2, mask);
      SelectAllMarked(ref.1, mask);
      SelectAllMarked(ref.2, mask);
      var dErr := Sub(v[6..], vRef);
      var aDes := PdAcceleration(aRef, base.kp, base.kv, err, dErr);
      var drift := Scale(0.0, aDes);
      SelectAllMarked(jacobianMatrix, mask);
      SelectAllMarked(drift, mask);
      SelectAllMarked(aDes, mask);
      TaskOutput(Select(jacobianMatrix, mask), Select(drift, mask), Select(aDes, mask))
    }
  }
}
