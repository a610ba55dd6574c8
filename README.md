# HQP task layer and reference trajectories, in Dafny

This project models the task layer of a hierarchical quadratic-programming (HQP)
whole-body controller, together with the reference-trajectory objects the tasks
query. A task turns one control objective into the triple `(J, drift, a_des)`
that the solver stacks:

- `J` is a Jacobian;
- `drift` is the acceleration at zero joint acceleration;
- `a_des` is a desired acceleration, or a desired velocity for the kinematic
  variant.

Three tasks are modelled:

- `SE3Task` tracks the pose of one frame, with 6 rows (linear then angular).
- `CoMTask` tracks the center of mass, with 3 rows.
- `JointPostureTask` holds the `nv - 6` actuated joints at a reference posture.

Each task keeps a boolean mask of that native length. Every output is cut down to
the rows the mask keeps, using numpy boolean row selection. The shared `Task`
state holds the gains `kp` and `kv` and two gain modes. The exponential-decay mode
sets `kv = 2 sqrt(kp)`. The adaptive mode sets
`kp = (kmin - kmax) exp(-beta |e|) + kmax`.

Modules:

- `Numpy`: vectors, matrices and masks.
  - `Select` is boolean row selection, defined recursively.
  - `TrueIndices` is the independent description of which rows are kept, and the
    predicate `IsSelection` ties the two together.
  - `CountTrue` is `mask.sum()`.
  - `sqrt` and `exp` are uninterpreted parameters.
- `Pinocchio`: the rigid-body library the tasks call.
  - It contains `SE3` and `Motion` values and the group operations, which are
    uninterpreted functions.
  - `RobotWrapper` is a class whose kinematic answers are function-valued fields.
    They are the snapshot of the current control tick.
- `Trajectories`: the two small stateful trajectory classes, plus the interface
  of a vector trajectory.
- `Tasks`: the gain laws, the feedback laws and the three task classes.

Python inheritance (`SE3Task(Task)`, ...) becomes composition: each task owns a
`Task` object `base` that carries the gains. Arithmetic is over the mathematical
reals, not IEEE floats.

At zero error, `adaptativeGain` gives `(kmin - kmax) * exp(0) + kmax = kmin`
(`hqp/tasks.py:23`), as its docstring says (`hqp/tasks.py:18`); the model
proves this as `Tasks.AdaptativeGainAtZeroError`.

## Model

| member | source | states |
|---|---|---|
| Numpy.CountTrue | hqp/tasks.py:175-177 | `mask.sum()` is at most the length of the mask |
| Numpy.CountTrueIsCardinality | hqp/tasks.py:175-177 | `mask.sum()` equals the number of positions of the mask that hold `True` |
| Numpy.AllTrue | hqp/tasks.py:56 | `np.ones(n).astype(bool)` has length n and every entry `True` |
| Numpy.AsBool | hqp/tasks.py:62 | `astype(bool)` keeps the length and maps each entry to `True` exactly when it is nonzero |
| Numpy.TrueIndices | hqp/tasks.py:157 | the kept indices number `mask.sum()`, lie inside the mask and point at `True` bits |
| Numpy.TrueIndicesOrderedAndComplete | hqp/tasks.py:157 | the kept indices increase strictly and include every `True` position |
| Numpy.Select | hqp/tasks.py:202 | boolean row selection `xs[mask]` has `mask.sum()` rows (which rows: `Numpy.SelectKeepsMarkedRows`) |
| Numpy.SelectKeepsMarkedRows | hqp/tasks.py:157 | boolean selection `xs[mask]` has `mask.sum()` rows; its k-th row is the row of `xs` at the k-th `True` index, so the original order is kept |
| Numpy.SelectAllMarked | hqp/tasks.py:237 | selecting with a mask that keeps every row returns the input unchanged |
| Numpy.SumSquaresNonNegative | hqp/tasks.py:23 | the squared norm under `np.linalg.norm` is non-negative |
| Numpy.SumSquaresOfZero | hqp/tasks.py:23 | the squared norm of a zero error vector is zero |
| Numpy.Zeros | hqp/tasks.py:220 | `np.zeros([rows, cols])` has that shape and every entry 0 |
| Numpy.Identity | hqp/tasks.py:220 | `np.eye(n)` is n x n with 1 on the diagonal and 0 elsewhere |
| Numpy.CrossOrthogonal | hqp/tasks.py:140 | `np.cross(a, b)` is orthogonal to both a and b |
| Numpy.NormNonNegative | hqp/tasks.py:23 | `np.linalg.norm` of the error is non-negative wherever `sqrt` is |
| Pinocchio.IdentitySE3 | hqp/tasks.py:58 | `SE3.Identity()` has the 3 x 3 identity rotation and zero translation |
| Numpy.HStack | hqp/tasks.py:220 | each row of `np.hstack([a, b])` is the row of `a` followed by the row of `b`, and its length is the sum of the two |
| Pinocchio.ZeroMotion | trajectories.py:26-27 | `Motion.Zero()` has six zero components |
| Tasks.ExponentialDecayCriticallyDamps | hqp/tasks.py:6-13 | a conditional identity about `Tasks.ExponentialDecay`: wherever `sqrt(kp)` squares back to kp, kv = 2 sqrt(kp) squares to 4 kp; nothing more is proved about this law because `sqrt` is uninterpreted |
| Tasks.AdaptativeGain | hqp/tasks.py:15-24 | with kmin == kmax the gain is that value whatever the error (bounds and zero-error value: the two lemmas below) |
| Tasks.AdaptativeGainAtZeroError | hqp/tasks.py:15-24 | at zero position error the adaptive gain is kmin |
| Tasks.AdaptativeGainBetweenBounds | hqp/tasks.py:15-24 | with kmin <= kmax and beta >= 0, the adaptive gain stays within [kmin, kmax] |
| Tasks.BlendBetween | hqp/tasks.py:23 | `(kmin - kmax) e + kmax` lies between kmin and kmax for e in (0, 1] |
| Tasks.VelocityLaw | hqp/tasks.py:113 | each component of v_des is `-kp e[i] - kv de[i]` |
| Tasks.PdAcceleration | hqp/tasks.py:197 | each component of a_des is `a_ref[i] - (kp e[i] + kv de[i])` |
| Tasks.PdAccelerationAtRest | hqp/tasks.py:193-197 | with zero position and velocity error, a_des is the reference acceleration |
| Tasks.MaskCommutesWithPd | hqp/tasks.py:197-202 | masking the law's output equals applying the law to the masked inputs |
| Tasks.SE3Task.Drift | hqp/tasks.py:139-140 | the drift is the frame acceleration with `angular x linear` of the frame velocity added to its linear part, angular part unchanged |
| Tasks.Task.constructor | hqp/tasks.py:36-46 | a new task has kp = kv = 1, both gain modes off, kmin = 1, kmax = 10, beta = 5 |
| Tasks.SE3Task.constructor | hqp/tasks.py:49-58 | the mask keeps all 6 rows, `gMl` is the identity pose, and the gains are the defaults |
| Tasks.SE3Task.SetMask | hqp/tasks.py:60-62 | a mask of length 6 is stored as booleans; any other length fails and leaves the mask unchanged; nothing else changes |
| Tasks.SE3Task.PositionError | hqp/tasks.py:79-83 | the result is the masked selection of log(Mref^-1 M) |
| Tasks.SE3Task.VelocityError | hqp/tasks.py:85-91 | the frame rotation is copied into `gMl`; the result is the masked selection of the frame velocity minus `gMl.actInv(v_ref)` |
| Tasks.SE3Task.KinValue | hqp/tasks.py:93-121 | the effect on the gains (listed below the table) and the masked J and masked v_des |
| Tasks.SE3Task.DynValue | hqp/tasks.py:124-157 | the failure mode and the masked outputs (listed below the table) |
| Tasks.SE3Task.Jacobian | hqp/tasks.py:160-162 | stores the frame Jacobian and returns its masked rows |
| Tasks.CoMTask.constructor | hqp/tasks.py:168-173 | the mask keeps all 3 axes, and the gains are the defaults |
| Tasks.CoMTask.Create | hqp/tasks.py:168-173 | construction fails exactly when the trajectory's `dim` is not 3; otherwise it returns a task as the constructor does |
| Tasks.CoMTask.Dim | hqp/tasks.py:175-177 | `dim` is the number of axes the mask keeps |
| Tasks.CoMTask.SetMask | hqp/tasks.py:182-184 | a mask of length 3 is stored as booleans; any other length fails and leaves the mask unchanged |
| Tasks.CoMTask.DynValue | hqp/tasks.py:186-202 | the row count and the per-axis law (listed below the table) |
| Tasks.CoMTask.Jacobian | hqp/tasks.py:204-206 | stores Jcom(q) and returns its masked rows, which are the J that `DynValue` returns at the same q |
| Tasks.CoMTaskAtRest | hqp/tasks.py:193-202 | with the CoM on its reference position and velocity, a_des is the masked reference acceleration |
| Tasks.PostureJacobian | hqp/tasks.py:220 | the matrix is (nv-6) x nv; entry (i, j) is 1 when j == i + 6 and 0 otherwise, so the first 6 columns are zero and the rest is the identity |
| Tasks.JointPostureTask.constructor | hqp/tasks.py:211-220 | the mask keeps all nv - 6 joints; the Jacobian is `[0, I]` (zero block, then identity); the gains are the defaults |
| Tasks.JointPostureTask.Dim | hqp/tasks.py:222-224 | `dim` is the number of joints the mask keeps |
| Tasks.JointPostureTask.SetMask | hqp/tasks.py:226-228 | a mask of length nv - 6 is stored as booleans; any other length fails and leaves the mask unchanged |
| Tasks.JointPostureTask.DynValue | hqp/tasks.py:230-237 | with a full mask: J is `[0, I]` (zero block, then identity) for every q; the drift is zero; a_des is exactly the law `a_ref - (kp err + kv (v[6:] - v_ref))`, where err is the actuated part of `differentiate(q_ref, q)` |
| Trajectories.RefTrajectory.constructor | trajectories.py:8-10 | stores the name |
| Trajectories.RefTrajectory.Dim | trajectories.py:10-14 | `dim` is 0 |
| Trajectories.RefTrajectory.Call | trajectories.py:16-17 | every query answers three empty matrices |
| Trajectories.ConstantSE3Trajectory.constructor | trajectories.py:22-27 | stores the name and the reference pose |
| Trajectories.ConstantSE3Trajectory.Dim | trajectories.py:24-31 | `dim` is 6 |
| Trajectories.ConstantSE3Trajectory.SetReference | trajectories.py:33-34 | replaces the stored pose and nothing else |
| Trajectories.ConstantSE3Trajectory.Call | trajectories.py:36-37 | answers the stored pose with zero velocity and zero acceleration |
| Trajectories.ConstantTrajectoryIgnoresTime | trajectories.py:36-37 | the answer is the same at any two times |

Contracts that do not fit in one table cell:

- `Tasks.SE3Task.KinValue`:
  - kv is replaced by `2 sqrt(kp)` exactly when `expDecay` holds, using the kp from before the call;
  - kp is replaced by the adaptive gain of the pose error exactly when `adaptGain` holds;
  - otherwise both gains stay as they were;
  - the frame rotation is copied into `gMl`;
  - J is the masked frame Jacobian;
  - v_des is the masked selection of `-kp e - kv de`, computed with the updated gains.
- `Tasks.SE3Task.DynValue`:
  - the frame rotation is copied into `gMl`;
  - the call fails exactly when a gain mode is on, and it names the missing attribute;
  - otherwise J, drift and a_des are the masked selections of, respectively: the frame Jacobian; the frame acceleration with `omega x v` added to its linear part; and `gMl.actInv(a_ref) - (kp e + kv de)`.
- `Tasks.CoMTask.DynValue`:
  - J, drift and a_des each have `dim` rows;
  - J is the masked `Jcom(q)`;
  - drift is the masked `a_com`;
  - the k-th row of a_des is `a_ref[i] - (kp (p_com[i] - p_ref[i]) + kv (v_com[i] - v_ref[i]))`, where i is the k-th kept axis.

## Left out

- Pinocchio is not part of this model. This covers `se3.log`,
  `se3.differentiate`, the pose inverse and product, `actInv`, `framePosition`,
  `frameVelocity`, `frameAcceleration`, `frameJacobian`, `com` and `Jcom`. All of
  them are uninterpreted functions passed in.
- `np.sqrt` and `np.exp` are uninterpreted too; the lemmas about the gain laws
  list as preconditions the properties they need of these two functions.
- Tasks.SE3Task.KinValue: models only `local_frame=True`. The
  `local_frame=False` re-expression multiplies blocks of the outputs by the
  rotation matrix, and that floating-point matrix numerics is not modelled.
- Tasks.SE3Task.DynValue: models only `local_frame=True`, for the same reason.
  With a gain mode on, the code calls `self.exponentialDecay` and
  `self.adaptativeGain`, which are module functions and not methods of the class.
  The call therefore raises `AttributeError` after `gMl` has been updated. The
  model returns `Err(NoSuchAttribute(...))` at that point and leaves the gains
  unchanged.
- Trajectories.ConstantSE3Trajectory.Call: returns values, not objects. The
  code returns the same `_v_ref` and `_a_ref` Motion objects on every call
  (`trajectories.py:26-27, 37`), and `RefTrajectory.__call__` returns one matrix
  object three times (`trajectories.py:17`). A caller that mutated them in place
  would change later answers. No modelled task does, so this aliasing is not
  captured.
- Tasks.ExponentialDecay: carries no contract of its own. `sqrt` is
  uninterpreted, so its only property is the conditional identity
  `Tasks.ExponentialDecayCriticallyDamps`.
- Tasks.ErrorInSE3: carries no contract of its own. `se3.log` and the pose
  operations are uninterpreted, so the error is specified only through
  `Tasks.SE3Task.PositionError` and the task contracts that use it.
- The `drift.linear += ...` update works in place on the object that
  `frameAcceleration` returned. With pinocchio, that object may be shared with
  the robot data. The model computes a fresh value and does not capture this
  aliasing.
- Tasks.JointPostureTask.DynValue: requires a mask that keeps every joint. With a
  partial mask, the code subtracts a masked `v_ref` from an unmasked `v[6:]` and
  then applies the mask a second time. numpy's result then depends on shapes that
  do not line up.
- Tasks.CoMTask.DynValue: requires the trajectory to answer 3-vectors; numpy's
  broadcasting and its shape errors on other shapes are not modelled.
- Tasks.JointPostureTask.DynValue: requires its inputs to have matching shapes;
  numpy's broadcasting and its shape errors on other shapes are not modelled.
- Tasks.JointPostureTask.constructor: requires `nv >= 6`. With fewer
  coordinates, `np.ones(nv - 6)` raises an error in the code.
- Tasks.CoMTask.constructor: requires `dim == 3`. The code's assertion on
  mismatch is modelled by `Tasks.CoMTask.Create`.
- SE3Task has no `dim` property in the code, so none is modelled.
- The unusable members `refConfiguration` and `jointPostition` of `SE3Task` are
  left out. The first is a property that takes an argument; the second refers to
  undefined names. The unused `_M_ref` field is left out with them.
- The `refTrajectory`, `RefTrajectory` and `framePosition` accessors are left
  out, because they only return stored values.
- `AngularMomentumTask` is left out because it cannot run as written: it uses
  undefined names, and its initial mask length differs from the length its
  setter accepts.
- SE3Task's trajectory is modelled as a `ConstantSE3Trajectory`. That is the
  only pose trajectory in the repository.
- CoM and posture trajectories are abstract `VecTrajectory` values, which give a
  dimension and a sampling function.
- Gains, masks and vectors are reals; Python integer defaults such as
  `kp = 1` become `1.0`.
- `setup.py` is packaging metadata and is not part of this model.
- `update_geometry` of `CoMTask.jacobian` and `dyn_value` is ignored by the
  code, and so also by the model.
