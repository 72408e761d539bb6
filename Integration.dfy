/**
 * IMU pre-integration between two image frames (VINS-Mono's IntegrationBase):
 * midpoint integration of the relative position, rotation and velocity, the
 * first-order propagation of their Jacobian with respect to the biases and of
 * their covariance, and the bias-corrected residual against two body states.
 *
 * The pure part (this first half) describes one integration step and the replay
 * of a buffer of samples as functions of a value snapshot `Preint`; the class
 * `IntegrationBase` further down holds that snapshot in mutable fields and is
 * proved to keep it equal to the replay of its buffers.
 */
module Integration {
  import opened Algebra

  // ---------------------------------------------------------------------------
  // Configuration
  // ---------------------------------------------------------------------------

  /** The estimator's noise densities (ACC_N, GYR_N, ACC_W, GYR_W). */
  datatype Params = Params(accN: real, gyrN: real, accW: real, gyrW: real)

  /** The variance on the diagonal of noise block p (p = 0..5, each 3×3):
      accelerometer and gyroscope white noise at both ends of the step, then the two
      bias random walks. */
  function NoiseVariance(params: Params, p: int): real
  {
    if p == 0 || p == 2 then params.accN * params.accN
    else if p == 1 || p == 3 then params.gyrN * params.gyrN
    else if p == 4 then params.accW * params.accW
    else if p == 5 then params.gyrW * params.gyrW
    else 0.0
  }

  function NoiseBlock(params: Params, p: int, q: int): (B: Matrix)
    ensures IsMat(B, 3, 3)
  {
    if p == q then MatScale(NoiseVariance(params, p), Identity(3)) else Zero(3, 3)
  }

  function NoiseLayout(params: Params): (int, int) -> Matrix
  {
    (p, q) => NoiseBlock(params, p, q)
  }

  /** The 18×18 noise matrix the constructor builds. */
  function Noise(params: Params): (N: Matrix)
    ensures IsMat(N, 18, 18)
  {
    Assemble(18, 18, NoiseLayout(params))
  }

  /** The noise matrix is diagonal, with the variance of its block on the diagonal. */
  lemma NoiseEntries(params: Params, i: int, j: int)
    requires 0 <= i < 18 && 0 <= j < 18
    ensures Get(Noise(params), i, j) == if i == j then NoiseVariance(params, i / 3) else 0.0
  {
    var B := NoiseBlock(params, i / 3, j / 3);
    if i / 3 == j / 3 {
      assert (i == j) == (i % 3 == j % 3);
    }
  }

  /** The six diagonal blocks of the noise matrix, in the constructor's order. */
  lemma NoiseBlocks(params: Params)
    ensures Block3(Noise(params), 0, 0) == MatScale(params.accN * params.accN, Identity(3))
    ensures Block3(Noise(params), 3, 3) == MatScale(params.gyrN * params.gyrN, Identity(3))
    ensures Block3(Noise(params), 6, 6) == MatScale(params.accN * params.accN, Identity(3))
    ensures Block3(Noise(params), 9, 9) == MatScale(params.gyrN * params.gyrN, Identity(3))
    ensures Block3(Noise(params), 12, 12) == MatScale(params.accW * params.accW, Identity(3))
    ensures Block3(Noise(params), 15, 15) == MatScale(params.gyrW * params.gyrW, Identity(3))
  {
    assert NoiseVariance(params, 0) == NoiseVariance(params, 2) == params.accN * params.accN;
    assert NoiseVariance(params, 1) == NoiseVariance(params, 3) == params.gyrN * params.gyrN;
    assert NoiseVariance(params, 4) == params.accW * params.accW;
    assert NoiseVariance(params, 5) == params.gyrW * params.gyrW;
    NoiseDiagonalBlock(params, 0);
    NoiseDiagonalBlock(params, 1);
    NoiseDiagonalBlock(params, 2);
    NoiseDiagonalBlock(params, 3);
    NoiseDiagonalBlock(params, 4);
    NoiseDiagonalBlock(params, 5);
  }

  lemma NoiseDiagonalBlock(params: Params, p: nat)
    requires p < 6
    ensures Block3(Noise(params), 3 * p, 3 * p) == MatScale(NoiseVariance(params, p), Identity(3))
  {
    AssembleBlock(18, 18, NoiseLayout(params), p, p);
  }

  lemma NoiseSymmetric(params: Params)
    ensures Symmetric(Noise(params))
  {
    var N := Noise(params);
    forall i, j | 0 <= i < 18 && 0 <= j < 18 ensures Get(N, i, j) == Get(N, j, i) {
      NoiseEntries(params, i, j);
      NoiseEntries(params, j, i);
    }
  }

  // ---------------------------------------------------------------------------
  // One midpoint step: the mean
  // ---------------------------------------------------------------------------

  /** The relative position, rotation and velocity midPointIntegration computes. */
  datatype Mean = Mean(p: Vec3, q: Quat, v: Vec3)

  /** The bias-corrected midpoint gyroscope rate over a step. */
  function MidGyr(gyr0: Vec3, gyr1: Vec3, bg: Vec3): Vec3
  {
    VecSub(VecScale(0.5, VecAdd(gyr0, gyr1)), bg)
  }

  /** The rotation increment over a step of length dt at rate w: (1, w·dt/2). */
  function Increment(w: Vec3, dt: real): Quat
  {
    Quat(1.0, w.x * dt / 2.0, w.y * dt / 2.0, w.z * dt / 2.0)
  }

  /** Step 1 of midPointIntegration: rotate both de-biased accelerations into the frame
      at the start of the interval, average them, and integrate position and velocity
      under that mean acceleration; the rotation advances by the midpoint rate. */
  function MidPointMean(dt: real, acc0: Vec3, gyr0: Vec3, acc1: Vec3, gyr1: Vec3,
                        dp: Vec3, dq: Quat, dv: Vec3, ba: Vec3, bg: Vec3): Mean
  {
    var unAcc0 := Rotate(dq, VecSub(acc0, ba));
    var rq := QuatMul(dq, Increment(MidGyr(gyr0, gyr1, bg), dt));
    var unAcc1 := Rotate(rq, VecSub(acc1, ba));
    var unAcc := VecScale(0.5, VecAdd(unAcc0, unAcc1));
    Mean(VecAdd(VecAdd(dp, VecScale(dt, dv)), VecScale(dt, VecScale(dt, VecScale(0.5, unAcc)))),
         rq,
         VecAdd(dv, VecScale(dt, unAcc)))
  }

  /** With no de-biased rotation rate and the same de-biased acceleration a at both ends,
      the rotation does not move, the velocity grows by a·dt, and the position by
      dv·dt + a·dt²/2. */
  lemma MidPointMeanConstant(dt: real, acc0: Vec3, gyr0: Vec3, acc1: Vec3, gyr1: Vec3,
                             dp: Vec3, dq: Quat, dv: Vec3, ba: Vec3, bg: Vec3, a: Vec3)
    requires gyr0 == bg && gyr1 == bg
    requires VecSub(acc0, ba) == a && VecSub(acc1, ba) == a
    requires dq == QuatIdentity
    ensures MidPointMean(dt, acc0, gyr0, acc1, gyr1, dp, dq, dv, ba, bg)
         == Mean(VecAdd(VecAdd(dp, VecScale(dt, dv)), VecScale(0.5 * dt * dt, a)), QuatIdentity, VecAdd(dv, VecScale(dt, a)))
  {
    NoRotation(dt, bg);
    RotateIdentity(a);
    HalfSum(a);
    HalfSquare(dt, a);
  }

  lemma NoRotation(dt: real, bg: Vec3)
    ensures QuatMul(QuatIdentity, Increment(MidGyr(bg, bg, bg), dt)) == QuatIdentity
  {
    assert MidGyr(bg, bg, bg) == Zero3;
  }

  lemma HalfSum(a: Vec3)
    ensures VecScale(0.5, VecAdd(a, a)) == a
  {
  }

  lemma HalfSquare(dt: real, a: Vec3)
    ensures VecScale(dt, VecScale(dt, VecScale(0.5, a))) == VecScale(0.5 * dt * dt, a)
  {
  }

  // ---------------------------------------------------------------------------
  // One midpoint step: the linearised error-state transition
  // ---------------------------------------------------------------------------

  /** The 3×3 ingredients of F and V for one step: the step length, the rotation
      matrices of the rotation before and after it, and the skew matrices of the
      midpoint rate and of the two de-biased accelerations. */
  datatype Linear = Linear(dt: real, r0: Matrix, r1: Matrix, rw: Matrix, ra0: Matrix, ra1: Matrix)

  function Linearize(dt: real, acc0: Vec3, gyr0: Vec3, acc1: Vec3, gyr1: Vec3, dq: Quat, rq: Quat, ba: Vec3, bg: Vec3): Linear
  {
    Linear(dt, ToRotationMatrix(dq), ToRotationMatrix(rq),
           Skew(MidGyr(gyr0, gyr1, bg)), Skew(VecSub(acc0, ba)), Skew(VecSub(acc1, ba)))
  }

  /** I − [w]×·dt */
  function RotationDecay(l: Linear): Matrix
  {
    MatSub(Identity(3), MatScale(l.dt, l.rw))
  }

  /** Block (p, q) of F, over the error blocks 0 = position, 1 = rotation, 2 = velocity,
      3 = accelerometer bias, 4 = gyroscope bias. Scalar factors are collected in front
      of each matrix product. */
  function TransitionBlock(l: Linear, p: int, q: int): Matrix
  {
    var dt := l.dt;
    if p == 0 && q == 0 then Identity(3)
    else if p == 0 && q == 1 then
      MatAdd(MatScale(-0.25 * dt * dt, MatMul(l.r0, l.ra0)),
             MatScale(-0.25 * dt * dt, MatMul(MatMul(l.r1, l.ra1), RotationDecay(l))))
    else if p == 0 && q == 2 then MatScale(dt, Identity(3))
    else if p == 0 && q == 3 then MatScale(-0.25 * dt * dt, MatAdd(l.r0, l.r1))
    else if p == 0 && q == 4 then MatScale(-0.25 * dt * dt * -dt, MatMul(l.r1, l.ra1))
    else if p == 1 && q == 1 then RotationDecay(l)
    else if p == 1 && q == 4 then MatScale(-1.0 * dt, Identity(3))
    else if p == 2 && q == 1 then
      MatAdd(MatScale(-0.5 * dt, MatMul(l.r0, l.ra0)),
             MatScale(-0.5 * dt, MatMul(MatMul(l.r1, l.ra1), RotationDecay(l))))
    else if p == 2 && q == 2 then Identity(3)
    else if p == 2 && q == 3 then MatScale(-0.5 * dt, MatAdd(l.r0, l.r1))
    else if p == 2 && q == 4 then MatScale(-0.5 * dt * -dt, MatMul(l.r1, l.ra1))
    else if p == 3 && q == 3 then Identity(3)
    else if p == 4 && q == 4 then Identity(3)
    else Zero(3, 3)
  }

  function TransitionLayout(l: Linear): (int, int) -> Matrix
  {
    (p, q) => TransitionBlock(l, p, q)
  }

  /** F: the 15×15 error-state transition of one step. */
  function Transition(l: Linear): (F: Matrix)
    ensures IsMat(F, 15, 15)
  {
    Assemble(15, 15, TransitionLayout(l))
  }

  /** Block (p, q) of V, over the noise blocks 0 = acc at the start, 1 = gyr at the start,
      2 = acc at the end, 3 = gyr at the end, 4 = acc bias walk, 5 = gyr bias walk. */
  function NoiseInputBlock(l: Linear, p: int, q: int): Matrix
  {
    var dt := l.dt;
    if p == 0 && q == 0 then MatScale(0.25 * dt * dt, l.r0)
    else if p == 0 && (q == 1 || q == 3) then MatScale(0.25 * dt * dt * 0.5 * dt, MatMul(MatNeg(l.r1), l.ra1))
    else if p == 0 && q == 2 then MatScale(0.25 * dt * dt, l.r1)
    else if p == 1 && (q == 1 || q == 3) then MatScale(0.5 * dt, Identity(3))
    else if p == 2 && q == 0 then MatScale(0.5 * dt, l.r0)
    else if p == 2 && (q == 1 || q == 3) then MatScale(0.5 * dt * 0.5 * dt, MatMul(MatNeg(l.r1), l.ra1))
    else if p == 2 && q == 2 then MatScale(0.5 * dt, l.r1)
    else if p == 3 && q == 4 then MatScale(dt, Identity(3))
    else if p == 4 && q == 5 then MatScale(dt, Identity(3))
    else Zero(3, 3)
  }

  function NoiseInputLayout(l: Linear): (int, int) -> Matrix
  {
    (p, q) => NoiseInputBlock(l, p, q)
  }

  /** V: how the 18 noise inputs of one step enter the 15 error states. */
  function NoiseInput(l: Linear): (V: Matrix)
    ensures IsMat(V, 15, 18)
  {
    Assemble(15, 18, NoiseInputLayout(l))
  }

  /** The fixed blocks of F: identities on the position, velocity and both bias
      diagonals, I − [w]×·dt on the rotation diagonal and −I·dt coupling rotation to the
      gyroscope bias. */
  lemma TransitionBlocks(l: Linear)
    ensures Block3(Transition(l), 0, 0) == Identity(3)
    ensures Block3(Transition(l), 6, 6) == Identity(3)
    ensures Block3(Transition(l), 9, 9) == Identity(3)
    ensures Block3(Transition(l), 12, 12) == Identity(3)
    ensures Block3(Transition(l), 3, 3) == MatSub(Identity(3), MatScale(l.dt, l.rw))
    ensures Block3(Transition(l), 3, 12) == MatScale(-1.0 * l.dt, Identity(3))
  {
    TransitionBlockAt(l, 0, 0);
    TransitionBlockAt(l, 2, 2);
    TransitionBlockAt(l, 3, 3);
    TransitionBlockAt(l, 4, 4);
    TransitionBlockAt(l, 1, 1);
    TransitionBlockAt(l, 1, 4);
  }

  lemma TransitionBlockAt(l: Linear, p: nat, q: nat)
    requires (p, q) in {(0, 0), (1, 1), (1, 4), (2, 2), (3, 3), (4, 4)}
    ensures Block3(Transition(l), 3 * p, 3 * q) == TransitionBlock(l, p, q)
  {
    AssembleBlock(15, 15, TransitionLayout(l), p, q);
  }

  /** The bias rows of F are rows of the identity: a step leaves the bias errors
      unchanged. */
  lemma TransitionBiasRows(l: Linear, i: int, j: int)
    requires 9 <= i < 15 && 0 <= j < 15
    ensures Get(Transition(l), i, j) == if i == j then 1.0 else 0.0
  {
    if i / 3 == j / 3 {
      assert (i == j) == (i % 3 == j % 3);
    }
  }

  /** The bias rows of V hold only the two random walks, each I·dt. */
  lemma NoiseInputBiasRows(l: Linear, i: int, j: int)
    requires 9 <= i < 15 && 0 <= j < 18
    ensures Get(NoiseInput(l), i, j) == if j == i + 3 then l.dt else 0.0
  {
    if i / 3 + 1 == j / 3 {
      assert (j == i + 3) == (i % 3 == j % 3);
    }
  }

  // ---------------------------------------------------------------------------
  // The pre-integration state and its replay
  // ---------------------------------------------------------------------------

  /** What IntegrationBase integrates: the last sample (acc0, gyr0), the bias
      linearisation point (ba, bg), the Jacobian with respect to the biases, the
      covariance, the integrated time and the relative position, rotation and velocity. */
  datatype Preint = Preint(acc0: Vec3, gyr0: Vec3, ba: Vec3, bg: Vec3,
                           jacobian: Matrix, covariance: Matrix, sumDt: real,
                           deltaP: Vec3, deltaQ: Quat, deltaV: Vec3)

  /** The state before any sample: identity Jacobian, zero covariance, nothing
      integrated yet. */
  function Initial(acc0: Vec3, gyr0: Vec3, ba: Vec3, bg: Vec3): Preint
  {
    Preint(acc0, gyr0, ba, bg, Identity(15), Zero(15, 15), 0.0, Zero3, QuatIdentity, Zero3)
  }

  /** The shape every state keeps: 15×15 Jacobian and covariance. */
  predicate Shaped(s: Preint)
  {
    IsMat(s.jacobian, 15, 15) && IsMat(s.covariance, 15, 15)
  }

  /** The transition F of the step from s with the sample (dt, acc1, gyr1). */
  function StepTransition(s: Preint, dt: real, acc1: Vec3, gyr1: Vec3): Matrix
  {
    var m := MidPointMean(dt, s.acc0, s.gyr0, acc1, gyr1, s.deltaP, s.deltaQ, s.deltaV, s.ba, s.bg);
    Transition(Linearize(dt, s.acc0, s.gyr0, acc1, gyr1, s.deltaQ, m.q, s.ba, s.bg))
  }

  /** The noise input V of the same step. */
  function StepNoiseInput(s: Preint, dt: real, acc1: Vec3, gyr1: Vec3): Matrix
  {
    var m := MidPointMean(dt, s.acc0, s.gyr0, acc1, gyr1, s.deltaP, s.deltaQ, s.deltaV, s.ba, s.bg);
    NoiseInput(Linearize(dt, s.acc0, s.gyr0, acc1, gyr1, s.deltaQ, m.q, s.ba, s.bg))
  }

  /** What midPointIntegration computes with update_jacobian set: the midpoint mean and
      the Jacobian and covariance J, C carried through the step's F and V. */
  datatype MidPointResult = MidPointResult(mean: Mean, jacobian: Matrix, covariance: Matrix)

  function MidPoint(noise: Matrix, dt: real, acc0: Vec3, gyr0: Vec3, acc1: Vec3, gyr1: Vec3,
                    dp: Vec3, dq: Quat, dv: Vec3, ba: Vec3, bg: Vec3, J: Matrix, C: Matrix): MidPointResult
  {
    var m := MidPointMean(dt, acc0, gyr0, acc1, gyr1, dp, dq, dv, ba, bg);
    var l := Linearize(dt, acc0, gyr0, acc1, gyr1, dq, m.q, ba, bg);
    var F, V := Transition(l), NoiseInput(l);
    MidPointResult(m, MatMul(F, J), MatAdd(MatMul(MatMul(F, C), Transpose(F)), MatMul(MatMul(V, noise), Transpose(V))))
  }

  /** propagate: one midpoint step with the sample (dt, acc1, gyr1), the Jacobian and
      covariance update with update_jacobian set, the normalisation of the rotation,
      and the hand-over of the sample to the next step. The bias linearisation point
      does not move. */
  function Step(normalize: Quat -> Quat, noise: Matrix, s: Preint, dt: real, acc1: Vec3, gyr1: Vec3): (t: Preint)
    ensures t.ba == s.ba && t.bg == s.bg
    ensures t.sumDt == s.sumDt + dt
    ensures t.acc0 == acc1 && t.gyr0 == gyr1
  {
    var r := MidPoint(noise, dt, s.acc0, s.gyr0, acc1, gyr1, s.deltaP, s.deltaQ, s.deltaV, s.ba, s.bg,
                      s.jacobian, s.covariance);
    Preint(acc1, gyr1, s.ba, s.bg, r.jacobian, r.covariance, s.sumDt + dt, r.mean.p, normalize(r.mean.q), r.mean.v)
  }

  /** One propagate step as a function value: state and sample to the next state. */
  type StepFn = (Preint, real, Vec3, Vec3) -> Preint

  /** The propagate step of an engine with the given normalisation and noise matrix. */
  function Propagator(normalize: Quat -> Quat, noise: Matrix): StepFn
  {
    (s, dt, acc1, gyr1) => Step(normalize, noise, s, dt, acc1, gyr1)
  }

  /** The state after integrating the samples (dts[k], accs[k], gyrs[k]) in order. */
  function Replay(step: StepFn, s: Preint, dts: seq<real>, accs: seq<Vec3>, gyrs: seq<Vec3>): Preint
    requires |accs| == |dts| && |gyrs| == |dts|
    decreases |dts|
  {
    if |dts| == 0 then s
    else
      var n := |dts| - 1;
      step(Replay(step, s, dts[..n], accs[..n], gyrs[..n]), dts[n], accs[n], gyrs[n])
  }

  /** The sum of a buffer of step lengths. */
  function Total(dts: seq<real>): real
  {
    if |dts| == 0 then 0.0 else Total(dts[..|dts| - 1]) + dts[|dts| - 1]
  }

  /** The bookkeeping every propagate step does, whatever its arithmetic: keep the bias
      linearisation point and the matrix shapes, add dt, hand the sample over. */
  ghost predicate Bookkeeping(step: StepFn)
  {
    forall s, dt, acc1, gyr1 {:trigger step(s, dt, acc1, gyr1)} ::
      && step(s, dt, acc1, gyr1).ba == s.ba && step(s, dt, acc1, gyr1).bg == s.bg
      && step(s, dt, acc1, gyr1).sumDt == s.sumDt + dt
      && step(s, dt, acc1, gyr1).acc0 == acc1 && step(s, dt, acc1, gyr1).gyr0 == gyr1
      && (Shaped(s) ==> Shaped(step(s, dt, acc1, gyr1)))
  }

  /** A step that keeps a symmetric covariance symmetric. */
  ghost predicate KeepsSymmetry(step: StepFn)
  {
    forall s, dt, acc1, gyr1 ::
      Shaped(s) && Symmetric(s.covariance) ==> Symmetric(step(s, dt, acc1, gyr1).covariance)
  }

  /** A step that left-multiplies the Jacobian by its transition. */
  ghost predicate MultipliesJacobian(step: StepFn)
  {
    forall s, dt, acc1, gyr1 ::
      step(s, dt, acc1, gyr1).jacobian == MatMul(StepTransition(s, dt, acc1, gyr1), s.jacobian)
  }

  /** The step's mean part is the midpoint mean, with the rotation normalised. */
  lemma StepMean(normalize: Quat -> Quat, noise: Matrix, s: Preint, dt: real, acc1: Vec3, gyr1: Vec3)
    ensures var t, m := Step(normalize, noise, s, dt, acc1, gyr1),
                       MidPointMean(dt, s.acc0, s.gyr0, acc1, gyr1, s.deltaP, s.deltaQ, s.deltaV, s.ba, s.bg);
      t.deltaP == m.p && t.deltaQ == normalize(m.q) && t.deltaV == m.v
  {
  }

  /** The step's Jacobian and covariance are F·J and F·C·Fᵀ + V·N·Vᵀ. */
  lemma StepMatrices(normalize: Quat -> Quat, noise: Matrix, s: Preint, dt: real, acc1: Vec3, gyr1: Vec3)
    ensures var t, F, V := Step(normalize, noise, s, dt, acc1, gyr1), StepTransition(s, dt, acc1, gyr1), StepNoiseInput(s, dt, acc1, gyr1);
      && t.jacobian == MatMul(F, s.jacobian)
      && t.covariance == MatAdd(MatMul(MatMul(F, s.covariance), Transpose(F)), MatMul(MatMul(V, noise), Transpose(V)))
  {
  }

  lemma StepShaped(normalize: Quat -> Quat, noise: Matrix, s: Preint, dt: real, acc1: Vec3, gyr1: Vec3)
    requires Shaped(s)
    ensures Shaped(Step(normalize, noise, s, dt, acc1, gyr1))
  {
    StepMatrices(normalize, noise, s, dt, acc1, gyr1);
  }

  /** A step keeps the covariance symmetric, given a symmetric noise matrix. */
  lemma StepSymmetric(normalize: Quat -> Quat, noise: Matrix, s: Preint, dt: real, acc1: Vec3, gyr1: Vec3)
    requires Shaped(s) && Symmetric(s.covariance)
    requires Symmetric(noise) && |noise| == 18
    ensures Symmetric(Step(normalize, noise, s, dt, acc1, gyr1).covariance)
  {
    var F, V := StepTransition(s, dt, acc1, gyr1), StepNoiseInput(s, dt, acc1, gyr1);
    StepMatrices(normalize, noise, s, dt, acc1, gyr1);
    SandwichSymmetric(F, s.covariance, 15, 15);
    SandwichSymmetric(V, noise, 15, 18);
    SymmetricAdd(MatMul(MatMul(F, s.covariance), Transpose(F)), MatMul(MatMul(V, noise), Transpose(V)));
  }

  lemma PropagatorBookkeeping(normalize: Quat -> Quat, noise: Matrix)
    ensures Bookkeeping(Propagator(normalize, noise))
  {
    forall s, dt, acc1, gyr1 | Shaped(s)
      ensures Shaped(Propagator(normalize, noise)(s, dt, acc1, gyr1))
    {
      StepShaped(normalize, noise, s, dt, acc1, gyr1);
    }
  }

  lemma PropagatorSymmetry(normalize: Quat -> Quat, noise: Matrix)
    requires Symmetric(noise) && |noise| == 18
    ensures KeepsSymmetry(Propagator(normalize, noise))
  {
    forall s, dt, acc1, gyr1 | Shaped(s) && Symmetric(s.covariance)
      ensures Symmetric(Propagator(normalize, noise)(s, dt, acc1, gyr1).covariance)
    {
      StepSymmetric(normalize, noise, s, dt, acc1, gyr1);
    }
  }

  lemma PropagatorJacobian(normalize: Quat -> Quat, noise: Matrix)
    ensures MultipliesJacobian(Propagator(normalize, noise))
  {
    forall s, dt, acc1, gyr1
      ensures Propagator(normalize, noise)(s, dt, acc1, gyr1).jacobian == MatMul(StepTransition(s, dt, acc1, gyr1), s.jacobian)
    {
      StepMatrices(normalize, noise, s, dt, acc1, gyr1);
    }
  }

  /** Replaying keeps the shape and the bias linearisation point, and integrates the
      total time of the buffer. */
  lemma {:induction false} ReplayInvariants(step: StepFn, s: Preint, dts: seq<real>, accs: seq<Vec3>, gyrs: seq<Vec3>)
    requires |accs| == |dts| && |gyrs| == |dts|
    requires Bookkeeping(step)
    ensures var r := Replay(step, s, dts, accs, gyrs);
      (Shaped(s) ==> Shaped(r)) && r.ba == s.ba && r.bg == s.bg && r.sumDt == s.sumDt + Total(dts)
    decreases |dts|
  {
    if |dts| > 0 {
      var n := |dts| - 1;
      ReplayInvariants(step, s, dts[..n], accs[..n], gyrs[..n]);
      ReplayUnfold(step, s, dts, accs, gyrs);
      BookkeepingAt(step, Replay(step, s, dts[..n], accs[..n], gyrs[..n]), dts[n], accs[n], gyrs[n]);
    }
  }

  /** After a replay the last sample is the next step's start sample. */
  lemma ReplayLastSample(step: StepFn, s: Preint, dts: seq<real>, accs: seq<Vec3>, gyrs: seq<Vec3>)
    requires |accs| == |dts| && |gyrs| == |dts|
    requires Bookkeeping(step)
    ensures var r := Replay(step, s, dts, accs, gyrs);
      if |dts| == 0 then r.acc0 == s.acc0 && r.gyr0 == s.gyr0
      else r.acc0 == accs[|dts| - 1] && r.gyr0 == gyrs[|dts| - 1]
  {
    if |dts| > 0 {
      var n := |dts| - 1;
      ReplayUnfold(step, s, dts, accs, gyrs);
      BookkeepingAt(step, Replay(step, s, dts[..n], accs[..n], gyrs[..n]), dts[n], accs[n], gyrs[n]);
    }
  }

  /** Bookkeeping at one state and sample. */
  lemma BookkeepingAt(step: StepFn, s: Preint, dt: real, acc1: Vec3, gyr1: Vec3)
    requires Bookkeeping(step)
    ensures var t := step(s, dt, acc1, gyr1);
      t.ba == s.ba && t.bg == s.bg && t.sumDt == s.sumDt + dt && t.acc0 == acc1 && t.gyr0 == gyr1
      && (Shaped(s) ==> Shaped(t))
  {
  }

  /** A non-empty replay is one step after the replay of all but the last sample. */
  lemma ReplayUnfold(step: StepFn, s: Preint, dts: seq<real>, accs: seq<Vec3>, gyrs: seq<Vec3>)
    requires |accs| == |dts| && |gyrs| == |dts| && |dts| > 0
    ensures var n := |dts| - 1;
      Replay(step, s, dts, accs, gyrs) == step(Replay(step, s, dts[..n], accs[..n], gyrs[..n]), dts[n], accs[n], gyrs[n])
  {
  }

  /** Replaying a buffer with one more sample is one more step. */
  lemma ReplayPush(step: StepFn, s: Preint, dts: seq<real>, accs: seq<Vec3>, gyrs: seq<Vec3>,
                   dt: real, acc1: Vec3, gyr1: Vec3)
    requires |accs| == |dts| && |gyrs| == |dts|
    ensures Replay(step, s, dts + [dt], accs + [acc1], gyrs + [gyr1]) == step(Replay(step, s, dts, accs, gyrs), dt, acc1, gyr1)
  {
    var n := |dts|;
    assert (dts + [dt])[..n] == dts && (accs + [acc1])[..n] == accs && (gyrs + [gyr1])[..n] == gyrs;
  }

  /** Replaying the first i + 1 samples of a buffer is one step after replaying the first i. */
  lemma ReplayStep(step: StepFn, s: Preint, dts: seq<real>, accs: seq<Vec3>, gyrs: seq<Vec3>, i: nat)
    requires |accs| == |dts| && |gyrs| == |dts| && i < |dts|
    ensures Replay(step, s, dts[..i + 1], accs[..i + 1], gyrs[..i + 1])
      == step(Replay(step, s, dts[..i], accs[..i], gyrs[..i]), dts[i], accs[i], gyrs[i])
  {
    assert dts[..i + 1] == dts[..i] + [dts[i]] && accs[..i + 1] == accs[..i] + [accs[i]] && gyrs[..i + 1] == gyrs[..i] + [gyrs[i]];
    ReplayPush(step, s, dts[..i], accs[..i], gyrs[..i], dts[i], accs[i], gyrs[i]);
  }

  /** The covariance stays symmetric through any replay. */
  lemma {:induction false} ReplayCovarianceSymmetric(step: StepFn, s: Preint, dts: seq<real>, accs: seq<Vec3>, gyrs: seq<Vec3>)
    requires |accs| == |dts| && |gyrs| == |dts|
    requires Bookkeeping(step) && KeepsSymmetry(step)
    requires Shaped(s) && Symmetric(s.covariance)
    ensures Symmetric(Replay(step, s, dts, accs, gyrs).covariance)
    decreases |dts|
  {
    if |dts| > 0 {
      var n := |dts| - 1;
      ReplayInvariants(step, s, dts[..n], accs[..n], gyrs[..n]);
      ReplayCovarianceSymmetric(step, s, dts[..n], accs[..n], gyrs[..n]);
      ReplayUnfold(step, s, dts, accs, gyrs);
      SymmetryAt(step, Replay(step, s, dts[..n], accs[..n], gyrs[..n]), dts[n], accs[n], gyrs[n]);
    }
  }

  lemma SymmetryAt(step: StepFn, s: Preint, dt: real, acc1: Vec3, gyr1: Vec3)
    requires KeepsSymmetry(step)
    requires Shaped(s) && Symmetric(s.covariance)
    ensures Symmetric(step(s, dt, acc1, gyr1).covariance)
  {
  }

  /** The transitions F of the steps of a replay, first step first. */
  function Transitions(step: StepFn, s: Preint, dts: seq<real>, accs: seq<Vec3>, gyrs: seq<Vec3>): (Fs: seq<Matrix>)
    requires |accs| == |dts| && |gyrs| == |dts|
    ensures |Fs| == |dts|
    ensures forall k :: 0 <= k < |Fs| ==> IsMat(Fs[k], 15, 15)
    decreases |dts|
  {
    if |dts| == 0 then []
    else
      var n := |dts| - 1;
      Transitions(step, s, dts[..n], accs[..n], gyrs[..n])
        + [StepTransition(Replay(step, s, dts[..n], accs[..n], gyrs[..n]), dts[n], accs[n], gyrs[n])]
  }

  /** The ordered product Fs[n-1]·…·Fs[0] of 15×15 matrices (the identity when empty). */
  function Product(Fs: seq<Matrix>): (P: Matrix)
    requires forall k :: 0 <= k < |Fs| ==> IsMat(Fs[k], 15, 15)
    ensures IsMat(P, 15, 15)
  {
    if |Fs| == 0 then Identity(15)
    else
      var P := Product(Fs[..|Fs| - 1]);
      assert Cols(P) == 15 && IsMat(Fs[|Fs| - 1], 15, 15);
      MatMul(Fs[|Fs| - 1], P)
  }

  lemma JacobianAt(step: StepFn, s: Preint, dt: real, acc1: Vec3, gyr1: Vec3)
    requires MultipliesJacobian(step)
    ensures step(s, dt, acc1, gyr1).jacobian == MatMul(StepTransition(s, dt, acc1, gyr1), s.jacobian)
  {
  }

  /** After a replay the Jacobian is the ordered product of the step transitions
      applied to the starting Jacobian. */
  lemma {:induction false} ReplayJacobian(step: StepFn, s: Preint, dts: seq<real>, accs: seq<Vec3>, gyrs: seq<Vec3>)
    requires |accs| == |dts| && |gyrs| == |dts|
    requires Bookkeeping(step) && MultipliesJacobian(step) && Shaped(s)
    ensures Replay(step, s, dts, accs, gyrs).jacobian == MatMul(Product(Transitions(step, s, dts, accs, gyrs)), s.jacobian)
    decreases |dts|
  {
    var Fs := Transitions(step, s, dts, accs, gyrs);
    if |dts| == 0 {
      MatMulIdentityLeft(s.jacobian, 15, 15);
    } else {
      var n := |dts| - 1;
      var r := Replay(step, s, dts[..n], accs[..n], gyrs[..n]);
      var F := StepTransition(r, dts[n], accs[n], gyrs[n]);
      var P := Product(Transitions(step, s, dts[..n], accs[..n], gyrs[..n]));
      ReplayJacobian(step, s, dts[..n], accs[..n], gyrs[..n]);
      ReplayUnfold(step, s, dts, accs, gyrs);
      JacobianAt(step, r, dts[n], accs[n], gyrs[n]);
      assert Fs[..n] == Transitions(step, s, dts[..n], accs[..n], gyrs[..n]);
      assert Product(Fs) == MatMul(F, P);
      MatMulAssoc(F, P, s.jacobian);
    }
  }

  /** From the initial state the Jacobian is exactly the product of the transitions. */
  lemma InitialJacobian(normalize: Quat -> Quat, noise: Matrix, acc0: Vec3, gyr0: Vec3, ba: Vec3, bg: Vec3,
                        dts: seq<real>, accs: seq<Vec3>, gyrs: seq<Vec3>)
    requires |accs| == |dts| && |gyrs| == |dts|
    ensures var step, s := Propagator(normalize, noise), Initial(acc0, gyr0, ba, bg);
      Replay(step, s, dts, accs, gyrs).jacobian == Product(Transitions(step, s, dts, accs, gyrs))
  {
    var step, s := Propagator(normalize, noise), Initial(acc0, gyr0, ba, bg);
    PropagatorBookkeeping(normalize, noise);
    PropagatorJacobian(normalize, noise);
    ReplayJacobian(step, s, dts, accs, gyrs);
    MatMulIdentityRight(Product(Transitions(step, s, dts, accs, gyrs)), 15, 15);
  }

  /** From the initial state with the configured noise, every replay has 15×15 matrices,
      a symmetric covariance, sum_dt equal to the buffered time and the bias
      linearisation point it started from. */
  lemma InitialReplay(normalize: Quat -> Quat, params: Params, acc0: Vec3, gyr0: Vec3, ba: Vec3, bg: Vec3,
                      dts: seq<real>, accs: seq<Vec3>, gyrs: seq<Vec3>)
    requires |accs| == |dts| && |gyrs| == |dts|
    ensures var r := Replay(Propagator(normalize, Noise(params)), Initial(acc0, gyr0, ba, bg), dts, accs, gyrs);
      && Shaped(r) && Symmetric(r.covariance)
      && r.sumDt == Total(dts) && r.ba == ba && r.bg == bg
  {
    var step, s := Propagator(normalize, Noise(params)), Initial(acc0, gyr0, ba, bg);
    NoiseSymmetric(params);
    PropagatorBookkeeping(normalize, Noise(params));
    PropagatorSymmetry(normalize, Noise(params));
    assert Symmetric(s.covariance) by {
      assert forall i, j :: Get(s.covariance, i, j) == 0.0;
    }
    ReplayInvariants(step, s, dts, accs, gyrs);
    ReplayCovarianceSymmetric(step, s, dts, accs, gyrs);
  }

  /** The displacement a·T²/2 after T seconds of constant acceleration a from rest. */
  function Displacement(T: real, a: Vec3): Vec3
  {
    VecScale(0.5 * T * T, a)
  }

  /** Under no de-biased rotation rate and a constant de-biased acceleration a, from a
      state with nothing integrated, the rotation stays the identity (given a
      normalisation that fixes it), the velocity is a·sum_dt and the position is
      a·sum_dt²/2. */
  lemma {:induction false} ConstantAcceleration(normalize: Quat -> Quat, noise: Matrix, s: Preint,
                                                dts: seq<real>, accs: seq<Vec3>, gyrs: seq<Vec3>, a: Vec3)
    requires |accs| == |dts| && |gyrs| == |dts|
    requires normalize(QuatIdentity) == QuatIdentity
    requires s.deltaQ == QuatIdentity && s.deltaP == Zero3 && s.deltaV == Zero3 && s.sumDt == 0.0
    requires s.gyr0 == s.bg && VecSub(s.acc0, s.ba) == a
    requires forall k :: 0 <= k < |dts| ==> gyrs[k] == s.bg && VecSub(accs[k], s.ba) == a
    ensures var r := Replay(Propagator(normalize, noise), s, dts, accs, gyrs);
      && r.deltaQ == QuatIdentity
      && r.deltaV == VecScale(r.sumDt, a)
      && r.deltaP == Displacement(r.sumDt, a)
    decreases |dts|
  {
    var step := Propagator(normalize, noise);
    PropagatorBookkeeping(normalize, noise);
    if |dts| == 0 {
      assert VecScale(0.0, a) == Zero3;
    } else {
      var n := |dts| - 1;
      var r := Replay(step, s, dts[..n], accs[..n], gyrs[..n]);
      ConstantAcceleration(normalize, noise, s, dts[..n], accs[..n], gyrs[..n], a);
      ReplayInvariants(step, s, dts[..n], accs[..n], gyrs[..n]);
      ReplayLastSample(step, s, dts[..n], accs[..n], gyrs[..n]);
      assert r.gyr0 == r.bg && VecSub(r.acc0, r.ba) == a;
      ReplayUnfold(step, s, dts, accs, gyrs);
      ConstantStep(normalize, noise, r, dts[n], accs[n], gyrs[n], a);
    }
  }

  /** One step of ConstantAcceleration. */
  lemma ConstantStep(normalize: Quat -> Quat, noise: Matrix, r: Preint, dt: real, acc1: Vec3, gyr1: Vec3, a: Vec3)
    requires normalize(QuatIdentity) == QuatIdentity
    requires r.deltaQ == QuatIdentity
    requires r.deltaV == VecScale(r.sumDt, a) && r.deltaP == Displacement(r.sumDt, a)
    requires r.gyr0 == r.bg && VecSub(r.acc0, r.ba) == a
    requires gyr1 == r.bg && VecSub(acc1, r.ba) == a
    ensures var t := Step(normalize, noise, r, dt, acc1, gyr1);
      && t.deltaQ == QuatIdentity
      && t.deltaV == VecScale(t.sumDt, a)
      && t.deltaP == Displacement(t.sumDt, a)
  {
    var t := Step(normalize, noise, r, dt, acc1, gyr1);
    StepMean(normalize, noise, r, dt, acc1, gyr1);
    var S := t.sumDt;
    var m := MidPointMean(dt, r.acc0, r.gyr0, acc1, gyr1, r.deltaP, r.deltaQ, r.deltaV, r.ba, r.bg);
    ConstantMean(r.sumDt, dt, S, r.acc0, r.gyr0, acc1, gyr1, r.deltaP, r.deltaQ, r.deltaV, r.ba, r.bg, a);
    assert m.p == Displacement(S, a);
    assert t.deltaP == m.p;
  }

  /** The midpoint mean under constant acceleration, from a state that has already
      integrated T seconds of it. */
  lemma ConstantMean(T: real, dt: real, S: real, acc0: Vec3, gyr0: Vec3, acc1: Vec3, gyr1: Vec3,
                     dp: Vec3, dq: Quat, dv: Vec3, ba: Vec3, bg: Vec3, a: Vec3)
    requires gyr0 == bg && gyr1 == bg
    requires VecSub(acc0, ba) == a && VecSub(acc1, ba) == a
    requires dq == QuatIdentity && dv == VecScale(T, a) && dp == Displacement(T, a)
    requires S == T + dt
    ensures MidPointMean(dt, acc0, gyr0, acc1, gyr1, dp, dq, dv, ba, bg)
         == Mean(Displacement(S, a), QuatIdentity, VecScale(S, a))
  {
    MidPointMeanConstant(dt, acc0, gyr0, acc1, gyr1, dp, dq, dv, ba, bg, a);
    UniformMotion(T, dt, S, a);
  }

  /** Position and velocity under constant acceleration, advanced by dt. */
  lemma UniformMotion(T: real, dt: real, S: real, a: Vec3)
    requires S == T + dt
    ensures VecAdd(VecScale(T, a), VecScale(dt, a)) == VecScale(S, a)
    ensures VecAdd(VecAdd(Displacement(T, a), VecScale(dt, VecScale(T, a))), VecScale(0.5 * dt * dt, a))
         == Displacement(S, a)
  {
    UniformVelocity(T, dt, S, a);
    UniformPosition(T, dt, S, a);
  }

  lemma UniformVelocity(T: real, dt: real, S: real, a: Vec3)
    requires S == T + dt
    ensures VecAdd(VecScale(T, a), VecScale(dt, a)) == VecScale(S, a)
  {
  }

  lemma UniformPosition(T: real, dt: real, S: real, a: Vec3)
    requires S == T + dt
    ensures VecAdd(VecAdd(Displacement(T, a), VecScale(dt, VecScale(T, a))), VecScale(0.5 * dt * dt, a))
         == Displacement(S, a)
  {
    Square(T, dt, S, a.x);
    Square(T, dt, S, a.y);
    Square(T, dt, S, a.z);
  }

  lemma Square(T: real, dt: real, S: real, c: real)
    requires S == T + dt
    ensures ((0.5 * T * T) * c + dt * (T * c)) + (0.5 * dt * dt) * c == (0.5 * S * S) * c
  {
  }

  // ---------------------------------------------------------------------------
  // The residual between two frames (evaluate)
  // ---------------------------------------------------------------------------

  /** Offsets of the position, rotation, velocity and bias blocks in a state vector. */
  const OP: nat := 0
  const OR: nat := 3
  const OV: nat := 6
  const OBA: nat := 9
  const OBG: nat := 12

  /** The optimised state of one frame: position, orientation, velocity, biases. */
  datatype Frame = Frame(p: Vec3, q: Quat, v: Vec3, ba: Vec3, bg: Vec3)

  /** The 15-entry residual, by block. */
  datatype Residual = Residual(p: Vec3, q: Vec3, v: Vec3, ba: Vec3, bg: Vec3)

  function ResidualVector(r: Residual): (x: Vector)
    ensures |x| == 15
  {
    Flat(r.p) + Flat(r.q) + Flat(r.v) + Flat(r.ba) + Flat(r.bg)
  }

  /** delta_p corrected to first order for biases ba, bg away from the linearisation point. */
  function CorrectedP(s: Preint, ba: Vec3, bg: Vec3): Vec3
  {
    VecAdd(VecAdd(s.deltaP, MatVec3(Block3(s.jacobian, OP, OBA), VecSub(ba, s.ba))),
           MatVec3(Block3(s.jacobian, OP, OBG), VecSub(bg, s.bg)))
  }

  /** delta_v corrected likewise. */
  function CorrectedV(s: Preint, ba: Vec3, bg: Vec3): Vec3
  {
    VecAdd(VecAdd(s.deltaV, MatVec3(Block3(s.jacobian, OV, OBA), VecSub(ba, s.ba))),
           MatVec3(Block3(s.jacobian, OV, OBG), VecSub(bg, s.bg)))
  }

  /** delta_q corrected by the small rotation dq_dbg·(bg − linearized_bg). */
  function CorrectedQ(s: Preint, u: Utility, bg: Vec3): Quat
  {
    QuatMul(s.deltaQ, u.deltaQ(MatVec3(Block3(s.jacobian, OR, OBG), VecSub(bg, s.bg))))
  }

  /** Qi⁻¹·(½·G·T² + Pj − Pi − Vi·T): the position change the two frames imply, in frame i. */
  function PositionGap(T: real, g: Vec3, fi: Frame, fj: Frame): Vec3
  {
    Rotate(Inverse(fi.q), VecSub(VecSub(VecAdd(Displacement(T, g), fj.p), fi.p), VecScale(T, fi.v)))
  }

  /** Qi⁻¹·(G·T + Vj − Vi): the velocity change the two frames imply, in frame i. */
  function VelocityGap(T: real, g: Vec3, fi: Frame, fj: Frame): Vec3
  {
    Rotate(Inverse(fi.q), VecSub(VecAdd(VecScale(T, g), fj.v), fi.v))
  }

  /** The residual of frames i and j against the preintegrated increments; its bias
      rows are what frame j's biases exceed frame i's by. */
  function Evaluate(s: Preint, g: Vec3, u: Utility, fi: Frame, fj: Frame): (r: Residual)
    ensures VecAdd(fi.ba, r.ba) == fj.ba && VecAdd(fi.bg, r.bg) == fj.bg
  {
    Residual(VecSub(PositionGap(s.sumDt, g, fi, fj), CorrectedP(s, fi.ba, fi.bg)),
             VecScale(2.0, VecPart(QuatMul(Inverse(CorrectedQ(s, u, fi.bg)), QuatMul(Inverse(fi.q), fj.q)))),
             VecSub(VelocityGap(s.sumDt, g, fi, fj), CorrectedV(s, fi.ba, fi.bg)),
             VecSub(fj.ba, fi.ba),
             VecSub(fj.bg, fi.bg))
  }

  /** At the linearisation point the bias corrections vanish: the corrected increments
      are the stored ones (for the rotation, given that deltaQ maps zero to the identity). */
  lemma CorrectionsVanish(s: Preint, u: Utility)
    ensures CorrectedP(s, s.ba, s.bg) == s.deltaP
    ensures CorrectedV(s, s.ba, s.bg) == s.deltaV
    ensures u.deltaQ(Zero3) == QuatIdentity ==> CorrectedQ(s, u, s.bg) == s.deltaQ
  {
    assert VecSub(s.ba, s.ba) == Zero3 && VecSub(s.bg, s.bg) == Zero3;
    MatVec3Zero(Block3(s.jacobian, OP, OBA));
    MatVec3Zero(Block3(s.jacobian, OP, OBG));
    MatVec3Zero(Block3(s.jacobian, OV, OBA));
    MatVec3Zero(Block3(s.jacobian, OV, OBG));
    MatVec3Zero(Block3(s.jacobian, OR, OBG));
    QuatMulIdentityRight(s.deltaQ);
  }

  /** So a frame i at the linearisation point is compared with the stored increments. */
  lemma EvaluateAtLinearization(s: Preint, g: Vec3, u: Utility, fi: Frame, fj: Frame)
    requires fi.ba == s.ba && fi.bg == s.bg && u.deltaQ(Zero3) == QuatIdentity
    ensures var r := Evaluate(s, g, u, fi, fj);
      && r.p == VecSub(PositionGap(s.sumDt, g, fi, fj), s.deltaP)
      && r.v == VecSub(VelocityGap(s.sumDt, g, fi, fj), s.deltaV)
      && r.q == VecScale(2.0, VecPart(QuatMul(Inverse(s.deltaQ), QuatMul(Inverse(fi.q), fj.q))))
  {
    CorrectionsVanish(s, u);
  }

  /** Frames that meet the preintegrated prediction exactly, at the linearisation point,
      give the zero residual: the position and velocity gaps are the stored increments,
      the biases do not change, and Qj is Qi·δq. */
  lemma ZeroCrossing(s: Preint, g: Vec3, u: Utility, fi: Frame, fj: Frame)
    requires fi.ba == s.ba && fi.bg == s.bg && fj.ba == fi.ba && fj.bg == fi.bg
    requires u.deltaQ(Zero3) == QuatIdentity
    requires PositionGap(s.sumDt, g, fi, fj) == s.deltaP && VelocityGap(s.sumDt, g, fi, fj) == s.deltaV
    requires SquaredNorm(fi.q) > 0.0 && SquaredNorm(s.deltaQ) > 0.0
    requires fj.q == QuatMul(fi.q, s.deltaQ)
    ensures Evaluate(s, g, u, fi, fj) == Residual(Zero3, Zero3, Zero3, Zero3, Zero3)
  {
    EvaluateAtLinearization(s, g, u, fi, fj);
    InverseIsInverse(fi.q);
    InverseIsInverse(s.deltaQ);
    QuatMulAssoc(Inverse(fi.q), fi.q, s.deltaQ);
    QuatMulIdentityLeft(s.deltaQ);
    assert QuatMul(Inverse(fi.q), fj.q) == s.deltaQ;
  }

  // How the residual moves with the linear parts of the state

  /** Moving Pj by d moves the position residual by R(Qi⁻¹)·d and nothing else. */
  lemma ShiftPj(s: Preint, g: Vec3, u: Utility, fi: Frame, fj: Frame, d: Vec3)
    ensures var r, r' := Evaluate(s, g, u, fi, fj), Evaluate(s, g, u, fi, fj.(p := VecAdd(fj.p, d)));
      r' == r.(p := VecAdd(r.p, MatVec3(ToRotationMatrix(Inverse(fi.q)), d)))
  {
    var T, qi := s.sumDt, Inverse(fi.q);
    var x := VecSub(VecSub(VecAdd(Displacement(T, g), fj.p), fi.p), VecScale(T, fi.v));
    var x' := VecSub(VecSub(VecAdd(Displacement(T, g), VecAdd(fj.p, d)), fi.p), VecScale(T, fi.v));
    var fj' := fj.(p := VecAdd(fj.p, d));
    var Rd := MatVec3(ToRotationMatrix(qi), d);
    assert x' == VecAdd(x, d);
    RotateAdd(qi, x, d);
    RotateIsMatVec(qi, d);
    assert PositionGap(T, g, fi, fj') == VecAdd(PositionGap(T, g, fi, fj), Rd);
    SubAddSwap(PositionGap(T, g, fi, fj), Rd, CorrectedP(s, fi.ba, fi.bg));
  }

  /** Moving Pi by d moves the position residual by −R(Qi⁻¹)·d and nothing else. */
  lemma ShiftPi(s: Preint, g: Vec3, u: Utility, fi: Frame, fj: Frame, d: Vec3)
    ensures var r, r' := Evaluate(s, g, u, fi, fj), Evaluate(s, g, u, fi.(p := VecAdd(fi.p, d)), fj);
      r' == r.(p := VecAdd(r.p, MatVec3(MatNeg(ToRotationMatrix(Inverse(fi.q))), d)))
  {
    var T, qi := s.sumDt, Inverse(fi.q);
    var fi' := fi.(p := VecAdd(fi.p, d));
    var x := VecSub(VecSub(VecAdd(Displacement(T, g), fj.p), fi.p), VecScale(T, fi.v));
    var x' := VecSub(VecSub(VecAdd(Displacement(T, g), fj.p), fi'.p), VecScale(T, fi.v));
    var R := ToRotationMatrix(qi);
    var Rd := MatVec3(MatNeg(R), d);
    assert x' == VecAdd(x, VecNeg(d));
    RotateAdd(qi, x, VecNeg(d));
    RotateIsMatVec(qi, VecNeg(d));
    MatVec3Neg(R, d);
    assert PositionGap(T, g, fi', fj) == VecAdd(PositionGap(T, g, fi, fj), Rd);
    assert VelocityGap(T, g, fi', fj) == VelocityGap(T, g, fi, fj);
    SubAddSwap(PositionGap(T, g, fi, fj), Rd, CorrectedP(s, fi.ba, fi.bg));
  }

  /** Moving Vj by d moves the velocity residual by R(Qi⁻¹)·d and nothing else. */
  lemma ShiftVj(s: Preint, g: Vec3, u: Utility, fi: Frame, fj: Frame, d: Vec3)
    ensures var r, r' := Evaluate(s, g, u, fi, fj), Evaluate(s, g, u, fi, fj.(v := VecAdd(fj.v, d)));
      r' == r.(v := VecAdd(r.v, MatVec3(ToRotationMatrix(Inverse(fi.q)), d)))
  {
    var T, qi := s.sumDt, Inverse(fi.q);
    var fj' := fj.(v := VecAdd(fj.v, d));
    var y := VecSub(VecAdd(VecScale(T, g), fj.v), fi.v);
    var y' := VecSub(VecAdd(VecScale(T, g), fj'.v), fi.v);
    var Rd := MatVec3(ToRotationMatrix(qi), d);
    assert y' == VecAdd(y, d);
    RotateAdd(qi, y, d);
    RotateIsMatVec(qi, d);
    assert VelocityGap(T, g, fi, fj') == VecAdd(VelocityGap(T, g, fi, fj), Rd);
    assert PositionGap(T, g, fi, fj') == PositionGap(T, g, fi, fj);
    SubAddSwap(VelocityGap(T, g, fi, fj), Rd, CorrectedV(s, fi.ba, fi.bg));
  }

  /** Moving Vi by d moves the position residual by −R(Qi⁻¹)·T·d and the velocity
      residual by −R(Qi⁻¹)·d, and nothing else. */
  lemma ShiftVi(s: Preint, g: Vec3, u: Utility, fi: Frame, fj: Frame, d: Vec3)
    ensures var r, r' := Evaluate(s, g, u, fi, fj), Evaluate(s, g, u, fi.(v := VecAdd(fi.v, d)), fj);
      var R := ToRotationMatrix(Inverse(fi.q));
      r' == r.(p := VecAdd(r.p, MatVec3(MatScale(s.sumDt, MatNeg(R)), d)),
               v := VecAdd(r.v, MatVec3(MatNeg(R), d)))
  {
    var T, qi := s.sumDt, Inverse(fi.q);
    var fi' := fi.(v := VecAdd(fi.v, d));
    var R := ToRotationMatrix(qi);
    var x := VecSub(VecSub(VecAdd(Displacement(T, g), fj.p), fi.p), VecScale(T, fi.v));
    var x' := VecSub(VecSub(VecAdd(Displacement(T, g), fj.p), fi.p), VecScale(T, fi'.v));
    var y := VecSub(VecAdd(VecScale(T, g), fj.v), fi.v);
    var y' := VecSub(VecAdd(VecScale(T, g), fj.v), fi'.v);
    var Rp := MatVec3(MatScale(T, MatNeg(R)), d);
    var Rv := MatVec3(MatNeg(R), d);
    ScaledShift(T, fi.v, d);
    assert x' == VecAdd(x, VecNeg(VecScale(T, d)));
    assert y' == VecAdd(y, VecNeg(d));
    RotateAdd(qi, x, VecNeg(VecScale(T, d)));
    RotateIsMatVec(qi, VecNeg(VecScale(T, d)));
    RotateAdd(qi, y, VecNeg(d));
    RotateIsMatVec(qi, VecNeg(d));
    MatVec3Neg(R, d);
    MatVec3Scale(T, MatNeg(R), d);
    MatVec3Neg(R, VecScale(T, d));
    assert PositionGap(T, g, fi', fj) == VecAdd(PositionGap(T, g, fi, fj), Rp);
    assert VelocityGap(T, g, fi', fj) == VecAdd(VelocityGap(T, g, fi, fj), Rv);
    SubAddSwap(PositionGap(T, g, fi, fj), Rp, CorrectedP(s, fi.ba, fi.bg));
    SubAddSwap(VelocityGap(T, g, fi, fj), Rv, CorrectedV(s, fi.ba, fi.bg));
  }

  /** Moving Bai by d moves the position and velocity residuals by −dp_dba·d and
      −dv_dba·d and the accelerometer-bias residual by −d, and nothing else. */
  lemma ShiftBai(s: Preint, g: Vec3, u: Utility, fi: Frame, fj: Frame, d: Vec3)
    ensures var r, r' := Evaluate(s, g, u, fi, fj), Evaluate(s, g, u, fi.(ba := VecAdd(fi.ba, d)), fj);
      r' == r.(p := VecAdd(r.p, MatVec3(MatNeg(Block3(s.jacobian, OP, OBA)), d)),
               v := VecAdd(r.v, MatVec3(MatNeg(Block3(s.jacobian, OV, OBA)), d)),
               ba := VecAdd(r.ba, MatVec3(MatNeg(Identity(3)), d)))
  {
    var fi' := fi.(ba := VecAdd(fi.ba, d));
    var e, f := VecSub(fi.ba, s.ba), VecSub(fi.bg, s.bg);
    var Apa, Apg := Block3(s.jacobian, OP, OBA), Block3(s.jacobian, OP, OBG);
    var Ava, Avg := Block3(s.jacobian, OV, OBA), Block3(s.jacobian, OV, OBG);
    assert VecSub(fi'.ba, s.ba) == VecAdd(e, d);
    CorrectionShiftFirst(s.deltaP, Apa, e, Apg, f, d);
    CorrectionShiftFirst(s.deltaV, Ava, e, Avg, f, d);
    assert CorrectedP(s, fi'.ba, fi.bg) == VecAdd(CorrectedP(s, fi.ba, fi.bg), MatVec3(Apa, d));
    assert CorrectedV(s, fi'.ba, fi.bg) == VecAdd(CorrectedV(s, fi.ba, fi.bg), MatVec3(Ava, d));
    SubAddNeg(PositionGap(s.sumDt, g, fi, fj), CorrectedP(s, fi.ba, fi.bg), MatVec3(Apa, d));
    SubAddNeg(VelocityGap(s.sumDt, g, fi, fj), CorrectedV(s, fi.ba, fi.bg), MatVec3(Ava, d));
    MatVec3Neg(Apa, d);
    MatVec3Neg(Ava, d);
    MatVec3Neg(Identity(3), d);
    MatVec3Identity(d);
    assert PositionGap(s.sumDt, g, fi', fj) == PositionGap(s.sumDt, g, fi, fj);
    assert VelocityGap(s.sumDt, g, fi', fj) == VelocityGap(s.sumDt, g, fi, fj);
    SubAddNeg(fj.ba, fi.ba, d);
  }

  /** Moving Bgi by d moves the position and velocity residuals by −dp_dbg·d and
      −dv_dbg·d and the gyroscope-bias residual by −d; the accelerometer-bias residual
      stays (the rotation residual moves through deltaQ, which is not linear). */
  lemma ShiftBgi(s: Preint, g: Vec3, u: Utility, fi: Frame, fj: Frame, d: Vec3)
    ensures var r, r' := Evaluate(s, g, u, fi, fj), Evaluate(s, g, u, fi.(bg := VecAdd(fi.bg, d)), fj);
      && r'.p == VecAdd(r.p, MatVec3(MatNeg(Block3(s.jacobian, OP, OBG)), d))
      && r'.v == VecAdd(r.v, MatVec3(MatNeg(Block3(s.jacobian, OV, OBG)), d))
      && r'.ba == r.ba
      && r'.bg == VecAdd(r.bg, MatVec3(MatNeg(Identity(3)), d))
  {
    var fi' := fi.(bg := VecAdd(fi.bg, d));
    var e, f := VecSub(fi.ba, s.ba), VecSub(fi.bg, s.bg);
    var Apa, Apg := Block3(s.jacobian, OP, OBA), Block3(s.jacobian, OP, OBG);
    var Ava, Avg := Block3(s.jacobian, OV, OBA), Block3(s.jacobian, OV, OBG);
    assert VecSub(fi'.bg, s.bg) == VecAdd(f, d);
    CorrectionShiftSecond(s.deltaP, Apa, e, Apg, f, d);
    CorrectionShiftSecond(s.deltaV, Ava, e, Avg, f, d);
    assert CorrectedP(s, fi.ba, fi'.bg) == VecAdd(CorrectedP(s, fi.ba, fi.bg), MatVec3(Apg, d));
    assert CorrectedV(s, fi.ba, fi'.bg) == VecAdd(CorrectedV(s, fi.ba, fi.bg), MatVec3(Avg, d));
    SubAddNeg(PositionGap(s.sumDt, g, fi, fj), CorrectedP(s, fi.ba, fi.bg), MatVec3(Apg, d));
    SubAddNeg(VelocityGap(s.sumDt, g, fi, fj), CorrectedV(s, fi.ba, fi.bg), MatVec3(Avg, d));
    MatVec3Neg(Apg, d);
    MatVec3Neg(Avg, d);
    MatVec3Neg(Identity(3), d);
    MatVec3Identity(d);
    assert PositionGap(s.sumDt, g, fi', fj) == PositionGap(s.sumDt, g, fi, fj);
    assert VelocityGap(s.sumDt, g, fi', fj) == VelocityGap(s.sumDt, g, fi, fj);
    SubAddNeg(fj.bg, fi.bg, d);
  }

  /** Moving Baj by d moves the accelerometer-bias residual by I·d and nothing else. */
  lemma ShiftBaj(s: Preint, g: Vec3, u: Utility, fi: Frame, fj: Frame, d: Vec3)
    ensures var r, r' := Evaluate(s, g, u, fi, fj), Evaluate(s, g, u, fi, fj.(ba := VecAdd(fj.ba, d)));
      r' == r.(ba := VecAdd(r.ba, MatVec3(Identity(3), d)))
  {
    var fj' := fj.(ba := VecAdd(fj.ba, d));
    var r, r' := Evaluate(s, g, u, fi, fj), Evaluate(s, g, u, fi, fj');
    MatVec3Identity(d);
    assert PositionGap(s.sumDt, g, fi, fj') == PositionGap(s.sumDt, g, fi, fj);
    assert VelocityGap(s.sumDt, g, fi, fj') == VelocityGap(s.sumDt, g, fi, fj);
    assert r'.p == r.p && r'.q == r.q && r'.v == r.v;
    SubAddSwap(fj.ba, d, fi.ba);
  }

  /** Moving Bgj by d moves the gyroscope-bias residual by I·d and nothing else. */
  lemma ShiftBgj(s: Preint, g: Vec3, u: Utility, fi: Frame, fj: Frame, d: Vec3)
    ensures var r, r' := Evaluate(s, g, u, fi, fj), Evaluate(s, g, u, fi, fj.(bg := VecAdd(fj.bg, d)));
      r' == r.(bg := VecAdd(r.bg, MatVec3(Identity(3), d)))
  {
    var fj' := fj.(bg := VecAdd(fj.bg, d));
    var r, r' := Evaluate(s, g, u, fi, fj), Evaluate(s, g, u, fi, fj');
    MatVec3Identity(d);
    assert PositionGap(s.sumDt, g, fi, fj') == PositionGap(s.sumDt, g, fi, fj);
    assert VelocityGap(s.sumDt, g, fi, fj') == VelocityGap(s.sumDt, g, fi, fj);
    assert r'.p == r.p && r'.q == r.q && r'.v == r.v;
    SubAddSwap(fj.bg, d, fi.bg);
  }

  lemma CorrectionShiftFirst(base: Vec3, A: Matrix, e: Vec3, B: Matrix, f: Vec3, d: Vec3)
    ensures VecAdd(VecAdd(base, MatVec3(A, VecAdd(e, d))), MatVec3(B, f))
         == VecAdd(VecAdd(VecAdd(base, MatVec3(A, e)), MatVec3(B, f)), MatVec3(A, d))
  {
    MatVec3Add(A, e, d);
  }

  lemma CorrectionShiftSecond(base: Vec3, A: Matrix, e: Vec3, B: Matrix, f: Vec3, d: Vec3)
    ensures VecAdd(VecAdd(base, MatVec3(A, e)), MatVec3(B, VecAdd(f, d)))
         == VecAdd(VecAdd(VecAdd(base, MatVec3(A, e)), MatVec3(B, f)), MatVec3(B, d))
  {
    MatVec3Add(B, f, d);
  }

  lemma SubAddNeg(a: Vec3, c: Vec3, m: Vec3)
    ensures VecSub(a, VecAdd(c, m)) == VecAdd(VecSub(a, c), VecNeg(m))
  {
  }

  lemma ScaledShift(T: real, v: Vec3, d: Vec3)
    ensures VecScale(T, VecAdd(v, d)) == VecAdd(VecScale(T, v), VecScale(T, d))
  {
  }

  lemma SubAddSwap(a: Vec3, b: Vec3, c: Vec3)
    ensures VecSub(VecAdd(a, b), c) == VecAdd(VecSub(a, c), b)
  {
  }

  // ---------------------------------------------------------------------------
  // The engine object
  // ---------------------------------------------------------------------------

  /** The pre-integration engine between two image frames. Its integrated state is the
      replay of its three sample buffers from the start state it was built (or last
      reset) with; `normalize` stands for `Quaterniond::normalize`. */
  class IntegrationBase {
    var dt: real
    var acc0: Vec3
    var gyr0: Vec3
    var acc1: Vec3
    var gyr1: Vec3
    const linearizedAcc: Vec3
    const linearizedGyr: Vec3
    var linearizedBa: Vec3
    var linearizedBg: Vec3
    var jacobian: Matrix
    var covariance: Matrix
    const noise: Matrix
    var sumDt: real
    var deltaP: Vec3
    var deltaQ: Quat
    var deltaV: Vec3
    var dtBuf: seq<real>
    var accBuf: seq<Vec3>
    var gyrBuf: seq<Vec3>
    const params: Params
    const normalize: Quat -> Quat

    /** The integrated state as a value. */
    function State(): Preint
      reads this
    {
      Preint(acc0, gyr0, linearizedBa, linearizedBg, jacobian, covariance, sumDt, deltaP, deltaQ, deltaV)
    }

    /** The state the engine starts a replay from. */
    function Start(): Preint
      reads this
    {
      Initial(linearizedAcc, linearizedGyr, linearizedBa, linearizedBg)
    }

    /** The buffers have one entry per sample, the noise is the configured one, and the
        state is the replay of the buffers from the start state. */
    predicate Valid()
      reads this
    {
      && |accBuf| == |dtBuf| && |gyrBuf| == |dtBuf|
      && noise == Noise(params)
      && State() == Replay(Propagator(normalize, noise), Start(), dtBuf, accBuf, gyrBuf)
    }

    /** IntegrationBase(acc_0, gyr_0, linearized_ba, linearized_bg). */
    constructor (acc: Vec3, gyr: Vec3, ba: Vec3, bg: Vec3, params: Params, normalize: Quat -> Quat)
      ensures Valid()
      ensures linearizedAcc == acc && linearizedGyr == gyr && this.params == params && this.normalize == normalize
      ensures State() == Initial(acc, gyr, ba, bg)
      ensures dtBuf == [] && accBuf == [] && gyrBuf == []
    {
      acc0, gyr0 := acc, gyr;
      linearizedAcc, linearizedGyr := acc, gyr;
      linearizedBa, linearizedBg := ba, bg;
      jacobian, covariance := Identity(15), Zero(15, 15);
      sumDt, deltaP, deltaQ, deltaV := 0.0, Zero3, QuatIdentity, Zero3;
      noise := Noise(params);
      dtBuf, accBuf, gyrBuf := [], [], [];
      this.params, this.normalize := params, normalize;
    }

    /** midPointIntegration: the midpoint mean of one step as out-parameters, and, when
        updateJacobian is set, the Jacobian and covariance update with that step's F and
        V. Nothing else changes. */
    method MidPointIntegration(stepDt: real, a0: Vec3, g0: Vec3, a1: Vec3, g1: Vec3,
                               dp: Vec3, dq: Quat, dv: Vec3, ba: Vec3, bg: Vec3, updateJacobian: bool)
      returns (resultP: Vec3, resultQ: Quat, resultV: Vec3, resultBa: Vec3, resultBg: Vec3)
      modifies this`jacobian, this`covariance
      ensures var r := MidPoint(noise, stepDt, a0, g0, a1, g1, dp, dq, dv, ba, bg, old(jacobian), old(covariance));
        && Mean(resultP, resultQ, resultV) == r.mean
        && resultBa == ba && resultBg == bg
        && if updateJacobian then jacobian == r.jacobian && covariance == r.covariance
           else jacobian == old(jacobian) && covariance == old(covariance)
    {
      var unAcc0 := Rotate(dq, VecSub(a0, ba));
      var unGyr := MidGyr(g0, g1, bg);
      resultQ := QuatMul(dq, Increment(unGyr, stepDt));
      var unAcc1 := Rotate(resultQ, VecSub(a1, ba));
      var unAcc := VecScale(0.5, VecAdd(unAcc0, unAcc1));
      resultP := VecAdd(VecAdd(dp, VecScale(stepDt, dv)), VecScale(stepDt, VecScale(stepDt, VecScale(0.5, unAcc))));
      resultV := VecAdd(dv, VecScale(stepDt, unAcc));
      resultBa, resultBg := ba, bg;
      if updateJacobian {
        var l := Linearize(stepDt, a0, g0, a1, g1, dq, resultQ, ba, bg);
        var F, V := Transition(l), NoiseInput(l);
        jacobian := MatMul(F, jacobian);
        covariance := MatAdd(MatMul(MatMul(F, covariance), Transpose(F)), MatMul(MatMul(V, noise), Transpose(V)));
      }
    }

    /** Stores an integrated state in the member fields. */
    method Store(t: Preint)
      modifies this`acc0, this`gyr0, this`linearizedBa, this`linearizedBg
      modifies this`jacobian, this`covariance, this`sumDt, this`deltaP, this`deltaQ, this`deltaV
      ensures State() == t
    {
      acc0, gyr0, linearizedBa, linearizedBg, jacobian, covariance, sumDt, deltaP, deltaQ, deltaV
        := t.acc0, t.gyr0, t.ba, t.bg, t.jacobian, t.covariance, t.sumDt, t.deltaP, t.deltaQ, t.deltaV;
    }

    /** Keeps the last sample in dt, acc_1 and gyr_1. */
    method Keep(stepDt: real, a1: Vec3, g1: Vec3)
      modifies this`dt, this`acc1, this`gyr1
      ensures dt == stepDt && acc1 == a1 && gyr1 == g1
    {
      dt, acc1, gyr1 := stepDt, a1, g1;
    }

    /** propagate: one step with the sample (stepDt, a1, g1); the state becomes Step of
        the old state, the sample is kept in dt/acc_1/gyr_1, the buffers stay. */
    method Propagate(stepDt: real, a1: Vec3, g1: Vec3)
      modifies this`dt, this`acc1, this`gyr1, this`acc0, this`gyr0, this`linearizedBa, this`linearizedBg
      modifies this`jacobian, this`covariance, this`sumDt, this`deltaP, this`deltaQ, this`deltaV
      ensures State() == Step(normalize, noise, old(State()), stepDt, a1, g1)
      ensures dt == stepDt && acc1 == a1 && gyr1 == g1
    {
      Keep(stepDt, a1, g1);
      var rp, rq, rv, rba, rbg := MidPointIntegration(stepDt, acc0, gyr0, a1, g1, deltaP, deltaQ, deltaV,
                                                       linearizedBa, linearizedBg, true);
      Store(Preint(a1, g1, rba, rbg, jacobian, covariance, sumDt + stepDt, rp, normalize(rq), rv));
    }

    /** Appends one sample to the buffers. */
    method Record(stepDt: real, acc: Vec3, gyr: Vec3)
      modifies this`dtBuf, this`accBuf, this`gyrBuf
      ensures dtBuf == old(dtBuf) + [stepDt] && accBuf == old(accBuf) + [acc] && gyrBuf == old(gyrBuf) + [gyr]
    {
      dtBuf, accBuf, gyrBuf := dtBuf + [stepDt], accBuf + [acc], gyrBuf + [gyr];
    }

    /** push_back: records the sample in the buffers and propagates it. The state stays
        the replay of the buffers. */
    method PushBack(stepDt: real, acc: Vec3, gyr: Vec3)
      requires Valid()
      modifies this
      ensures Valid()
      ensures dtBuf == old(dtBuf) + [stepDt] && accBuf == old(accBuf) + [acc] && gyrBuf == old(gyrBuf) + [gyr]
      ensures State() == Step(normalize, noise, old(State()), stepDt, acc, gyr)
      ensures dt == stepDt && acc1 == acc && gyr1 == gyr
    {
      Record(stepDt, acc, gyr);
      Propagate(stepDt, acc, gyr);
      ReplayPush(Propagator(normalize, noise), Start(), old(dtBuf), old(accBuf), old(gyrBuf), stepDt, acc, gyr);
    }

    /** repropagate: integrates the buffered samples again from the start state at a new
        bias linearisation point; afterwards the engine is valid for that point. */
    method Repropagate(ba: Vec3, bg: Vec3)
      requires |accBuf| == |dtBuf| && |gyrBuf| == |dtBuf| && noise == Noise(params)
      modifies this`dt, this`acc1, this`gyr1, this`acc0, this`gyr0, this`linearizedBa, this`linearizedBg
      modifies this`jacobian, this`covariance, this`sumDt, this`deltaP, this`deltaQ, this`deltaV
      ensures Valid()
      ensures linearizedBa == ba && linearizedBg == bg
      ensures State() == Replay(Propagator(normalize, noise), Initial(linearizedAcc, linearizedGyr, ba, bg), dtBuf, accBuf, gyrBuf)
    {
      Store(Initial(linearizedAcc, linearizedGyr, ba, bg));
      var i := 0;
      while i < |dtBuf|
        invariant 0 <= i <= |dtBuf|
        invariant linearizedBa == ba && linearizedBg == bg
        invariant State() == Replay(Propagator(normalize, noise), Start(), dtBuf[..i], accBuf[..i], gyrBuf[..i])
      {
        ghost var s := State();
        Propagate(dtBuf[i], accBuf[i], gyrBuf[i]);
        ReplayStep(Propagator(normalize, noise), Start(), dtBuf, accBuf, gyrBuf, i);
        assert State() == Propagator(normalize, noise)(s, dtBuf[i], accBuf[i], gyrBuf[i]);
        i := i + 1;
      }
      assert dtBuf[..i] == dtBuf && accBuf[..i] == accBuf && gyrBuf[..i] == gyrBuf;
    }

    /** What every valid engine satisfies: 15×15 Jacobian and covariance, a symmetric
        covariance, sum_dt equal to the buffered time, and the Jacobian equal to the
        ordered product of the step transitions of the buffered samples. */
    lemma Consistent()
      requires Valid()
      ensures IsMat(jacobian, 15, 15) && IsMat(covariance, 15, 15) && Symmetric(covariance)
      ensures sumDt == Total(dtBuf)
      ensures jacobian == Product(Transitions(Propagator(normalize, noise), Start(), dtBuf, accBuf, gyrBuf))
    {
      InitialReplay(normalize, params, linearizedAcc, linearizedGyr, linearizedBa, linearizedBg, dtBuf, accBuf, gyrBuf);
      InitialJacobian(normalize, noise, linearizedAcc, linearizedGyr, linearizedBa, linearizedBg, dtBuf, accBuf, gyrBuf);
    }
  }
}
