/** The inertial residual factor between two frames i and j (IMUFactor): it unpacks
    the four parameter blocks, asks the pre-integration for the residual, whitens it
    with the square-root information matrix, and fills the four requested Jacobian
    buffers row-major. */
module ImuFactor {
  import opened Algebra
  import opened Integration

  /** Sizes of the four parameter blocks: pose i, speed-bias i, pose j, speed-bias j. */
  const ParameterSizes: seq<nat> := [7, 9, 7, 9]

  // ---------------------------------------------------------------------------
  // Parameter blocks
  // ---------------------------------------------------------------------------

  /** The pose block of a frame: [Px, Py, Pz, qx, qy, qz, qw]. */
  function PoseParams(f: Frame): (x: Vector)
    ensures |x| == 7
  {
    Flat(f.p) + [f.q.x, f.q.y, f.q.z, f.q.w]
  }

  /** The speed-bias block of a frame: [V, Ba, Bg]. */
  function SpeedBiasParams(f: Frame): (x: Vector)
    ensures |x| == 9
  {
    Flat(f.v) + Flat(f.ba) + Flat(f.bg)
  }

  /** The frame a pose block and a speed-bias block describe; the quaternion is built
      from (w, x, y, z) = (pose[6], pose[3], pose[4], pose[5]). */
  function FrameOf(pose: Vector, speedBias: Vector): Frame
    requires |pose| == 7 && |speedBias| == 9
  {
    Frame(Vec3(pose[0], pose[1], pose[2]),
          Quat(pose[6], pose[3], pose[4], pose[5]),
          Vec3(speedBias[0], speedBias[1], speedBias[2]),
          Vec3(speedBias[3], speedBias[4], speedBias[5]),
          Vec3(speedBias[6], speedBias[7], speedBias[8]))
  }

  /** Unpacking the blocks of a frame gives the frame back. */
  lemma UnpackPacked(f: Frame)
    ensures FrameOf(PoseParams(f), SpeedBiasParams(f)) == f
  {
    var pose, sb := PoseParams(f), SpeedBiasParams(f);
    assert pose[6] == f.q.w && pose[3] == f.q.x && pose[4] == f.q.y && pose[5] == f.q.z;
    assert sb[3] == f.ba.x && sb[6] == f.bg.x;
  }

  /** Every block pair is the packing of the frame it unpacks to: the unpacking reads
      each of the 16 numbers exactly once. */
  lemma PackUnpacked(pose: Vector, speedBias: Vector)
    requires |pose| == 7 && |speedBias| == 9
    ensures PoseParams(FrameOf(pose, speedBias)) == pose
    ensures SpeedBiasParams(FrameOf(pose, speedBias)) == speedBias
  {
    var f := FrameOf(pose, speedBias);
    assert PoseParams(f) == [pose[0], pose[1], pose[2], pose[3], pose[4], pose[5], pose[6]];
    assert SpeedBiasParams(f) == [speedBias[0], speedBias[1], speedBias[2], speedBias[3], speedBias[4],
                                  speedBias[5], speedBias[6], speedBias[7], speedBias[8]];
  }

  // ---------------------------------------------------------------------------
  // Unwhitened Jacobians, laid out in 3×3 blocks (block column q covers parameter
  // columns 3q..3q+2; a pose block's column 6 lies in block column 2)
  // ---------------------------------------------------------------------------

  /** Qi⁻¹ as a rotation matrix. */
  function RotationI(fi: Frame): Matrix
  {
    ToRotationMatrix(Inverse(fi.q))
  }

  /** Block (p, q) of the Jacobian with respect to pose i. */
  function PoseIBlock(s: Preint, g: Vec3, u: Utility, fi: Frame, fj: Frame, p: int, q: int): Matrix
  {
    if p == 0 && q == 0 then MatNeg(RotationI(fi))
    else if p == 0 && q == 1 then Block3(u.skewSymmetric(PositionGap(s.sumDt, g, fi, fj)), 0, 0)
    else if p == 1 && q == 1 then
      MatNeg(BottomRight3(MatMul(u.qLeft(QuatMul(Inverse(fj.q), fi.q)), u.qRight(CorrectedQ(s, u, fi.bg)))))
    else if p == 2 && q == 1 then Block3(u.skewSymmetric(VelocityGap(s.sumDt, g, fi, fj)), 0, 0)
    else Zero(3, 3)
  }

  /** Block (p, q) of the Jacobian with respect to speed-bias i. The rotation row uses the
      stored delta_q, not the corrected one. */
  function SpeedBiasIBlock(s: Preint, u: Utility, fi: Frame, fj: Frame, p: int, q: int): Matrix
  {
    if p == 0 && q == 0 then MatScale(s.sumDt, MatNeg(RotationI(fi)))
    else if p == 0 && q == 1 then MatNeg(Block3(s.jacobian, OP, OBA))
    else if p == 0 && q == 2 then MatNeg(Block3(s.jacobian, OP, OBG))
    else if p == 1 && q == 2 then
      MatMul(MatNeg(BottomRight3(u.qLeft(QuatMul(QuatMul(Inverse(fj.q), fi.q), s.deltaQ)))), Block3(s.jacobian, OR, OBG))
    else if p == 2 && q == 0 then MatNeg(RotationI(fi))
    else if p == 2 && q == 1 then MatNeg(Block3(s.jacobian, OV, OBA))
    else if p == 2 && q == 2 then MatNeg(Block3(s.jacobian, OV, OBG))
    else if p == 3 && q == 1 then MatNeg(Identity(3))
    else if p == 4 && q == 2 then MatNeg(Identity(3))
    else Zero(3, 3)
  }

  /** Block (p, q) of the Jacobian with respect to pose j. */
  function PoseJBlock(s: Preint, u: Utility, fi: Frame, fj: Frame, p: int, q: int): Matrix
  {
    if p == 0 && q == 0 then RotationI(fi)
    else if p == 1 && q == 1 then
      BottomRight3(u.qLeft(QuatMul(QuatMul(Inverse(CorrectedQ(s, u, fi.bg)), Inverse(fi.q)), fj.q)))
    else Zero(3, 3)
  }

  /** Block (p, q) of the Jacobian with respect to speed-bias j. */
  function SpeedBiasJBlock(fi: Frame, p: int, q: int): Matrix
  {
    if p == 2 && q == 0 then RotationI(fi)
    else if p == 3 && q == 1 then Identity(3)
    else if p == 4 && q == 2 then Identity(3)
    else Zero(3, 3)
  }

  /** Block (p, q) of the Jacobian with respect to parameter block k. */
  function JacobianBlock(k: nat, s: Preint, g: Vec3, u: Utility, fi: Frame, fj: Frame, p: int, q: int): Matrix
  {
    if k == 0 then PoseIBlock(s, g, u, fi, fj, p, q)
    else if k == 1 then SpeedBiasIBlock(s, u, fi, fj, p, q)
    else if k == 2 then PoseJBlock(s, u, fi, fj, p, q)
    else SpeedBiasJBlock(fi, p, q)
  }

  function Layout(k: nat, s: Preint, g: Vec3, u: Utility, fi: Frame, fj: Frame): (int, int) -> Matrix
  {
    (p, q) => JacobianBlock(k, s, g, u, fi, fj, p, q)
  }

  /** The four unwhitened Jacobians, in parameter-block order: a zero 15 × n matrix with
      its blocks written. */
  function Jacobian(k: nat, s: Preint, g: Vec3, u: Utility, fi: Frame, fj: Frame): (J: Matrix)
    requires k < 4
    ensures IsMat(J, 15, ParameterSizes[k])
  {
    Assemble(15, ParameterSizes[k], Layout(k, s, g, u, fi, fj))
  }

  // ---------------------------------------------------------------------------
  // Block contents and sparsity
  // ---------------------------------------------------------------------------

  /** The blocks written into the pose-i Jacobian. */
  lemma PoseIBlocks(s: Preint, g: Vec3, u: Utility, fi: Frame, fj: Frame)
    ensures var J := Jacobian(0, s, g, u, fi, fj);
      && Block3(J, OP, 0) == MatNeg(RotationI(fi))
      && Block3(J, OP, 3) == Block3(u.skewSymmetric(PositionGap(s.sumDt, g, fi, fj)), 0, 0)
      && Block3(J, OR, 3)
         == MatNeg(BottomRight3(MatMul(u.qLeft(QuatMul(Inverse(fj.q), fi.q)), u.qRight(CorrectedQ(s, u, fi.bg)))))
      && Block3(J, OV, 3) == Block3(u.skewSymmetric(VelocityGap(s.sumDt, g, fi, fj)), 0, 0)
  {
    var layout := Layout(0, s, g, u, fi, fj);
    AssembleBlock(15, 7, layout, 0, 0);
    AssembleBlock(15, 7, layout, 0, 1);
    AssembleBlock(15, 7, layout, 1, 1);
    AssembleBlock(15, 7, layout, 2, 1);
  }

  /** The position and velocity rows of the speed-bias-i Jacobian. */
  lemma SpeedBiasIBlocks(s: Preint, g: Vec3, u: Utility, fi: Frame, fj: Frame)
    ensures var J := Jacobian(1, s, g, u, fi, fj);
      && Block3(J, OP, 0) == MatScale(s.sumDt, MatNeg(RotationI(fi)))
      && Block3(J, OP, 3) == MatNeg(Block3(s.jacobian, OP, OBA))
      && Block3(J, OP, 6) == MatNeg(Block3(s.jacobian, OP, OBG))
      && Block3(J, OV, 0) == MatNeg(RotationI(fi))
      && Block3(J, OV, 3) == MatNeg(Block3(s.jacobian, OV, OBA))
      && Block3(J, OV, 6) == MatNeg(Block3(s.jacobian, OV, OBG))
  {
    var layout := Layout(1, s, g, u, fi, fj);
    AssembleBlock(15, 9, layout, 0, 0);
    AssembleBlock(15, 9, layout, 0, 1);
    AssembleBlock(15, 9, layout, 0, 2);
    AssembleBlock(15, 9, layout, 2, 0);
    AssembleBlock(15, 9, layout, 2, 1);
    AssembleBlock(15, 9, layout, 2, 2);
  }

  /** The rotation and bias rows of the speed-bias-i Jacobian: the rotation residual does
      not depend on Vi or Bai, and each bias residual moves against its own bias. */
  lemma SpeedBiasIRotationBiasBlocks(s: Preint, g: Vec3, u: Utility, fi: Frame, fj: Frame)
    ensures var J := Jacobian(1, s, g, u, fi, fj);
      && Block3(J, OR, 0) == Zero(3, 3)
      && Block3(J, OR, 3) == Zero(3, 3)
      && Block3(J, OR, 6)
         == MatMul(MatNeg(BottomRight3(u.qLeft(QuatMul(QuatMul(Inverse(fj.q), fi.q), s.deltaQ)))), Block3(s.jacobian, OR, OBG))
      && Block3(J, OBA, 3) == MatNeg(Identity(3))
      && Block3(J, OBG, 6) == MatNeg(Identity(3))
  {
    var layout := Layout(1, s, g, u, fi, fj);
    AssembleBlock(15, 9, layout, 1, 0);
    AssembleBlock(15, 9, layout, 1, 1);
    AssembleBlock(15, 9, layout, 1, 2);
    AssembleBlock(15, 9, layout, 3, 1);
    AssembleBlock(15, 9, layout, 4, 2);
  }

  /** The blocks written into the pose-j Jacobian. */
  lemma PoseJBlocks(s: Preint, g: Vec3, u: Utility, fi: Frame, fj: Frame)
    ensures var J := Jacobian(2, s, g, u, fi, fj);
      && Block3(J, OP, 0) == RotationI(fi)
      && Block3(J, OR, 3) == BottomRight3(u.qLeft(QuatMul(QuatMul(Inverse(CorrectedQ(s, u, fi.bg)), Inverse(fi.q)), fj.q)))
  {
    var layout := Layout(2, s, g, u, fi, fj);
    AssembleBlock(15, 7, layout, 0, 0);
    AssembleBlock(15, 7, layout, 1, 1);
  }

  /** The blocks written into the speed-bias-j Jacobian. */
  lemma SpeedBiasJBlocks(s: Preint, g: Vec3, u: Utility, fi: Frame, fj: Frame)
    ensures var J := Jacobian(3, s, g, u, fi, fj);
      && Block3(J, OV, 0) == RotationI(fi)
      && Block3(J, OBA, 3) == Identity(3)
      && Block3(J, OBG, 6) == Identity(3)
  {
    var layout := Layout(3, s, g, u, fi, fj);
    AssembleBlock(15, 9, layout, 2, 0);
    AssembleBlock(15, 9, layout, 3, 1);
    AssembleBlock(15, 9, layout, 4, 2);
  }

  /** Column 6 of both pose Jacobians (the quaternion's fourth parameter) is never
      written and stays zero. */
  lemma PoseColumnSixZero(s: Preint, g: Vec3, u: Utility, fi: Frame, fj: Frame, i: int)
    requires 0 <= i < 15
    ensures Get(Jacobian(0, s, g, u, fi, fj), i, 6) == 0.0
    ensures Get(Jacobian(2, s, g, u, fi, fj), i, 6) == 0.0
  {
    assert 6 / 3 == 2 && 6 % 3 == 0;
    assert PoseIBlock(s, g, u, fi, fj, i / 3, 2) == Zero(3, 3);
    assert PoseJBlock(s, u, fi, fj, i / 3, 2) == Zero(3, 3);
  }

  /** The pose-j Jacobian is zero outside its position block (O_P, P) and its rotation
      block (O_R, R). */
  lemma PoseJSparse(s: Preint, g: Vec3, u: Utility, fi: Frame, fj: Frame, i: int, j: int)
    requires 0 <= i < 15 && 0 <= j < 7
    requires !(OP <= i < OP + 3 && 0 <= j < 3) && !(OR <= i < OR + 3 && 3 <= j < 6)
    ensures Get(Jacobian(2, s, g, u, fi, fj), i, j) == 0.0
  {
    assert PoseJBlock(s, u, fi, fj, i / 3, j / 3) == Zero(3, 3);
  }

  /** The speed-bias-j Jacobian is zero outside (O_V, V), (O_BA, Ba) and (O_BG, Bg). */
  lemma SpeedBiasJSparse(s: Preint, g: Vec3, u: Utility, fi: Frame, fj: Frame, i: int, j: int)
    requires 0 <= i < 15 && 0 <= j < 9
    requires !(OV <= i < OV + 3 && 0 <= j < 3) && !(OBA <= i < OBA + 3 && 3 <= j < 6)
    requires !(OBG <= i < OBG + 3 && 6 <= j < 9)
    ensures Get(Jacobian(3, s, g, u, fi, fj), i, j) == 0.0
  {
    assert SpeedBiasJBlock(fi, i / 3, j / 3) == Zero(3, 3);
  }

  // ---------------------------------------------------------------------------
  // The linear blocks are the exact change of the residual
  // ---------------------------------------------------------------------------

  /** Moving Pj by d moves the position residual by the (O_P, P) block of the pose-j
      Jacobian times d, and nothing else. */
  lemma PoseJPositionExact(s: Preint, g: Vec3, u: Utility, fi: Frame, fj: Frame, d: Vec3)
    ensures var J, r := Jacobian(2, s, g, u, fi, fj), Integration.Evaluate(s, g, u, fi, fj);
      Integration.Evaluate(s, g, u, fi, fj.(p := VecAdd(fj.p, d))) == r.(p := VecAdd(r.p, MatVec3(Block3(J, OP, 0), d)))
  {
    ShiftPj(s, g, u, fi, fj, d);
    PoseJBlocks(s, g, u, fi, fj);
  }

  /** Moving Pi by d moves the position residual by the (O_P, P) block of the pose-i
      Jacobian times d, and nothing else. */
  lemma PoseIPositionExact(s: Preint, g: Vec3, u: Utility, fi: Frame, fj: Frame, d: Vec3)
    ensures var J, r := Jacobian(0, s, g, u, fi, fj), Integration.Evaluate(s, g, u, fi, fj);
      Integration.Evaluate(s, g, u, fi.(p := VecAdd(fi.p, d)), fj) == r.(p := VecAdd(r.p, MatVec3(Block3(J, OP, 0), d)))
  {
    ShiftPi(s, g, u, fi, fj, d);
    PoseIBlocks(s, g, u, fi, fj);
  }

  /** Moving Vi by d moves the position and velocity residuals by the velocity columns of
      the speed-bias-i Jacobian times d, and nothing else. */
  lemma SpeedBiasIVelocityExact(s: Preint, g: Vec3, u: Utility, fi: Frame, fj: Frame, d: Vec3)
    ensures var J, r := Jacobian(1, s, g, u, fi, fj), Integration.Evaluate(s, g, u, fi, fj);
      Integration.Evaluate(s, g, u, fi.(v := VecAdd(fi.v, d)), fj)
        == r.(p := VecAdd(r.p, MatVec3(Block3(J, OP, 0), d)), v := VecAdd(r.v, MatVec3(Block3(J, OV, 0), d)))
  {
    ShiftVi(s, g, u, fi, fj, d);
    SpeedBiasIBlocks(s, g, u, fi, fj);
  }

  /** Moving Vj by d moves the velocity residual by the (O_V, V) block of the
      speed-bias-j Jacobian times d, and nothing else. */
  lemma SpeedBiasJVelocityExact(s: Preint, g: Vec3, u: Utility, fi: Frame, fj: Frame, d: Vec3)
    ensures var J, r := Jacobian(3, s, g, u, fi, fj), Integration.Evaluate(s, g, u, fi, fj);
      Integration.Evaluate(s, g, u, fi, fj.(v := VecAdd(fj.v, d))) == r.(v := VecAdd(r.v, MatVec3(Block3(J, OV, 0), d)))
  {
    ShiftVj(s, g, u, fi, fj, d);
    SpeedBiasJBlocks(s, g, u, fi, fj);
  }

  /** Moving Bai by d moves the position, velocity and accelerometer-bias residuals by
      the accelerometer-bias columns of the speed-bias-i Jacobian times d. */
  lemma SpeedBiasIAccBiasExact(s: Preint, g: Vec3, u: Utility, fi: Frame, fj: Frame, d: Vec3)
    ensures var J, r := Jacobian(1, s, g, u, fi, fj), Integration.Evaluate(s, g, u, fi, fj);
      Integration.Evaluate(s, g, u, fi.(ba := VecAdd(fi.ba, d)), fj)
        == r.(p := VecAdd(r.p, MatVec3(Block3(J, OP, 3), d)),
              v := VecAdd(r.v, MatVec3(Block3(J, OV, 3), d)),
              ba := VecAdd(r.ba, MatVec3(Block3(J, OBA, 3), d)))
  {
    ShiftBai(s, g, u, fi, fj, d);
    SpeedBiasIBlocks(s, g, u, fi, fj);
    SpeedBiasIRotationBiasBlocks(s, g, u, fi, fj);
  }

  /** Moving Bgi by d moves the position, velocity and gyroscope-bias residuals by the
      gyroscope-bias columns of the speed-bias-i Jacobian times d, and leaves the
      accelerometer-bias residual alone. */
  lemma SpeedBiasIGyrBiasExact(s: Preint, g: Vec3, u: Utility, fi: Frame, fj: Frame, d: Vec3)
    ensures var J, r, r' := Jacobian(1, s, g, u, fi, fj), Integration.Evaluate(s, g, u, fi, fj),
                            Integration.Evaluate(s, g, u, fi.(bg := VecAdd(fi.bg, d)), fj);
      && r'.p == VecAdd(r.p, MatVec3(Block3(J, OP, 6), d))
      && r'.v == VecAdd(r.v, MatVec3(Block3(J, OV, 6), d))
      && r'.ba == r.ba
      && r'.bg == VecAdd(r.bg, MatVec3(Block3(J, OBG, 6), d))
  {
    ShiftBgi(s, g, u, fi, fj, d);
    SpeedBiasIBlocks(s, g, u, fi, fj);
    SpeedBiasIRotationBiasBlocks(s, g, u, fi, fj);
  }

  /** Moving Baj or Bgj by d moves the matching bias residual by the identity block of
      the speed-bias-j Jacobian times d, and nothing else. */
  lemma SpeedBiasJBiasExact(s: Preint, g: Vec3, u: Utility, fi: Frame, fj: Frame, d: Vec3)
    ensures var J, r := Jacobian(3, s, g, u, fi, fj), Integration.Evaluate(s, g, u, fi, fj);
      && Integration.Evaluate(s, g, u, fi, fj.(ba := VecAdd(fj.ba, d))) == r.(ba := VecAdd(r.ba, MatVec3(Block3(J, OBA, 3), d)))
      && Integration.Evaluate(s, g, u, fi, fj.(bg := VecAdd(fj.bg, d))) == r.(bg := VecAdd(r.bg, MatVec3(Block3(J, OBG, 6), d)))
  {
    ShiftBaj(s, g, u, fi, fj, d);
    ShiftBgj(s, g, u, fi, fj, d);
    SpeedBiasJBlocks(s, g, u, fi, fj);
  }

  // ---------------------------------------------------------------------------
  // Row-major buffers (Eigen::Map with Eigen::RowMajor)
  // ---------------------------------------------------------------------------

  /** The entries of M row after row. */
  function RowMajor(M: Matrix): Vector
  {
    if |M| == 0 then [] else M[0] + RowMajor(M[1..])
  }

  /** A rows × cols matrix fills a buffer of rows·cols entries. */
  lemma {:induction false} RowMajorLength(M: Matrix, rows: nat, cols: nat)
    requires IsMat(M, rows, cols)
    ensures |RowMajor(M)| == rows * cols
  {
    if rows > 0 {
      RowMajorLength(M[1..], rows - 1, cols);
    }
  }

  /** i·cols + j, the buffer index of entry (i, j). */
  function RowMajorIndex(i: int, j: int, rows: nat, cols: nat): (k: nat)
    requires 0 <= i < rows && 0 <= j < cols
    ensures k < rows * cols
  {
    assert (rows - i - 1) * cols >= 0;
    assert rows * cols == i * cols + cols + (rows - i - 1) * cols;
    i * cols + j
  }

  /** Entry (i, j) sits at index i·cols + j of the buffer. */
  lemma {:induction false} RowMajorAt(M: Matrix, rows: nat, cols: nat, i: int, j: int)
    requires IsMat(M, rows, cols) && 0 <= i < rows && 0 <= j < cols
    ensures |RowMajor(M)| == rows * cols
    ensures RowMajor(M)[RowMajorIndex(i, j, rows, cols)] == M[i][j]
  {
    RowMajorLength(M, rows, cols);
    if i > 0 {
      RowMajorAt(M[1..], rows - 1, cols, i - 1, j);
      assert RowMajorIndex(i, j, rows, cols) == cols + RowMajorIndex(i - 1, j, rows - 1, cols);
    }
  }

  /** The rows × cols matrix a row-major buffer holds. */
  function FromRowMajor(x: Vector, rows: nat, cols: nat): (M: Matrix)
    requires |x| == rows * cols
    ensures IsMat(M, rows, cols)
  {
    Tabulate(rows, cols, (i, j) => if 0 <= i < rows && 0 <= j < cols then x[RowMajorIndex(i, j, rows, cols)] else 0.0)
  }

  /** Reading a matrix back from its row-major buffer gives the matrix. */
  lemma RowMajorRoundTrip(M: Matrix, rows: nat, cols: nat)
    requires IsMat(M, rows, cols)
    ensures |RowMajor(M)| == rows * cols
    ensures FromRowMajor(RowMajor(M), rows, cols) == M
  {
    RowMajorLength(M, rows, cols);
    var B := FromRowMajor(RowMajor(M), rows, cols);
    forall i, j | 0 <= i < rows && 0 <= j < cols ensures Get(B, i, j) == Get(M, i, j) {
      RowMajorAt(M, rows, cols, i, j);
    }
    MatrixExt(B, M, rows, cols);
  }

  /** Writes v into the buffer a, entry by entry. */
  method Fill(a: array<real>, v: Vector)
    requires a.Length == |v|
    modifies a
    ensures a[..] == v
  {
    var k := 0;
    while k < a.Length
      invariant 0 <= k <= a.Length
      invariant a[..k] == v[..k]
    {
      a[k] := v[k];
      k := k + 1;
    }
  }

  // ---------------------------------------------------------------------------
  // The factor
  // ---------------------------------------------------------------------------

  /** The residual the factor outputs: sqrt_info times the pre-integration's residual. */
  function WhitenedResidual(sqrtInfo: Matrix, s: Preint, g: Vec3, u: Utility, fi: Frame, fj: Frame): (x: Vector)
    requires IsMat(sqrtInfo, 15, 15)
    ensures |x| == 15
  {
    MatVec(sqrtInfo, ResidualVector(Integration.Evaluate(s, g, u, fi, fj)))
  }

  /** The buffer the factor writes for parameter block k: sqrt_info times the
      unwhitened Jacobian, row-major. */
  function JacobianBuffer(k: nat, sqrtInfo: Matrix, s: Preint, g: Vec3, u: Utility, fi: Frame, fj: Frame): (x: Vector)
    requires k < 4 && IsMat(sqrtInfo, 15, 15)
    ensures |x| == 15 * ParameterSizes[k]
  {
    var W := MatMul(sqrtInfo, Jacobian(k, s, g, u, fi, fj));
    RowMajorLength(W, 15, ParameterSizes[k]);
    RowMajor(W)
  }

  /** The buffers of the requested Jacobians: an empty sequence stands for a missing
      `jacobians` array of buffers, a null entry for a block whose Jacobian is not wanted. */
  function Requested(jacobians: seq<array?<real>>): set<array<real>>
  {
    set k | 0 <= k < |jacobians| && jacobians[k] != null :: jacobians[k]
  }

  /** Entry (i, j) of the whitened Jacobian sits at index i·n + j of buffer k, n being
      the size of parameter block k. */
  lemma JacobianBufferAt(k: nat, sqrtInfo: Matrix, s: Preint, g: Vec3, u: Utility, fi: Frame, fj: Frame, i: int, j: int)
    requires k < 4 && IsMat(sqrtInfo, 15, 15) && 0 <= i < 15 && 0 <= j < ParameterSizes[k]
    ensures JacobianBuffer(k, sqrtInfo, s, g, u, fi, fj)[RowMajorIndex(i, j, 15, ParameterSizes[k])]
            == Get(MatMul(sqrtInfo, Jacobian(k, s, g, u, fi, fj)), i, j)
  {
    RowMajorAt(MatMul(sqrtInfo, Jacobian(k, s, g, u, fi, fj)), 15, ParameterSizes[k], i, j);
  }

  /** With unit information the factor outputs the pre-integration's residual and the
      unwhitened Jacobians as they are. */
  lemma UnitInformation(s: Preint, g: Vec3, u: Utility, fi: Frame, fj: Frame)
    ensures WhitenedResidual(Identity(15), s, g, u, fi, fj) == ResidualVector(Integration.Evaluate(s, g, u, fi, fj))
    ensures forall k :: 0 <= k < 4 ==> JacobianBuffer(k, Identity(15), s, g, u, fi, fj) == RowMajor(Jacobian(k, s, g, u, fi, fj))
  {
    var x := ResidualVector(Integration.Evaluate(s, g, u, fi, fj));
    var I := Identity(15);
    forall i | 0 <= i < 15 ensures MatVec(I, x)[i] == x[i] {
      DotComm(15, RowOf(I, i), VecOf(x));
      DotSingle(15, VecOf(x), RowOf(I, i), i);
    }
    assert MatVec(I, x) == x;
    forall k | 0 <= k < 4 ensures JacobianBuffer(k, I, s, g, u, fi, fj) == RowMajor(Jacobian(k, s, g, u, fi, fj)) {
      MatMulIdentityLeft(Jacobian(k, s, g, u, fi, fj), 15, ParameterSizes[k]);
    }
  }

  /** What the factor writes: the whitened residual, then the four whitened row-major
      Jacobians. */
  function Outputs(parameters: seq<Vector>, sqrtInfo: Matrix, s: Preint, g: Vec3, u: Utility): (out: seq<Vector>)
    requires |parameters| == 4 && |parameters[0]| == 7 && |parameters[1]| == 9
    requires |parameters[2]| == 7 && |parameters[3]| == 9 && IsMat(sqrtInfo, 15, 15)
    ensures |out| == 5 && |out[0]| == 15 && forall k :: 0 <= k < 4 ==> |out[k + 1]| == 15 * ParameterSizes[k]
  {
    var fi, fj := FrameOf(parameters[0], parameters[1]), FrameOf(parameters[2], parameters[3]);
    [WhitenedResidual(sqrtInfo, s, g, u, fi, fj)] + seq(4, k requires 0 <= k < 4 => JacobianBuffer(k, sqrtInfo, s, g, u, fi, fj))
  }

  /** Writes out[0] into `residuals` and out[k + 1] into each requested Jacobian buffer k. */
  method WriteBuffers(residuals: array<real>, jacobians: seq<array?<real>>, out: seq<Vector>)
    requires |out| == 5 && |out[0]| == 15 && forall k :: 0 <= k < 4 ==> |out[k + 1]| == 15 * ParameterSizes[k]
    requires residuals.Length == 15
    requires |jacobians| == 0 || |jacobians| == 4
    requires forall k :: 0 <= k < |jacobians| && jacobians[k] != null ==>
               jacobians[k].Length == 15 * ParameterSizes[k] && jacobians[k] != residuals
    requires forall k, l :: 0 <= k < l < |jacobians| && jacobians[k] != null ==> jacobians[k] != jacobians[l]
    modifies residuals, Requested(jacobians)
    ensures residuals[..] == out[0]
    ensures forall k :: 0 <= k < |jacobians| && jacobians[k] != null ==> jacobians[k][..] == out[k + 1]
  {
    Fill(residuals, out[0]);
    if |jacobians| == 4 {
      if jacobians[0] != null {
        Fill(jacobians[0], out[1]);
      }
      if jacobians[1] != null {
        Fill(jacobians[1], out[2]);
      }
      if jacobians[2] != null {
        Fill(jacobians[2], out[3]);
      }
      if jacobians[3] != null {
        Fill(jacobians[3], out[4]);
      }
    }
  }

  class IMUFactor {
    const preIntegration: IntegrationBase

    constructor (preIntegration: IntegrationBase)
      ensures this.preIntegration == preIntegration
    {
      this.preIntegration := preIntegration;
    }

    /** Evaluate: the whitened residual into `residuals` and, when `jacobians` is given,
        each requested Jacobian, whitened and row-major, into its own buffer. Always
        succeeds; the pre-integration is only read. */
    method Evaluate(parameters: seq<Vector>, residuals: array<real>, jacobians: seq<array?<real>>,
                    sqrtInfo: Matrix, g: Vec3, u: Utility) returns (ok: bool)
      requires |parameters| == 4 && |parameters[0]| == 7 && |parameters[1]| == 9
      requires |parameters[2]| == 7 && |parameters[3]| == 9
      requires residuals.Length == 15 && IsMat(sqrtInfo, 15, 15)
      requires |jacobians| == 0 || |jacobians| == 4
      requires forall k :: 0 <= k < |jacobians| && jacobians[k] != null ==>
                 jacobians[k].Length == 15 * ParameterSizes[k] && jacobians[k] != residuals
      requires forall k, l :: 0 <= k < l < |jacobians| && jacobians[k] != null ==> jacobians[k] != jacobians[l]
      modifies residuals, Requested(jacobians)
      ensures ok
      ensures residuals[..] == Outputs(parameters, sqrtInfo, preIntegration.State(), g, u)[0]
      ensures forall k :: 0 <= k < |jacobians| && jacobians[k] != null ==>
                jacobians[k][..] == Outputs(parameters, sqrtInfo, preIntegration.State(), g, u)[k + 1]
    {
      WriteBuffers(residuals, jacobians, Outputs(parameters, sqrtInfo, preIntegration.State(), g, u));
      ok := true;
    }
  }
}
