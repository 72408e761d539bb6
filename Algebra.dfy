/** Exact real linear algebra behind the pre-integration engine and the inertial
    factor: finite sums, dense matrices stored as rows of reals, 3-vectors, and
    quaternions with the formulas of the Eigen library the source is written against.
    Everything here is over `real`; no floating-point rounding is modelled.

    Entries are read through the total accessors `At` and `Get` (0 outside the
    stored range), and products are sums over the function values `RowOf`/`ColOf`,
    so the sum algebra is proved once on plain functions. */
module Algebra {

  type Vector = seq<real>
  type Matrix = seq<seq<real>>

  // ---------------------------------------------------------------------------
  // Finite sums
  // ---------------------------------------------------------------------------

  /** f(0) + f(1) + ... + f(n - 1) */
  function Sum(n: nat, f: int -> real): real
  {
    if n == 0 then 0.0 else Sum(n - 1, f) + f(n - 1)
  }

  lemma {:induction false} SumExt(n: nat, f: int -> real, g: int -> real)
    requires forall k :: 0 <= k < n ==> f(k) == g(k)
    ensures Sum(n, f) == Sum(n, g)
  {
    if n > 0 { SumExt(n - 1, f, g); }
  }

  lemma {:induction false} SumAdd(n: nat, f: int -> real, g: int -> real, h: int -> real)
    requires forall k :: 0 <= k < n ==> h(k) == f(k) + g(k)
    ensures Sum(n, h) == Sum(n, f) + Sum(n, g)
  {
    if n > 0 { SumAdd(n - 1, f, g, h); }
  }

  lemma {:induction false} SumScaleLeft(n: nat, c: real, f: int -> real, h: int -> real)
    requires forall k :: 0 <= k < n ==> h(k) == c * f(k)
    ensures Sum(n, h) == c * Sum(n, f)
  {
    if n > 0 { SumScaleLeft(n - 1, c, f, h); }
  }

  lemma {:induction false} SumScaleRight(n: nat, c: real, f: int -> real, h: int -> real)
    requires forall k :: 0 <= k < n ==> h(k) == f(k) * c
    ensures Sum(n, h) == Sum(n, f) * c
  {
    if n > 0 { SumScaleRight(n - 1, c, f, h); }
  }

  lemma {:induction false} SumZero(n: nat, f: int -> real)
    requires forall k :: 0 <= k < n ==> f(k) == 0.0
    ensures Sum(n, f) == 0.0
  {
    if n > 0 { SumZero(n - 1, f); }
  }

  /** A sum with a single possibly non-zero term is that term. */
  lemma {:induction false} SumSingle(n: nat, f: int -> real, i: int)
    requires 0 <= i < n
    requires forall k :: 0 <= k < n && k != i ==> f(k) == 0.0
    ensures Sum(n, f) == f(i)
  {
    if n - 1 == i {
      SumZero(n - 1, f);
    } else {
      SumSingle(n - 1, f, i);
    }
  }

  /** Exchanging the order of a double sum. */
  lemma {:induction false} SumSwap(n: nat, m: nat, g: (int, int) -> real)
    ensures Sum(n, i => Sum(m, j => g(i, j))) == Sum(m, j => Sum(n, i => g(i, j)))
  {
    if n == 0 {
      SumZero(m, j => Sum(n, i => g(i, j)));
    } else {
      SumSwap(n - 1, m, g);
      SumAdd(m, j => Sum(n - 1, i => g(i, j)), j => g(n - 1, j), j => Sum(n, i => g(i, j)));
    }
  }

  // ---------------------------------------------------------------------------
  // Dot products of index functions
  // ---------------------------------------------------------------------------

  /** u(0)·v(0) + ... + u(n - 1)·v(n - 1) */
  function Dot(n: nat, u: int -> real, v: int -> real): real
  {
    Sum(n, k => u(k) * v(k))
  }

  lemma DotExt(n: nat, u: int -> real, v: int -> real, u': int -> real, v': int -> real)
    requires forall k :: 0 <= k < n ==> u(k) == u'(k) && v(k) == v'(k)
    ensures Dot(n, u, v) == Dot(n, u', v')
  {
    SumExt(n, k => u(k) * v(k), k => u'(k) * v'(k));
  }

  lemma DotComm(n: nat, u: int -> real, v: int -> real)
    ensures Dot(n, u, v) == Dot(n, v, u)
  {
    SumExt(n, k => u(k) * v(k), k => v(k) * u(k));
  }

  /** A dot product against a vector with one non-zero entry picks that entry. */
  lemma DotSingle(n: nat, u: int -> real, v: int -> real, i: int)
    requires 0 <= i < n
    requires v(i) == 1.0 && forall k :: 0 <= k < n && k != i ==> v(k) == 0.0
    ensures Dot(n, u, v) == u(i)
  {
    SumSingle(n, k => u(k) * v(k), i);
  }

  /** A dot product whose terms are known one by one. */
  lemma DotAsSum(n: nat, u: int -> real, v: int -> real, h: int -> real)
    requires forall k :: 0 <= k < n ==> u(k) * v(k) == h(k)
    ensures Dot(n, u, v) == Sum(n, h)
  {
    SumExt(n, k => u(k) * v(k), h);
  }

  lemma RowTerm(n: nat, u: int -> real, v: int -> real, c: real, h: int -> real)
    requires forall k :: h(k) == u(k) * v(k) * c
    ensures Dot(n, u, v) * c == Sum(n, h)
  {
    SumScaleRight(n, c, k => u(k) * v(k), h);
  }

  lemma ColTerm(n: nat, c: real, v: int -> real, w: int -> real, h: int -> real)
    requires forall l :: h(l) == c * v(l) * w(l)
    ensures c * Dot(n, v, w) == Sum(n, h)
  {
    forall l | 0 <= l < n ensures h(l) == c * (v(l) * w(l)) {
    }
    SumScaleLeft(n, c, k => v(k) * w(k), h);
  }

  /** Σ_l F(l)·w(l) as a double sum, when F(l) = Σ_k u(k)·col(l)(k). */
  lemma RowsScaled(n: nat, m: nat, u: int -> real, w: int -> real, col: int -> int -> real, g: (int, int) -> real,
                   F: int -> real, G: int -> real)
    requires forall k, l :: g(k, l) == u(k) * col(l)(k) * w(l)
    requires forall l :: F(l) == Dot(n, u, col(l)) && G(l) == Sum(n, k => g(k, l))
    ensures Dot(m, F, w) == Sum(m, G)
  {
    forall l | 0 <= l < m
      ensures F(l) * w(l) == G(l)
    {
      RowTerm(n, u, col(l), w(l), k => g(k, l));
    }
    DotAsSum(m, F, w, G);
  }

  /** Σ_k u(k)·H(k) as a double sum, when H(k) = Σ_l row(k)(l)·w(l). */
  lemma ColsScaled(n: nat, m: nat, u: int -> real, w: int -> real, col: int -> int -> real, row: int -> int -> real,
                   g: (int, int) -> real, H: int -> real, G: int -> real)
    requires forall k, l :: col(l)(k) == row(k)(l)
    requires forall k, l :: g(k, l) == u(k) * col(l)(k) * w(l)
    requires forall k :: H(k) == Dot(m, row(k), w) && G(k) == Sum(m, l => g(k, l))
    ensures Dot(n, u, H) == Sum(n, G)
  {
    forall k | 0 <= k < n
      ensures u(k) * H(k) == G(k)
    {
      ColTerm(m, u(k), row(k), w, l => g(k, l));
    }
    DotAsSum(n, u, H, G);
  }

  /** Σ_l (Σ_k u_k·b_kl)·w_l == Σ_k u_k·(Σ_l b_kl·w_l), for b given by its columns and by its rows. */
  lemma DotAssoc(n: nat, m: nat, u: int -> real, w: int -> real, col: int -> int -> real, row: int -> int -> real)
    requires forall k, l :: col(l)(k) == row(k)(l)
    ensures Dot(m, l => Dot(n, u, col(l)), w) == Dot(n, u, k => Dot(m, row(k), w))
  {
    var g := (k, l) => u(k) * col(l)(k) * w(l);
    RowsScaled(n, m, u, w, col, g, l => Dot(n, u, col(l)), l => Sum(n, k => g(k, l)));
    ColsScaled(n, m, u, w, col, row, g, k => Dot(m, row(k), w), k => Sum(m, l => g(k, l)));
    SumSwap(n, m, g);
  }

  // ---------------------------------------------------------------------------
  // Vectors
  // ---------------------------------------------------------------------------

  /** Entry k of v, and 0 outside v. */
  function At(v: Vector, k: int): real
  {
    if 0 <= k < |v| then v[k] else 0.0
  }

  function VecOf(v: Vector): int -> real
  {
    k => At(v, k)
  }

  /** An Eigen `Vector3d`, with its entries (0), (1), (2) named x, y, z. */
  datatype Vec3 = Vec3(x: real, y: real, z: real)

  const Zero3: Vec3 := Vec3(0.0, 0.0, 0.0)

  /** The entries of v as a plain vector. */
  function Flat(v: Vec3): (s: Vector)
    ensures |s| == 3
  {
    [v.x, v.y, v.z]
  }

  function VecAdd(u: Vec3, v: Vec3): Vec3
  {
    Vec3(u.x + v.x, u.y + v.y, u.z + v.z)
  }

  function VecSub(u: Vec3, v: Vec3): Vec3
  {
    Vec3(u.x - v.x, u.y - v.y, u.z - v.z)
  }

  function VecScale(c: real, v: Vec3): Vec3
  {
    Vec3(c * v.x, c * v.y, c * v.z)
  }

  function VecNeg(v: Vec3): Vec3
  {
    Vec3(-v.x, -v.y, -v.z)
  }

  /** The vector cross product u × v. */
  function Cross(u: Vec3, v: Vec3): Vec3
  {
    Vec3(u.y * v.z - u.z * v.y, u.z * v.x - u.x * v.z, u.x * v.y - u.y * v.x)
  }

  // ---------------------------------------------------------------------------
  // Matrices
  // ---------------------------------------------------------------------------

  /** M has `rows` rows, each of `cols` entries. */
  predicate IsMat(M: Matrix, rows: nat, cols: nat)
  {
    |M| == rows && forall i :: 0 <= i < rows ==> |M[i]| == cols
  }

  /** The number of columns of a matrix (0 for a matrix without rows). */
  function Cols(M: Matrix): nat
  {
    if |M| == 0 then 0 else |M[0]|
  }

  /** Entry (i, j) of M, and 0 outside M. */
  function Get(M: Matrix, i: int, j: int): real
  {
    if 0 <= i < |M| && 0 <= j < |M[i]| then M[i][j] else 0.0
  }

  function RowOf(M: Matrix, i: int): int -> real
  {
    k => Get(M, i, k)
  }

  function ColOf(M: Matrix, j: int): int -> real
  {
    k => Get(M, k, j)
  }

  /** Two matrices of one shape with equal entries are equal. */
  lemma MatrixExt(A: Matrix, B: Matrix, rows: nat, cols: nat)
    requires IsMat(A, rows, cols) && IsMat(B, rows, cols)
    requires forall i, j :: 0 <= i < rows && 0 <= j < cols ==> Get(A, i, j) == Get(B, i, j)
    ensures A == B
  {
    forall i | 0 <= i < rows ensures A[i] == B[i] {
      forall j | 0 <= j < cols ensures A[i][j] == B[i][j] {
        assert Get(A, i, j) == Get(B, i, j);
      }
    }
  }

  /** The rows × cols matrix whose entries are f(i, j). */
  function Tabulate(rows: nat, cols: nat, f: (int, int) -> real): (M: Matrix)
    ensures IsMat(M, rows, cols)
    ensures forall i, j :: 0 <= i < rows && 0 <= j < cols ==> Get(M, i, j) == f(i, j)
  {
    seq(rows, i => seq(cols, j => f(i, j)))
  }

  function Zero(rows: nat, cols: nat): (Z: Matrix)
    ensures IsMat(Z, rows, cols)
    ensures forall i, j :: Get(Z, i, j) == 0.0
  {
    seq(rows, i => seq(cols, j => 0.0))
  }

  function Identity(n: nat): (I: Matrix)
    ensures IsMat(I, n, n)
    ensures forall i, j :: 0 <= i < n && 0 <= j < n ==> Get(I, i, j) == if i == j then 1.0 else 0.0
  {
    seq(n, i => seq(n, j => if i == j then 1.0 else 0.0))
  }

  function MatAdd(A: Matrix, B: Matrix): (C: Matrix)
    ensures IsMat(C, |A|, Cols(A))
    ensures forall i, j :: 0 <= i < |A| && 0 <= j < Cols(A) ==> Get(C, i, j) == Get(A, i, j) + Get(B, i, j)
  {
    seq(|A|, i => seq(Cols(A), j => Get(A, i, j) + Get(B, i, j)))
  }

  function MatSub(A: Matrix, B: Matrix): (C: Matrix)
    ensures IsMat(C, |A|, Cols(A))
    ensures forall i, j :: 0 <= i < |A| && 0 <= j < Cols(A) ==> Get(C, i, j) == Get(A, i, j) - Get(B, i, j)
  {
    seq(|A|, i => seq(Cols(A), j => Get(A, i, j) - Get(B, i, j)))
  }

  function MatScale(c: real, A: Matrix): (C: Matrix)
    ensures IsMat(C, |A|, Cols(A))
    ensures forall i, j :: 0 <= i < |A| && 0 <= j < Cols(A) ==> Get(C, i, j) == c * Get(A, i, j)
  {
    seq(|A|, i => seq(Cols(A), j => c * Get(A, i, j)))
  }

  function MatNeg(A: Matrix): (C: Matrix)
    ensures IsMat(C, |A|, Cols(A))
    ensures forall i, j :: 0 <= i < |A| && 0 <= j < Cols(A) ==> Get(C, i, j) == -Get(A, i, j)
  {
    seq(|A|, i => seq(Cols(A), j => -Get(A, i, j)))
  }

  /** Entry (i, j) of the product A·B: row i of A against column j of B. */
  function MulEntry(A: Matrix, B: Matrix, i: int, j: int): real
  {
    Dot(|B|, RowOf(A, i), ColOf(B, j))
  }

  function MatMul(A: Matrix, B: Matrix): (C: Matrix)
    ensures IsMat(C, |A|, Cols(B))
  {
    seq(|A|, i => seq(Cols(B), j => MulEntry(A, B, i, j)))
  }

  lemma GetMul(A: Matrix, B: Matrix, i: int, j: int)
    requires 0 <= i < |A| && 0 <= j < Cols(B)
    ensures Get(MatMul(A, B), i, j) == MulEntry(A, B, i, j)
  {
  }

  function Transpose(M: Matrix): (T: Matrix)
    ensures IsMat(T, Cols(M), |M|)
  {
    seq(Cols(M), i => seq(|M|, j => Get(M, j, i)))
  }

  lemma GetTranspose(M: Matrix, i: int, j: int)
    requires IsMat(M, |M|, Cols(M))
    ensures Get(Transpose(M), i, j) == Get(M, j, i)
  {
  }

  /** M·v */
  function MatVec(M: Matrix, v: Vector): (w: Vector)
    ensures |w| == |M|
  {
    seq(|M|, i => Dot(|v|, RowOf(M, i), VecOf(v)))
  }

  /** The 3×3 block of M whose top-left corner is (r, c): Eigen's `M.block<3, 3>(r, c)`. */
  function Block3(M: Matrix, r: int, c: int): (B: Matrix)
    ensures IsMat(B, 3, 3)
    ensures forall a, b :: 0 <= a < 3 && 0 <= b < 3 ==> Get(B, a, b) == Get(M, r + a, c + b)
  {
    seq(3, a => seq(3, b => Get(M, r + a, c + b)))
  }

  /** The bottom-right 3×3 corner of a 4×4 matrix (Eigen's `bottomRightCorner<3, 3>()`). */
  function BottomRight3(M: Matrix): (B: Matrix)
    ensures IsMat(B, 3, 3)
    ensures forall a, b :: 0 <= a < 3 && 0 <= b < 3 ==> Get(B, a, b) == Get(M, a + 1, b + 1)
  {
    Block3(M, 1, 1)
  }

  /** A rows × cols matrix laid out in 3×3 blocks: block (p, q) covers rows 3p..3p+2 and
      columns 3q..3q+2 and holds the 3×3 matrix blk(p, q). This is a zero matrix
      followed by Eigen `block<3, 3>(3p, 3q) = …` assignments, one per block. */
  function Assemble(rows: nat, cols: nat, blk: (int, int) -> Matrix): (M: Matrix)
    ensures IsMat(M, rows, cols)
    ensures forall i, j :: 0 <= i < rows && 0 <= j < cols ==> Get(M, i, j) == Get(blk(i / 3, j / 3), i % 3, j % 3)
  {
    seq(rows, i => seq(cols, j => Get(blk(i / 3, j / 3), i % 3, j % 3)))
  }

  /** Reading back a block of an assembled matrix gives the block that was written. */
  lemma AssembleBlock(rows: nat, cols: nat, blk: (int, int) -> Matrix, p: nat, q: nat)
    requires 3 * p + 3 <= rows && 3 * q + 3 <= cols
    requires IsMat(blk(p, q), 3, 3)
    ensures Block3(Assemble(rows, cols, blk), 3 * p, 3 * q) == blk(p, q)
  {
    var M := Assemble(rows, cols, blk);
    forall a, b | 0 <= a < 3 && 0 <= b < 3
      ensures Get(Block3(M, 3 * p, 3 * q), a, b) == Get(blk(p, q), a, b)
    {
      assert (3 * p + a) / 3 == p && (3 * p + a) % 3 == a;
      assert (3 * q + b) / 3 == q && (3 * q + b) % 3 == b;
    }
    MatrixExt(Block3(M, 3 * p, 3 * q), blk(p, q), 3, 3);
  }

  /** Square and equal to its own transpose. */
  predicate Symmetric(M: Matrix)
  {
    IsMat(M, |M|, |M|) && forall i, j :: 0 <= i < |M| && 0 <= j < |M| ==> Get(M, i, j) == Get(M, j, i)
  }

  // ---------------------------------------------------------------------------
  // Matrix lemmas
  // ---------------------------------------------------------------------------

  lemma MulEntryAssoc(A: Matrix, B: Matrix, C: Matrix, i: int, j: int)
    requires Cols(A) == |B| && Cols(B) == |C|
    requires 0 <= i < |A| && 0 <= j < Cols(C)
    ensures MulEntry(MatMul(A, B), C, i, j) == MulEntry(A, MatMul(B, C), i, j)
  {
    var col := l => ColOf(B, l);
    var row := k => RowOf(B, k);
    forall l | 0 <= l < |C| ensures RowOf(MatMul(A, B), i)(l) == (l => Dot(|B|, RowOf(A, i), col(l)))(l) {
      GetMul(A, B, i, l);
    }
    DotExt(|C|, RowOf(MatMul(A, B), i), ColOf(C, j), l => Dot(|B|, RowOf(A, i), col(l)), ColOf(C, j));
    forall k | 0 <= k < |B| ensures ColOf(MatMul(B, C), j)(k) == (k => Dot(|C|, row(k), ColOf(C, j)))(k) {
      GetMul(B, C, k, j);
    }
    DotExt(|B|, RowOf(A, i), ColOf(MatMul(B, C), j), RowOf(A, i), k => Dot(|C|, row(k), ColOf(C, j)));
    DotAssoc(|B|, |C|, RowOf(A, i), ColOf(C, j), col, row);
  }

  /** Matrix multiplication is associative. */
  lemma MatMulAssoc(A: Matrix, B: Matrix, C: Matrix)
    requires Cols(A) == |B| && Cols(B) == |C|
    ensures MatMul(MatMul(A, B), C) == MatMul(A, MatMul(B, C))
  {
    var L, R := MatMul(MatMul(A, B), C), MatMul(A, MatMul(B, C));
    forall i, j | 0 <= i < |A| && 0 <= j < Cols(C) ensures Get(L, i, j) == Get(R, i, j) {
      MulEntryAssoc(A, B, C, i, j);
    }
    MatrixExt(L, R, |A|, Cols(C));
  }

  lemma MatMulIdentityLeft(B: Matrix, n: nat, m: nat)
    requires IsMat(B, n, m)
    ensures MatMul(Identity(n), B) == B
  {
    var I := Identity(n);
    forall i, j | 0 <= i < n && 0 <= j < m ensures Get(MatMul(I, B), i, j) == Get(B, i, j) {
      GetMul(I, B, i, j);
      DotComm(n, RowOf(I, i), ColOf(B, j));
      DotSingle(n, ColOf(B, j), RowOf(I, i), i);
    }
    MatrixExt(MatMul(I, B), B, n, m);
  }

  lemma MatMulIdentityRight(A: Matrix, r: nat, n: nat)
    requires IsMat(A, r, n)
    ensures MatMul(A, Identity(n)) == A
  {
    var I := Identity(n);
    forall i, j | 0 <= i < r && 0 <= j < n ensures Get(MatMul(A, I), i, j) == Get(A, i, j) {
      GetMul(A, I, i, j);
      DotSingle(n, RowOf(A, i), ColOf(I, j), j);
    }
    MatrixExt(MatMul(A, I), A, r, n);
  }

  /** (A·B)ᵀ == Bᵀ·Aᵀ */
  lemma TransposeOfProduct(A: Matrix, B: Matrix, r: nat, n: nat, m: nat)
    requires IsMat(A, r, n) && IsMat(B, n, m) && r > 0 && n > 0
    ensures Transpose(MatMul(A, B)) == MatMul(Transpose(B), Transpose(A))
  {
    var L, R := Transpose(MatMul(A, B)), MatMul(Transpose(B), Transpose(A));
    forall i, j | 0 <= i < m && 0 <= j < r ensures Get(L, i, j) == Get(R, i, j) {
      GetTranspose(MatMul(A, B), i, j);
      GetMul(A, B, j, i);
      GetMul(Transpose(B), Transpose(A), i, j);
      forall k | 0 <= k < n
        ensures RowOf(Transpose(B), i)(k) == ColOf(B, i)(k) && ColOf(Transpose(A), j)(k) == RowOf(A, j)(k)
      {
        GetTranspose(B, i, k);
        GetTranspose(A, k, j);
      }
      DotExt(n, RowOf(Transpose(B), i), ColOf(Transpose(A), j), ColOf(B, i), RowOf(A, j));
      DotComm(n, ColOf(B, i), RowOf(A, j));
    }
    MatrixExt(L, R, m, r);
  }

  lemma TransposeTwice(M: Matrix, r: nat, c: nat)
    requires IsMat(M, r, c) && r > 0 && c > 0
    ensures Transpose(Transpose(M)) == M
  {
    forall i, j | 0 <= i < r && 0 <= j < c ensures Get(Transpose(Transpose(M)), i, j) == Get(M, i, j) {
      GetTranspose(Transpose(M), i, j);
      GetTranspose(M, j, i);
    }
    MatrixExt(Transpose(Transpose(M)), M, r, c);
  }

  lemma SymmetricTranspose(M: Matrix)
    requires Symmetric(M)
    ensures Transpose(M) == M
  {
    forall i, j | 0 <= i < |M| && 0 <= j < |M| ensures Get(Transpose(M), i, j) == Get(M, i, j) {
      GetTranspose(M, i, j);
    }
    MatrixExt(Transpose(M), M, |M|, |M|);
  }

  lemma TransposeSymmetric(M: Matrix)
    requires IsMat(M, |M|, |M|) && Transpose(M) == M
    ensures Symmetric(M)
  {
    forall i, j | 0 <= i < |M| && 0 <= j < |M| ensures Get(M, i, j) == Get(M, j, i) {
      GetTranspose(M, i, j);
    }
  }

  /** F·C·Fᵀ is symmetric whenever C is: the form of every covariance update. */
  lemma SandwichSymmetric(F: Matrix, C: Matrix, r: nat, n: nat)
    requires IsMat(F, r, n) && r > 0 && n > 0
    requires Symmetric(C) && |C| == n
    ensures Symmetric(MatMul(MatMul(F, C), Transpose(F)))
  {
    var FC := MatMul(F, C);
    var X := MatMul(FC, Transpose(F));
    TransposeOfProduct(FC, Transpose(F), r, n, r);
    TransposeTwice(F, r, n);
    TransposeOfProduct(F, C, r, n, n);
    SymmetricTranspose(C);
    MatMulAssoc(F, C, Transpose(F));
    calc {
      Transpose(X);
      MatMul(F, Transpose(FC));
      MatMul(F, MatMul(C, Transpose(F)));
      X;
    }
    TransposeSymmetric(X);
  }

  lemma SymmetricAdd(A: Matrix, B: Matrix)
    requires Symmetric(A) && Symmetric(B) && |A| == |B|
    ensures Symmetric(MatAdd(A, B))
  {
  }

  /** The skew-symmetric matrix [w]× laid out as at integration_base.h:107-115. */
  function Skew(w: Vec3): (S: Matrix)
    ensures IsMat(S, 3, 3)
  {
    [[0.0, -w.z, w.y],
     [w.z, 0.0, -w.x],
     [-w.y, w.x, 0.0]]
  }

  /** M·v for a 3×3 matrix M (the product of a `Matrix3d` and a `Vector3d`). */
  function MatVec3(M: Matrix, v: Vec3): Vec3
  {
    Vec3(RowTimes(Get(M, 0, 0), Get(M, 0, 1), Get(M, 0, 2), v),
         RowTimes(Get(M, 1, 0), Get(M, 1, 1), Get(M, 1, 2), v),
         RowTimes(Get(M, 2, 0), Get(M, 2, 1), Get(M, 2, 2), v))
  }

  /** The row (a, b, c) times v. */
  function RowTimes(a: real, b: real, c: real, v: Vec3): real
  {
    a * v.x + b * v.y + c * v.z
  }

  /** [w]×·v == w × v */
  lemma SkewIsCross(w: Vec3, v: Vec3)
    ensures MatVec3(Skew(w), v) == Cross(w, v)
  {
  }

  lemma MatVec3Add(M: Matrix, u: Vec3, v: Vec3)
    ensures MatVec3(M, VecAdd(u, v)) == VecAdd(MatVec3(M, u), MatVec3(M, v))
  {
    RowTimesAdd(Get(M, 0, 0), Get(M, 0, 1), Get(M, 0, 2), u, v);
    RowTimesAdd(Get(M, 1, 0), Get(M, 1, 1), Get(M, 1, 2), u, v);
    RowTimesAdd(Get(M, 2, 0), Get(M, 2, 1), Get(M, 2, 2), u, v);
  }

  lemma RowTimesAdd(a: real, b: real, c: real, u: Vec3, v: Vec3)
    ensures RowTimes(a, b, c, VecAdd(u, v)) == RowTimes(a, b, c, u) + RowTimes(a, b, c, v)
  {
  }

  lemma MatVec3Zero(M: Matrix)
    ensures MatVec3(M, Zero3) == Zero3
  {
  }

  lemma MatVec3Neg(M: Matrix, v: Vec3)
    requires IsMat(M, 3, 3)
    ensures MatVec3(MatNeg(M), v) == VecNeg(MatVec3(M, v))
    ensures MatVec3(M, VecNeg(v)) == VecNeg(MatVec3(M, v))
  {
  }

  /** (c·M)·v == M·(c·v) */
  lemma MatVec3Scale(c: real, M: Matrix, v: Vec3)
    requires IsMat(M, 3, 3)
    ensures MatVec3(MatScale(c, M), v) == MatVec3(M, VecScale(c, v))
  {
    assert Cols(M) == 3;
    var S := MatScale(c, M);
    ScaledRow(c, M, S, 0, v);
    ScaledRow(c, M, S, 1, v);
    ScaledRow(c, M, S, 2, v);
  }

  lemma ScaledRow(c: real, M: Matrix, S: Matrix, i: int, v: Vec3)
    requires IsMat(M, 3, 3) && S == MatScale(c, M) && 0 <= i < 3
    ensures RowTimes(Get(S, i, 0), Get(S, i, 1), Get(S, i, 2), v)
         == RowTimes(Get(M, i, 0), Get(M, i, 1), Get(M, i, 2), VecScale(c, v))
  {
    assert Cols(M) == 3;
    RowTimesScale(c, Get(M, i, 0), Get(M, i, 1), Get(M, i, 2), Get(S, i, 0), Get(S, i, 1), Get(S, i, 2), v);
  }

  lemma RowTimesScale(c: real, a: real, b: real, d: real, a': real, b': real, d': real, v: Vec3)
    requires a' == c * a && b' == c * b && d' == c * d
    ensures RowTimes(a', b', d', v) == RowTimes(a, b, d, VecScale(c, v))
  {
  }

  lemma MatVec3Identity(v: Vec3)
    ensures MatVec3(Identity(3), v) == v
  {
  }

  // ---------------------------------------------------------------------------
  // Quaternions, as Eigen::Quaterniond computes them
  // ---------------------------------------------------------------------------

  /** w + x·i + y·j + z·k; Eigen's constructor takes (w, x, y, z) in this order. */
  datatype Quat = Quat(w: real, x: real, y: real, z: real)

  const QuatIdentity: Quat := Quat(1.0, 0.0, 0.0, 0.0)

  /** The Hamilton product a·b. */
  function QuatMul(a: Quat, b: Quat): Quat
  {
    Quat(a.w * b.w - a.x * b.x - a.y * b.y - a.z * b.z,
         a.w * b.x + a.x * b.w + a.y * b.z - a.z * b.y,
         a.w * b.y + a.y * b.w + a.z * b.x - a.x * b.z,
         a.w * b.z + a.z * b.w + a.x * b.y - a.y * b.x)
  }

  function SquaredNorm(q: Quat): real
  {
    q.w * q.w + q.x * q.x + q.y * q.y + q.z * q.z
  }

  /** Eigen's `inverse()`: the conjugate over the squared norm, and the zero
      quaternion for a zero input. */
  function Inverse(q: Quat): Quat
  {
    var n2 := SquaredNorm(q);
    if n2 > 0.0 then Quat(q.w / n2, -q.x / n2, -q.y / n2, -q.z / n2) else Quat(0.0, 0.0, 0.0, 0.0)
  }

  /** Eigen's `vec()`: the imaginary part. */
  function VecPart(q: Quat): Vec3
  {
    Vec3(q.x, q.y, q.z)
  }

  /** Eigen's `q * v` for a 3-vector v: with uv = 2·(vec × v), the result is
      v + w·uv + vec × uv, written out entry by entry. */
  function Rotate(q: Quat, v: Vec3): Vec3
  {
    var w, x, y, z, a, b, c := q.w, q.x, q.y, q.z, v.x, v.y, v.z;
    var u0, u1, u2 := 2.0 * (y * c - z * b), 2.0 * (z * a - x * c), 2.0 * (x * b - y * a);
    Vec3((a + w * u0) + (y * u2 - z * u1),
         (b + w * u1) + (z * u0 - x * u2),
         (c + w * u2) + (x * u1 - y * u0))
  }

  /** Eigen's `toRotationMatrix()`, whose products tx·y, tz·w, … (with tx = 2x, ty = 2y,
      tz = 2z) are written 2.0 * x * y, 2.0 * z * w, … */
  function ToRotationMatrix(q: Quat): (R: Matrix)
    ensures IsMat(R, 3, 3)
  {
    var w, x, y, z := q.w, q.x, q.y, q.z;
    [[1.0 - (2.0 * y * y + 2.0 * z * z), 2.0 * y * x - 2.0 * z * w, 2.0 * z * x + 2.0 * y * w],
     [2.0 * y * x + 2.0 * z * w, 1.0 - (2.0 * x * x + 2.0 * z * z), 2.0 * z * y - 2.0 * x * w],
     [2.0 * z * x - 2.0 * y * w, 2.0 * z * y + 2.0 * x * w, 1.0 - (2.0 * x * x + 2.0 * y * y)]]
  }

  lemma QuatMulIdentityRight(q: Quat)
    ensures QuatMul(q, QuatIdentity) == q
  {
  }

  lemma QuatMulIdentityLeft(q: Quat)
    ensures QuatMul(QuatIdentity, q) == q
  {
  }

  /** A non-zero quaternion times its inverse is the identity, on either side. */
  lemma InverseIsInverse(q: Quat)
    requires SquaredNorm(q) > 0.0
    ensures QuatMul(q, Inverse(q)) == QuatIdentity
    ensures QuatMul(Inverse(q), q) == QuatIdentity
  {
    var n2 := SquaredNorm(q);
    var c := 1.0 / n2;
    assert n2 * c == 1.0;
    var p := Inverse(q);
    assert p == Quat(q.w * c, -q.x * c, -q.y * c, -q.z * c);
    assert QuatMul(q, p).w == n2 * c;
    assert QuatMul(p, q).w == n2 * c;
  }

  /** The Hamilton product is associative. */
  lemma QuatMulAssoc(a: Quat, b: Quat, c: Quat)
    ensures QuatMul(QuatMul(a, b), c) == QuatMul(a, QuatMul(b, c))
  {
    var ab, bc := QuatMul(a, b), QuatMul(b, c);
    AssocEntryW(a, b, c, ab, bc);
    AssocEntryX(a, b, c, ab, bc);
    AssocEntryY(a, b, c, ab, bc);
    AssocEntryZ(a, b, c, ab, bc);
    assert QuatMul(ab, c) == QuatMul(a, bc);
  }

  // Each entry of the law, for p = a·b and q = b·c: first over quaternions, then over
  // the reals with the inner products passed in, then written out as a polynomial
  // identity.

  lemma AssocEntryW(a: Quat, b: Quat, c: Quat, p: Quat, q: Quat)
    requires p == QuatMul(a, b) && q == QuatMul(b, c)
    ensures QuatMul(p, c).w == QuatMul(a, q).w
  {
    QuatMulEntries(a, b);
    QuatMulEntries(b, c);
    QuatMulEntries(p, c);
    QuatMulEntries(a, q);
    AssocRealW(a.w, a.x, a.y, a.z, b.w, b.x, b.y, b.z, c.w, c.x, c.y, c.z,
               p.w, p.x, p.y, p.z, q.w, q.x, q.y, q.z);
  }

  lemma AssocRealW(a0: real, a1: real, a2: real, a3: real, b0: real, b1: real, b2: real, b3: real,
                   c0: real, c1: real, c2: real, c3: real,
                   p0: real, p1: real, p2: real, p3: real, q0: real, q1: real, q2: real, q3: real)
    requires p0 == a0 * b0 - a1 * b1 - a2 * b2 - a3 * b3 && p1 == a0 * b1 + a1 * b0 + a2 * b3 - a3 * b2
    requires p2 == a0 * b2 + a2 * b0 + a3 * b1 - a1 * b3 && p3 == a0 * b3 + a3 * b0 + a1 * b2 - a2 * b1
    requires q0 == b0 * c0 - b1 * c1 - b2 * c2 - b3 * c3 && q1 == b0 * c1 + b1 * c0 + b2 * c3 - b3 * c2
    requires q2 == b0 * c2 + b2 * c0 + b3 * c1 - b1 * c3 && q3 == b0 * c3 + b3 * c0 + b1 * c2 - b2 * c1
    ensures p0 * c0 - p1 * c1 - p2 * c2 - p3 * c3 == a0 * q0 - a1 * q1 - a2 * q2 - a3 * q3
  {
    AssocW(a0, a1, a2, a3, b0, b1, b2, b3, c0, c1, c2, c3);
  }

  lemma AssocEntryX(a: Quat, b: Quat, c: Quat, p: Quat, q: Quat)
    requires p == QuatMul(a, b) && q == QuatMul(b, c)
    ensures QuatMul(p, c).x == QuatMul(a, q).x
  {
    QuatMulEntries(a, b);
    QuatMulEntries(b, c);
    QuatMulEntries(p, c);
    QuatMulEntries(a, q);
    AssocRealX(a.w, a.x, a.y, a.z, b.w, b.x, b.y, b.z, c.w, c.x, c.y, c.z,
               p.w, p.x, p.y, p.z, q.w, q.x, q.y, q.z);
  }

  lemma AssocRealX(a0: real, a1: real, a2: real, a3: real, b0: real, b1: real, b2: real, b3: real,
                   c0: real, c1: real, c2: real, c3: real,
                   p0: real, p1: real, p2: real, p3: real, q0: real, q1: real, q2: real, q3: real)
    requires p0 == a0 * b0 - a1 * b1 - a2 * b2 - a3 * b3 && p1 == a0 * b1 + a1 * b0 + a2 * b3 - a3 * b2
    requires p2 == a0 * b2 + a2 * b0 + a3 * b1 - a1 * b3 && p3 == a0 * b3 + a3 * b0 + a1 * b2 - a2 * b1
    requires q0 == b0 * c0 - b1 * c1 - b2 * c2 - b3 * c3 && q1 == b0 * c1 + b1 * c0 + b2 * c3 - b3 * c2
    requires q2 == b0 * c2 + b2 * c0 + b3 * c1 - b1 * c3 && q3 == b0 * c3 + b3 * c0 + b1 * c2 - b2 * c1
    ensures p0 * c1 + p1 * c0 + p2 * c3 - p3 * c2 == a0 * q1 + a1 * q0 + a2 * q3 - a3 * q2
  {
    AssocX(a0, a1, a2, a3, b0, b1, b2, b3, c0, c1, c2, c3);
  }

  lemma AssocEntryY(a: Quat, b: Quat, c: Quat, p: Quat, q: Quat)
    requires p == QuatMul(a, b) && q == QuatMul(b, c)
    ensures QuatMul(p, c).y == QuatMul(a, q).y
  {
    QuatMulEntries(a, b);
    QuatMulEntries(b, c);
    QuatMulEntries(p, c);
    QuatMulEntries(a, q);
    AssocRealY(a.w, a.x, a.y, a.z, b.w, b.x, b.y, b.z, c.w, c.x, c.y, c.z,
               p.w, p.x, p.y, p.z, q.w, q.x, q.y, q.z);
  }

  lemma AssocRealY(a0: real, a1: real, a2: real, a3: real, b0: real, b1: real, b2: real, b3: real,
                   c0: real, c1: real, c2: real, c3: real,
                   p0: real, p1: real, p2: real, p3: real, q0: real, q1: real, q2: real, q3: real)
    requires p0 == a0 * b0 - a1 * b1 - a2 * b2 - a3 * b3 && p1 == a0 * b1 + a1 * b0 + a2 * b3 - a3 * b2
    requires p2 == a0 * b2 + a2 * b0 + a3 * b1 - a1 * b3 && p3 == a0 * b3 + a3 * b0 + a1 * b2 - a2 * b1
    requires q0 == b0 * c0 - b1 * c1 - b2 * c2 - b3 * c3 && q1 == b0 * c1 + b1 * c0 + b2 * c3 - b3 * c2
    requires q2 == b0 * c2 + b2 * c0 + b3 * c1 - b1 * c3 && q3 == b0 * c3 + b3 * c0 + b1 * c2 - b2 * c1
    ensures p0 * c2 + p2 * c0 + p3 * c1 - p1 * c3 == a0 * q2 + a2 * q0 + a3 * q1 - a1 * q3
  {
    AssocY(a0, a1, a2, a3, b0, b1, b2, b3, c0, c1, c2, c3);
  }

  lemma AssocEntryZ(a: Quat, b: Quat, c: Quat, p: Quat, q: Quat)
    requires p == QuatMul(a, b) && q == QuatMul(b, c)
    ensures QuatMul(p, c).z == QuatMul(a, q).z
  {
    QuatMulEntries(a, b);
    QuatMulEntries(b, c);
    QuatMulEntries(p, c);
    QuatMulEntries(a, q);
    AssocRealZ(a.w, a.x, a.y, a.z, b.w, b.x, b.y, b.z, c.w, c.x, c.y, c.z,
               p.w, p.x, p.y, p.z, q.w, q.x, q.y, q.z);
  }

  lemma AssocRealZ(a0: real, a1: real, a2: real, a3: real, b0: real, b1: real, b2: real, b3: real,
                   c0: real, c1: real, c2: real, c3: real,
                   p0: real, p1: real, p2: real, p3: real, q0: real, q1: real, q2: real, q3: real)
    requires p0 == a0 * b0 - a1 * b1 - a2 * b2 - a3 * b3 && p1 == a0 * b1 + a1 * b0 + a2 * b3 - a3 * b2
    requires p2 == a0 * b2 + a2 * b0 + a3 * b1 - a1 * b3 && p3 == a0 * b3 + a3 * b0 + a1 * b2 - a2 * b1
    requires q0 == b0 * c0 - b1 * c1 - b2 * c2 - b3 * c3 && q1 == b0 * c1 + b1 * c0 + b2 * c3 - b3 * c2
    requires q2 == b0 * c2 + b2 * c0 + b3 * c1 - b1 * c3 && q3 == b0 * c3 + b3 * c0 + b1 * c2 - b2 * c1
    ensures p0 * c3 + p3 * c0 + p1 * c2 - p2 * c1 == a0 * q3 + a3 * q0 + a1 * q2 - a2 * q1
  {
    AssocZ(a0, a1, a2, a3, b0, b1, b2, b3, c0, c1, c2, c3);
  }

  lemma AssocW(a0: real, a1: real, a2: real, a3: real, b0: real, b1: real, b2: real, b3: real,
               c0: real, c1: real, c2: real, c3: real)
    ensures (a0 * b0 - a1 * b1 - a2 * b2 - a3 * b3) * c0 - (a0 * b1 + a1 * b0 + a2 * b3 - a3 * b2) * c1 - (a0 * b2 + a2 * b0 + a3 * b1 - a1 * b3) * c2 - (a0 * b3 + a3 * b0 + a1 * b2 - a2 * b1) * c3
         == a0 * (b0 * c0 - b1 * c1 - b2 * c2 - b3 * c3) - a1 * (b0 * c1 + b1 * c0 + b2 * c3 - b3 * c2) - a2 * (b0 * c2 + b2 * c0 + b3 * c1 - b1 * c3) - a3 * (b0 * c3 + b3 * c0 + b1 * c2 - b2 * c1)
  {
  }

  lemma AssocX(a0: real, a1: real, a2: real, a3: real, b0: real, b1: real, b2: real, b3: real,
               c0: real, c1: real, c2: real, c3: real)
    ensures (a0 * b0 - a1 * b1 - a2 * b2 - a3 * b3) * c1 + (a0 * b1 + a1 * b0 + a2 * b3 - a3 * b2) * c0 + (a0 * b2 + a2 * b0 + a3 * b1 - a1 * b3) * c3 - (a0 * b3 + a3 * b0 + a1 * b2 - a2 * b1) * c2
         == a0 * (b0 * c1 + b1 * c0 + b2 * c3 - b3 * c2) + a1 * (b0 * c0 - b1 * c1 - b2 * c2 - b3 * c3) + a2 * (b0 * c3 + b3 * c0 + b1 * c2 - b2 * c1) - a3 * (b0 * c2 + b2 * c0 + b3 * c1 - b1 * c3)
  {
  }

  lemma AssocY(a0: real, a1: real, a2: real, a3: real, b0: real, b1: real, b2: real, b3: real,
               c0: real, c1: real, c2: real, c3: real)
    ensures (a0 * b0 - a1 * b1 - a2 * b2 - a3 * b3) * c2 + (a0 * b2 + a2 * b0 + a3 * b1 - a1 * b3) * c0 + (a0 * b3 + a3 * b0 + a1 * b2 - a2 * b1) * c1 - (a0 * b1 + a1 * b0 + a2 * b3 - a3 * b2) * c3
         == a0 * (b0 * c2 + b2 * c0 + b3 * c1 - b1 * c3) + a2 * (b0 * c0 - b1 * c1 - b2 * c2 - b3 * c3) + a3 * (b0 * c1 + b1 * c0 + b2 * c3 - b3 * c2) - a1 * (b0 * c3 + b3 * c0 + b1 * c2 - b2 * c1)
  {
  }

  lemma AssocZ(a0: real, a1: real, a2: real, a3: real, b0: real, b1: real, b2: real, b3: real,
               c0: real, c1: real, c2: real, c3: real)
    ensures (a0 * b0 - a1 * b1 - a2 * b2 - a3 * b3) * c3 + (a0 * b3 + a3 * b0 + a1 * b2 - a2 * b1) * c0 + (a0 * b1 + a1 * b0 + a2 * b3 - a3 * b2) * c2 - (a0 * b2 + a2 * b0 + a3 * b1 - a1 * b3) * c1
         == a0 * (b0 * c3 + b3 * c0 + b1 * c2 - b2 * c1) + a3 * (b0 * c0 - b1 * c1 - b2 * c2 - b3 * c3) + a1 * (b0 * c2 + b2 * c0 + b3 * c1 - b1 * c3) - a2 * (b0 * c1 + b1 * c0 + b2 * c3 - b3 * c2)
  {
  }

  /** The entries of a·b. */
  lemma QuatMulEntries(a: Quat, b: Quat)
    ensures QuatMul(a, b).w == a.w * b.w - a.x * b.x - a.y * b.y - a.z * b.z
    ensures QuatMul(a, b).x == a.w * b.x + a.x * b.w + a.y * b.z - a.z * b.y
    ensures QuatMul(a, b).y == a.w * b.y + a.y * b.w + a.z * b.x - a.x * b.z
    ensures QuatMul(a, b).z == a.w * b.z + a.z * b.w + a.x * b.y - a.y * b.x
  {
  }

  lemma RotateIdentity(v: Vec3)
    ensures Rotate(QuatIdentity, v) == v
  {
  }

  /** Rotating a vector by q is multiplying it by q's rotation matrix (for every q,
      unit or not, with Eigen's two formulas). */
  lemma RotateIsMatVec(q: Quat, v: Vec3)
    ensures Rotate(q, v) == MatVec3(ToRotationMatrix(q), v)
  {
    RotateRows(q.w, q.x, q.y, q.z, v.x, v.y, v.z);
  }

  /** The three entries of Eigen's rotation formula against the rows of its rotation
      matrix, as polynomial identities over the reals. */
  lemma RotateRows(w: real, x: real, y: real, z: real, a: real, b: real, c: real)
    ensures (a + w * (2.0 * (y * c - z * b))) + (y * (2.0 * (x * b - y * a)) - z * (2.0 * (z * a - x * c)))
         == (1.0 - (2.0 * y * y + 2.0 * z * z)) * a + (2.0 * y * x - 2.0 * z * w) * b + (2.0 * z * x + 2.0 * y * w) * c
    ensures (b + w * (2.0 * (z * a - x * c))) + (z * (2.0 * (y * c - z * b)) - x * (2.0 * (x * b - y * a)))
         == (2.0 * y * x + 2.0 * z * w) * a + (1.0 - (2.0 * x * x + 2.0 * z * z)) * b + (2.0 * z * y - 2.0 * x * w) * c
    ensures (c + w * (2.0 * (x * b - y * a))) + (x * (2.0 * (z * a - x * c)) - y * (2.0 * (y * c - z * b)))
         == (2.0 * z * x - 2.0 * y * w) * a + (2.0 * z * y + 2.0 * x * w) * b + (1.0 - (2.0 * x * x + 2.0 * y * y)) * c
  {
  }

  /** Rotation is linear. */
  lemma RotateAdd(q: Quat, u: Vec3, v: Vec3)
    ensures Rotate(q, VecAdd(u, v)) == VecAdd(Rotate(q, u), Rotate(q, v))
  {
    RotateIsMatVec(q, u);
    RotateIsMatVec(q, v);
    RotateIsMatVec(q, VecAdd(u, v));
    MatVec3Add(ToRotationMatrix(q), u, v);
  }

  // ---------------------------------------------------------------------------
  // Rotation helpers whose definitions are not part of this model
  // ---------------------------------------------------------------------------

  /** The estimator's `Utility` routines used here, as uninterpreted function values:
      `deltaQ` (the small-angle quaternion of a rotation vector), `Qleft`/`Qright`
      (the 4×4 matrices of left and right quaternion multiplication) and
      `skewSymmetric`. */
  datatype Utility = Utility(deltaQ: Vec3 -> Quat, qLeft: Quat -> Matrix, qRight: Quat -> Matrix,
                             skewSymmetric: Vec3 -> Matrix)
}
