/** `partial_basis_sum` of `pyqmc/jax/jastrowspin.py`: for one electron, the
    coefficient-weighted basis values summed over a set of centres (nuclei or
    other electrons), and the algebra of those sums when one electron moves.

    A `Kernel` is one coefficient block with its basis: a row of coefficients
    over the basis functions, the basis parameters (the betas, or the single
    gamma of the cusp function) and the cutoff. `Pair` is its value for one
    electron and one centre, `Row` the sum over centres (the partial sum with
    the row repeated for every centre, as `jnp.tile` does), and `Rows` the
    per-electron vector the evaluators sum up. */
module JastrowSums {
  import opened Analytic
  import opened RealSeq
  import opened JastrowBasis

  datatype BasisKind = PadeBasis | CuspBasis

  datatype Kernel = Kernel(kind: BasisKind, row: seq<real>, params: seq<real>, rcut: real)

  /** A parameter for which the basis function never divides by zero. */
  predicate ValidParam(kind: BasisKind, param: real) {
    if kind.PadeBasis? then param > -1.0 else param > -3.0
  }

  predicate ValidKernel(k: Kernel) {
    |k.row| == |k.params| && ValidRcut(k.rcut) &&
    forall j :: 0 <= j < |k.params| ==> ValidParam(k.kind, k.params[j])
  }

  /** `polypade` or `cutoffcusp` at distance rij. */
  function BasisValue(kind: BasisKind, rij: real, param: real, rcut: real): real
    requires rij >= 0.0 && ValidParam(kind, param) && ValidRcut(rcut)
  {
    if kind.PadeBasis? then Polypade(rij, param, rcut) else Cutoffcusp(rij, param, rcut)
  }

  /** The vmapped basis: one value per basis parameter. */
  function BasisValues(k: Kernel, rij: real): (r: seq<real>)
    requires ValidKernel(k) && rij >= 0.0
    ensures |r| == |k.params|
  {
    seq(|k.params|, j requires 0 <= j < |k.params| => BasisValue(k.kind, rij, k.params[j], k.rcut))
  }

  /** The kernel's term for one electron at p and one centre at q:
      sum over k of row[k] * basis_k(|p - q|). */
  function Pair(f: Fns, k: Kernel, p: Vec3, q: Vec3): real
    requires SqrtLaws(f) && ValidKernel(k)
  {
    SqrtSquare(f, SquaredNorm(Minus(p, q)));
    PairAt(k, Distance(f, p, q))
  }

  /** The kernel's term at distance rij: sum over k of row[k] * basis_k(rij). */
  function PairAt(k: Kernel, rij: real): real
    requires ValidKernel(k) && rij >= 0.0
  {
    Dot(k.row, BasisValues(k, rij))
  }

  /** The pair term as a function of the two positions. */
  function PairFn(f: Fns, k: Kernel): (r: (Vec3, Vec3) -> real)
    requires SqrtLaws(f) && ValidKernel(k)
    ensures forall p, q :: r(p, q) == Pair(f, k, p, q)
  {
    (p, q) => Pair(f, k, p, q)
  }

  /** The pair term depends on the two positions only through their distance,
      so it is symmetric. */
  lemma PairSymmetric(f: Fns, k: Kernel, p: Vec3, q: Vec3)
    requires SqrtLaws(f) && ValidKernel(k)
    ensures Pair(f, k, p, q) == Pair(f, k, q, p)
  {
    DistanceSymmetric(f, p, q);
  }

  /** Every self-pair sits at distance 0, so all self-pairs have one value. */
  lemma PairSelf(f: Fns, k: Kernel, p: Vec3, q: Vec3)
    requires SqrtLaws(f) && ValidKernel(k)
    ensures Pair(f, k, p, p) == Pair(f, k, q, q)
  {
    DistanceSelf(f, p);
    DistanceSelf(f, q);
  }

  /** At distance 0 every polypade basis function is 1, so the kernel's
      term is the sum of its row. */
  lemma PadeAtZero(k: Kernel)
    requires ValidKernel(k) && k.kind.PadeBasis?
    ensures PairAt(k, 0.0) == Sum(k.row)
  {
    var values := BasisValues(k, 0.0);
    forall j | 0 <= j < |values|
      ensures values[j] == 1.0
    {
      PolypadeValues(0.0, k.params[j], k.rcut);
    }
    DotOnes(k.row, values);
  }

  /** At distance 0 the cusp function is rcut / (3 + gamma). */
  lemma CuspAtZero(k: Kernel)
    requires ValidKernel(k) && k.kind.CuspBasis? && |k.row| == 1
    ensures PairAt(k, 0.0) == Times(k.row[0], k.rcut / (3.0 + k.params[0]))
  {
    CutoffcuspValues(0.0, k.params[0], k.rcut);
    var v := k.rcut / (3.0 + k.params[0]);
    assert BasisValues(k, 0.0) == [v];
    assert Dot(k.row, [v]) == Dot([], []) + k.row[0] * v;
  }

  /** Every self-pair sits at distance 0. */
  lemma SelfPairAtZero(f: Fns, k: Kernel, p: Vec3)
    requires SqrtLaws(f) && ValidKernel(k)
    ensures Pair(f, k, p, p) == PairAt(k, 0.0)
  {
    DistanceSelf(f, p);
  }

  /* The sums below are stated for any pair function F: the evaluators use
     them with F = PairFn(f, k). */

  ghost predicate Symmetric(F: (Vec3, Vec3) -> real) {
    forall p, q :: F(p, q) == F(q, p)
  }

  ghost predicate SelfConstant(F: (Vec3, Vec3) -> real) {
    forall p, q :: F(p, p) == F(q, q)
  }

  /** Both laws hold for every kernel's pair function. */
  lemma PairFnLaws(f: Fns, k: Kernel)
    requires SqrtLaws(f) && ValidKernel(k)
    ensures Symmetric(PairFn(f, k)) && SelfConstant(PairFn(f, k))
  {
    forall p, q
      ensures PairFn(f, k)(p, q) == PairFn(f, k)(q, p)
      ensures PairFn(f, k)(p, p) == PairFn(f, k)(q, q)
    {
      PairSymmetric(f, k, p, q);
      PairSelf(f, k, p, q);
    }
  }

  /** `partial_basis_sum(p, qs, tile(row, (|qs|, 1)))`: the pair terms of p
      summed over the centres qs. */
  function Row(F: (Vec3, Vec3) -> real, p: Vec3, qs: seq<Vec3>): real {
    if |qs| == 0 then 0.0 else Row(F, p, qs[..|qs| - 1]) + F(p, qs[|qs| - 1])
  }

  /** The partial sum vmapped over the electrons ps. */
  function Rows(F: (Vec3, Vec3) -> real, ps: seq<Vec3>, qs: seq<Vec3>): (r: seq<real>)
    ensures |r| == |ps|
  {
    seq(|ps|, i requires 0 <= i < |ps| => Row(F, ps[i], qs))
  }

  /** Against a single centre, the row is that one pair term. */
  lemma RowSingle(F: (Vec3, Vec3) -> real, p: Vec3, q: Vec3)
    ensures Row(F, p, [q]) == F(p, q)
  {
    assert [q][..0] == [];
  }

  /** Row is the plain sum of the pair terms. */
  lemma {:induction false} RowIsSum(F: (Vec3, Vec3) -> real, p: Vec3, qs: seq<Vec3>, terms: seq<real>)
    requires |terms| == |qs|
    requires forall j :: 0 <= j < |qs| ==> terms[j] == F(p, qs[j])
    ensures Row(F, p, qs) == Sum(terms)
    decreases |qs|
  {
    if |qs| > 0 {
      var n := |qs| - 1;
      RowIsSum(F, p, qs[..n], terms[..n]);
    }
  }

  /** Moving centre e to y changes the row by the difference of its two pair terms. */
  lemma {:induction false} RowReplace(F: (Vec3, Vec3) -> real, p: Vec3, qs: seq<Vec3>, e: nat, y: Vec3)
    requires e < |qs|
    ensures Row(F, p, qs[e := y]) == Row(F, p, qs) - F(p, qs[e]) + F(p, y)
    decreases |qs|
  {
    var n := |qs| - 1;
    if e == n {
      assert qs[e := y][..n] == qs[..n];
    } else {
      assert qs[e := y][..n] == qs[..n][e := y];
      RowReplace(F, p, qs[..n], e, y);
    }
  }

  /** For a symmetric F, the pair terms of the electrons ps against a fixed
      point q sum to q's row. */
  lemma ColumnIsRow(F: (Vec3, Vec3) -> real, ps: seq<Vec3>, q: Vec3, column: seq<real>)
    requires Symmetric(F)
    requires |column| == |ps|
    requires forall i :: 0 <= i < |ps| ==> column[i] == F(ps[i], q)
    ensures Sum(column) == Row(F, q, ps)
  {
    RowIsSum(F, q, ps, column);
  }

  /** Moving electron e of the first block to y changes the block's total by
      the difference of its two rows. */
  lemma FirstBlockMove(F: (Vec3, Vec3) -> real, xs: seq<Vec3>, ys: seq<Vec3>, e: nat, y: Vec3)
    requires e < |xs|
    ensures Sum(Rows(F, xs[e := y], ys)) == Sum(Rows(F, xs, ys)) - Row(F, xs[e], ys) + Row(F, y, ys)
  {
    assert Rows(F, xs[e := y], ys) == Rows(F, xs, ys)[e := Row(F, y, ys)];
    SumReplace(Rows(F, xs, ys), e, Row(F, y, ys));
  }

  /** For a symmetric F, moving centre e of the second block to y changes the
      block's total by the difference of the moved centre's rows against the
      first block. */
  lemma SecondBlockMove(F: (Vec3, Vec3) -> real, ys: seq<Vec3>, xs: seq<Vec3>, e: nat, y: Vec3)
    requires Symmetric(F) && e < |xs|
    ensures Sum(Rows(F, ys, xs[e := y])) == Sum(Rows(F, ys, xs)) - Row(F, xs[e], ys) + Row(F, y, ys)
  {
    var old_ := seq(|ys|, i requires 0 <= i < |ys| => F(ys[i], xs[e]));
    var new_ := seq(|ys|, i requires 0 <= i < |ys| => F(ys[i], y));
    forall i | 0 <= i < |ys|
      ensures Rows(F, ys, xs[e := y])[i] == Rows(F, ys, xs)[i] - old_[i] + new_[i]
    {
      RowReplace(F, ys[i], xs, e, y);
    }
    SumOfDifferences(Rows(F, ys, xs), old_, new_, Rows(F, ys, xs[e := y]));
    ColumnIsRow(F, ys, xs[e], old_);
    ColumnIsRow(F, ys, y, new_);
  }

  /** Moving electron e of a block to y changes the block's total against
      itself by twice the change of e's own row: once as an electron and once
      as a centre, the self-pair contributing the same at both positions. */
  lemma SameBlockMove(F: (Vec3, Vec3) -> real, xs: seq<Vec3>, e: nat, y: Vec3)
    requires Symmetric(F) && SelfConstant(F) && e < |xs|
    ensures Sum(Rows(F, xs[e := y], xs[e := y])) - Sum(Rows(F, xs, xs)) ==
            2.0 * (Row(F, y, xs[e := y]) - Row(F, xs[e], xs))
  {
    // first move e as a centre, then as an electron
    SecondBlockMove(F, xs, xs, e, y);
    FirstBlockMove(F, xs, xs[e := y], e, y);
    // e's old and new rows against the block after the move
    RowReplace(F, xs[e], xs, e, y);
    RowReplace(F, y, xs, e, y);
    assert F(xs[e], y) == F(y, xs[e]) && F(xs[e], xs[e]) == F(y, y);
  }
}
