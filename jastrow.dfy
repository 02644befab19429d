/** The log of the spin-resolved two-body Jastrow factor of
    `pyqmc/jax/jastrowspin.py` (`evaluate_jastrow`) and its single-electron
    test value (`evaluate_testvalue`).

    log J = a + b, where a sums the electron-nucleus terms of every electron
    (coefficient column 0 for spin up, 1 for spin down) and b sums the
    electron-electron terms: half of the up-up and down-down totals (columns 0
    and 2; each unordered pair appears twice), the whole up-down total
    (column 1), minus half of the self-pair terms that the same-spin totals
    include (`compute_bdiag_corr`). Each term is a `polypade` expansion plus
    one `cutoffcusp` term.

    `EvaluateJastrow` and `TestValue` are the intended functions; the
    functions named `...AsWritten` follow the code line by line, including
    the cusp coefficient tiled to the up-electron count for blocks of down
    electrons and the per-electron vectors of different lengths that are
    added with numpy broadcasting. */
module Jastrow {
  import opened Wrappers
  import opened Analytic
  import opened RealSeq
  import opened JastrowBasis
  import opened JastrowSums

  /** `BasisParameters`: the polypade betas of the one- and two-body terms,
      the species with a nuclear cusp, the cutoff and the cusp gamma. */
  datatype BasisParameters = BasisParameters(betaA: seq<real>, betaB: seq<real>, ionCusp: seq<string>,
                                             rcut: real, gamma: real)

  predicate ValidBasis(bp: BasisParameters) {
    ValidRcut(bp.rcut) && bp.gamma > -3.0 &&
    (forall k :: 0 <= k < |bp.betaA| ==> bp.betaA[k] > -1.0) &&
    (forall k :: 0 <= k < |bp.betaB| ==> bp.betaB[k] > -1.0)
  }

  /** `CoefficientParameters`: acoeff[atom][basis][spin], with the cusp
      coefficient at basis index 0, and bcoeff[basis][spin pair], the spin
      pairs being up-up, up-down and down-down. */
  datatype Coefficients = Coefficients(acoeff: seq<seq<seq<real>>>, bcoeff: seq<seq<real>>)

  predicate Shaped(bp: BasisParameters, co: Coefficients) {
    (forall i :: 0 <= i < |co.acoeff| ==>
       |co.acoeff[i]| == |bp.betaA| + 1 &&
       forall k :: 0 <= k < |co.acoeff[i]| ==> |co.acoeff[i][k]| == 2) &&
    |co.bcoeff| == |bp.betaB| + 1 &&
    (forall k :: 0 <= k < |co.bcoeff| ==> |co.bcoeff[k]| == 3)
  }

  /** Everything an evaluation needs: square roots that are square roots,
      denominators that cannot vanish, coefficient arrays of the right shape
      and one coefficient block per nucleus. */
  ghost predicate Setup(f: Fns, bp: BasisParameters, co: Coefficients, atoms: seq<Vec3>) {
    SqrtLaws(f) && ValidBasis(bp) && Shaped(bp, co) && |atoms| == |co.acoeff|
  }

  /** acoeff[atom, 1:, spin] with the betas of the one-body terms. */
  function APade(bp: BasisParameters, co: Coefficients, atom: nat, spin: nat): (k: Kernel)
    requires ValidBasis(bp) && Shaped(bp, co) && atom < |co.acoeff| && spin < 2
    ensures ValidKernel(k) && k.kind.PadeBasis? && k.params == bp.betaA
    ensures forall j :: 0 <= j < |k.row| ==> k.row[j] == co.acoeff[atom][j + 1][spin]
  {
    Kernel(PadeBasis, seq(|bp.betaA|, j requires 0 <= j < |bp.betaA| => co.acoeff[atom][j + 1][spin]),
           bp.betaA, bp.rcut)
  }

  /** acoeff[atom, :1, spin] with the cusp gamma. */
  function ACusp(bp: BasisParameters, co: Coefficients, atom: nat, spin: nat): (k: Kernel)
    requires ValidBasis(bp) && Shaped(bp, co) && atom < |co.acoeff| && spin < 2
    ensures ValidKernel(k) && k.kind.CuspBasis? && k.row == [co.acoeff[atom][0][spin]]
  {
    Kernel(CuspBasis, [co.acoeff[atom][0][spin]], [bp.gamma], bp.rcut)
  }

  /** bcoeff[1:, column] with the betas of the two-body terms. */
  function BPade(bp: BasisParameters, co: Coefficients, column: nat): (k: Kernel)
    requires ValidBasis(bp) && Shaped(bp, co) && column < 3
    ensures ValidKernel(k) && k.kind.PadeBasis? && k.params == bp.betaB
    ensures forall j :: 0 <= j < |k.row| ==> k.row[j] == co.bcoeff[j + 1][column]
  {
    Kernel(PadeBasis, seq(|bp.betaB|, j requires 0 <= j < |bp.betaB| => co.bcoeff[j + 1][column]),
           bp.betaB, bp.rcut)
  }

  /** bcoeff[:1, column] with the cusp gamma. */
  function BCusp(bp: BasisParameters, co: Coefficients, column: nat): (k: Kernel)
    requires ValidBasis(bp) && Shaped(bp, co) && column < 3
    ensures ValidKernel(k) && k.kind.CuspBasis? && k.row == [co.bcoeff[0][column]]
  {
    Kernel(CuspBasis, [co.bcoeff[0][column]], [bp.gamma], bp.rcut)
  }

  /** The electron-nucleus term of one electron at x with the given spin:
      `a_eval + cusp_eval` summed over the nuclei. */
  function OneBody(f: Fns, bp: BasisParameters, co: Coefficients, atoms: seq<Vec3>, spin: nat, x: Vec3): real
    requires Setup(f, bp, co, atoms) && spin < 2
  {
    Sum(seq(|atoms|, i requires 0 <= i < |atoms| =>
      Pair(f, APade(bp, co, i, spin), x, atoms[i]) + Pair(f, ACusp(bp, co, i, spin), x, atoms[i])))
  }

  /** `a_up` or `a_dn`: the one-body term of every electron of a block. */
  function OneBodies(f: Fns, bp: BasisParameters, co: Coefficients, atoms: seq<Vec3>, spin: nat,
                     xs: seq<Vec3>): (r: seq<real>)
    requires Setup(f, bp, co, atoms) && spin < 2
    ensures |r| == |xs|
  {
    seq(|xs|, i requires 0 <= i < |xs| => OneBody(f, bp, co, atoms, spin, xs[i]))
  }

  /** The polypade and cusp pair functions of one bcoeff column. */
  function PadeFn(f: Fns, bp: BasisParameters, co: Coefficients, column: nat): (Vec3, Vec3) -> real
    requires SqrtLaws(f) && ValidBasis(bp) && Shaped(bp, co) && column < 3
  {
    PairFn(f, BPade(bp, co, column))
  }

  function CuspFn(f: Fns, bp: BasisParameters, co: Coefficients, column: nat): (Vec3, Vec3) -> real
    requires SqrtLaws(f) && ValidBasis(bp) && Shaped(bp, co) && column < 3
  {
    PairFn(f, BCusp(bp, co, column))
  }

  /** `b_eval + cusp_eval` for one electron at x against the block qs. */
  function TwoBody(f: Fns, bp: BasisParameters, co: Coefficients, column: nat, x: Vec3, qs: seq<Vec3>): real
    requires SqrtLaws(f) && ValidBasis(bp) && Shaped(bp, co) && column < 3
  {
    Row(PadeFn(f, bp, co, column), x, qs) + Row(CuspFn(f, bp, co, column), x, qs)
  }

  /** `b_upup`, `b_updn` or `b_dndn`: the two-body term of every electron of
      ps against the block qs. */
  function TwoBodies(f: Fns, bp: BasisParameters, co: Coefficients, column: nat,
                     ps: seq<Vec3>, qs: seq<Vec3>): (r: seq<real>)
    requires SqrtLaws(f) && ValidBasis(bp) && Shaped(bp, co) && column < 3
    ensures |r| == |ps|
  {
    Add(Rows(PadeFn(f, bp, co, column), ps, qs), Rows(CuspFn(f, bp, co, column), ps, qs))
  }

  /** `compute_bdiag_corr`: the b terms of every electron with itself. */
  function BdiagCorr(bp: BasisParameters, co: Coefficients, nUp: nat, nDown: nat): real
    requires ValidBasis(bp) && Shaped(bp, co)
  {
    var padeUp := BPade(bp, co, 0).row;
    var padeDown := BPade(bp, co, 2).row;
    Sum(padeUp) * (nUp as real) + Sum(padeDown) * (nDown as real) +
    bp.rcut / (3.0 + bp.gamma) * (co.bcoeff[0][0] * (nUp as real) + co.bcoeff[0][2] * (nDown as real))
  }

  /** The two-body term of an electron with itself (distance 0) in one
      bcoeff column. */
  function SelfTerm(bp: BasisParameters, co: Coefficients, column: nat): real
    requires ValidBasis(bp) && Shaped(bp, co) && column < 3
  {
    PairAt(BPade(bp, co, column), 0.0) + PairAt(BCusp(bp, co, column), 0.0)
  }

  /** It is what TwoBody gives for an electron against itself alone, wherever
      the electron is. */
  lemma SelfTermIsSelfPair(f: Fns, bp: BasisParameters, co: Coefficients, column: nat, p: Vec3)
    requires SqrtLaws(f) && ValidBasis(bp) && Shaped(bp, co) && column < 3
    ensures TwoBody(f, bp, co, column, p, [p]) == SelfTerm(bp, co, column)
  {
    hide Pair, PairAt;
    RowSingle(PadeFn(f, bp, co, column), p, p);
    RowSingle(CuspFn(f, bp, co, column), p, p);
    SelfPairAtZero(f, BPade(bp, co, column), p);
    SelfPairAtZero(f, BCusp(bp, co, column), p);
  }

  /** The correction is the same-spin self term of every electron: nUp times
      the up-up one plus nDown times the down-down one. */
  lemma BdiagIsSelfTerms(bp: BasisParameters, co: Coefficients, nUp: nat, nDown: nat)
    requires ValidBasis(bp) && Shaped(bp, co)
    ensures BdiagCorr(bp, co, nUp, nDown) ==
            Times(nUp as real, SelfTerm(bp, co, 0)) + Times(nDown as real, SelfTerm(bp, co, 2))
  {
    PadeAtZero(BPade(bp, co, 0));
    PadeAtZero(BPade(bp, co, 2));
    CuspAtZero(BCusp(bp, co, 0));
    CuspAtZero(BCusp(bp, co, 2));
  }

  /** `(a, b, logj)` of one configuration. */
  datatype LogJastrow = LogJastrow(a: real, b: real, logj: real)

  /** `evaluate_jastrow` as intended: electrons 0 .. nUp-1 are spin up, the rest spin down. */
  function EvaluateJastrow(f: Fns, bp: BasisParameters, co: Coefficients, atoms: seq<Vec3>,
                           nUp: nat, coords: seq<Vec3>): LogJastrow
    requires Setup(f, bp, co, atoms) && nUp <= |coords|
  {
    var up, down := coords[..nUp], coords[nUp..];
    var a := Sum(OneBodies(f, bp, co, atoms, 0, up)) + Sum(OneBodies(f, bp, co, atoms, 1, down));
    var b := (Sum(TwoBodies(f, bp, co, 0, up, up)) + Sum(TwoBodies(f, bp, co, 2, down, down))) / 2.0 +
             Sum(TwoBodies(f, bp, co, 1, up, down)) - BdiagCorr(bp, co, nUp, |down|) / 2.0;
    LogJastrow(a, b, a + b)
  }

  /** The spin of electron e: 1 exactly when e is not among the first nUp. */
  function SpinOf(e: nat, nUp: nat): (s: nat)
    ensures s < 2 && (s == 1 <==> e >= nUp)
  {
    if e >= nUp then 1 else 0
  }

  /** Delta log J of `evaluate_testvalue`: electron e moves to y; its own
      one-body term and its two-body terms against both blocks (before and
      after the move) are recomputed. */
  function TestValueDelta(f: Fns, bp: BasisParameters, co: Coefficients, atoms: seq<Vec3>,
                          nUp: nat, coords: seq<Vec3>, e: nat, y: Vec3): real
    requires Setup(f, bp, co, atoms) && nUp <= |coords| && e < |coords|
  {
    var spin := SpinOf(e, nUp);
    var x := coords[e];
    var moved := coords[e := y];
    OneBody(f, bp, co, atoms, spin, y) - OneBody(f, bp, co, atoms, spin, x) +
    TwoBody(f, bp, co, spin, y, moved[..nUp]) + TwoBody(f, bp, co, spin + 1, y, moved[nUp..]) -
    TwoBody(f, bp, co, spin, x, coords[..nUp]) - TwoBody(f, bp, co, spin + 1, x, coords[nUp..])
  }

  /** `evaluate_testvalue`: exp(delta log J). */
  function TestValue(f: Fns, bp: BasisParameters, co: Coefficients, atoms: seq<Vec3>,
                     nUp: nat, coords: seq<Vec3>, e: nat, y: Vec3): real
    requires Setup(f, bp, co, atoms) && nUp <= |coords| && e < |coords|
  {
    f.Exp(TestValueDelta(f, bp, co, atoms, nUp, coords, e, y))
  }

  /** Moving electron e of a block changes the block's one-body total by
      the change of e's own term. */
  lemma OneBodyMove(f: Fns, bp: BasisParameters, co: Coefficients, atoms: seq<Vec3>, spin: nat,
                    xs: seq<Vec3>, e: nat, y: Vec3)
    requires Setup(f, bp, co, atoms) && spin < 2 && e < |xs|
    ensures Sum(OneBodies(f, bp, co, atoms, spin, xs[e := y])) ==
            Sum(OneBodies(f, bp, co, atoms, spin, xs)) - OneBody(f, bp, co, atoms, spin, xs[e]) +
            OneBody(f, bp, co, atoms, spin, y)
  {
    var terms := OneBodies(f, bp, co, atoms, spin, xs);
    assert OneBodies(f, bp, co, atoms, spin, xs[e := y]) == terms[e := OneBody(f, bp, co, atoms, spin, y)];
    SumReplace(terms, e, OneBody(f, bp, co, atoms, spin, y));
  }

  /** Moving electron e of a same-spin block changes the block's two-body
      total by twice the change of e's row. */
  lemma SameSpinMove(f: Fns, bp: BasisParameters, co: Coefficients, column: nat,
                     xs: seq<Vec3>, e: nat, y: Vec3)
    requires SqrtLaws(f) && ValidBasis(bp) && Shaped(bp, co) && column < 3 && e < |xs|
    ensures Sum(TwoBodies(f, bp, co, column, xs[e := y], xs[e := y])) - Sum(TwoBodies(f, bp, co, column, xs, xs)) ==
            2.0 * (TwoBody(f, bp, co, column, y, xs[e := y]) - TwoBody(f, bp, co, column, xs[e], xs))
  {
    var pade, cusp := PadeFn(f, bp, co, column), CuspFn(f, bp, co, column);
    PairFnLaws(f, BPade(bp, co, column));
    PairFnLaws(f, BCusp(bp, co, column));
    SumAdd(Rows(pade, xs, xs), Rows(cusp, xs, xs));
    SumAdd(Rows(pade, xs[e := y], xs[e := y]), Rows(cusp, xs[e := y], xs[e := y]));
    SameBlockMove(pade, xs, e, y);
    SameBlockMove(cusp, xs, e, y);
  }

  /** Moving up electron e changes the up-down total by the change of e's row
      against the down block. */
  lemma CrossMoveUp(f: Fns, bp: BasisParameters, co: Coefficients, up: seq<Vec3>, down: seq<Vec3>,
                    e: nat, y: Vec3)
    requires SqrtLaws(f) && ValidBasis(bp) && Shaped(bp, co) && e < |up|
    ensures Sum(TwoBodies(f, bp, co, 1, up[e := y], down)) - Sum(TwoBodies(f, bp, co, 1, up, down)) ==
            TwoBody(f, bp, co, 1, y, down) - TwoBody(f, bp, co, 1, up[e], down)
  {
    var pade, cusp := PadeFn(f, bp, co, 1), CuspFn(f, bp, co, 1);
    SumAdd(Rows(pade, up, down), Rows(cusp, up, down));
    SumAdd(Rows(pade, up[e := y], down), Rows(cusp, up[e := y], down));
    FirstBlockMove(pade, up, down, e, y);
    FirstBlockMove(cusp, up, down, e, y);
  }

  /** Moving down electron e changes the up-down total by the change of e's
      row against the up block (the pair terms are symmetric). */
  lemma CrossMoveDown(f: Fns, bp: BasisParameters, co: Coefficients, up: seq<Vec3>, down: seq<Vec3>,
                      e: nat, y: Vec3)
    requires SqrtLaws(f) && ValidBasis(bp) && Shaped(bp, co) && e < |down|
    ensures Sum(TwoBodies(f, bp, co, 1, up, down[e := y])) - Sum(TwoBodies(f, bp, co, 1, up, down)) ==
            TwoBody(f, bp, co, 1, y, up) - TwoBody(f, bp, co, 1, down[e], up)
  {
    var pade, cusp := PadeFn(f, bp, co, 1), CuspFn(f, bp, co, 1);
    PairFnLaws(f, BPade(bp, co, 1));
    PairFnLaws(f, BCusp(bp, co, 1));
    SumAdd(Rows(pade, up, down), Rows(cusp, up, down));
    SumAdd(Rows(pade, up, down[e := y]), Rows(cusp, up, down[e := y]));
    SecondBlockMove(pade, up, down, e, y);
    SecondBlockMove(cusp, up, down, e, y);
  }

  /** The change of log J, given the change of each block total. */
  lemma MoveAlgebra(before: real, after: real, delta: real, rest: real,
                    one: real, one': real, same: real, same': real, cross: real, cross': real,
                    oneX: real, oneY: real, sameX: real, sameY: real, crossX: real, crossY: real)
    requires before == rest + one + same / 2.0 + cross
    requires after == rest + one' + same' / 2.0 + cross'
    requires one' == one - oneX + oneY
    requires same' - same == 2.0 * (sameY - sameX)
    requires cross' - cross == crossY - crossX
    requires delta == oneY - oneX + sameY + crossY - sameX - crossX
    ensures delta == after - before
  {
  }

  /** The test value's exponent for an up electron. */
  lemma TestValueIsLogRatioUp(f: Fns, bp: BasisParameters, co: Coefficients, atoms: seq<Vec3>,
                              nUp: nat, coords: seq<Vec3>, e: nat, y: Vec3)
    requires Setup(f, bp, co, atoms) && nUp <= |coords| && e < nUp
    ensures TestValueDelta(f, bp, co, atoms, nUp, coords, e, y) ==
            EvaluateJastrow(f, bp, co, atoms, nUp, coords[e := y]).logj -
            EvaluateJastrow(f, bp, co, atoms, nUp, coords).logj
  {
    var up, down := coords[..nUp], coords[nUp..];
    var x := coords[e];
    var up' := up[e := y];
    UpdateFront(coords, nUp, e, y);
    var aUp, aUp' := Sum(OneBodies(f, bp, co, atoms, 0, up)), Sum(OneBodies(f, bp, co, atoms, 0, up'));
    var bUpUp, bUpUp' := Sum(TwoBodies(f, bp, co, 0, up, up)), Sum(TwoBodies(f, bp, co, 0, up', up'));
    var bUpDown, bUpDown' := Sum(TwoBodies(f, bp, co, 1, up, down)), Sum(TwoBodies(f, bp, co, 1, up', down));
    var rest := Sum(OneBodies(f, bp, co, atoms, 1, down)) + Sum(TwoBodies(f, bp, co, 2, down, down)) / 2.0 -
                BdiagCorr(bp, co, nUp, |down|) / 2.0;
    assert EvaluateJastrow(f, bp, co, atoms, nUp, coords).logj == rest + aUp + bUpUp / 2.0 + bUpDown;
    assert EvaluateJastrow(f, bp, co, atoms, nUp, coords[e := y]).logj == rest + aUp' + bUpUp' / 2.0 + bUpDown';
    hide EvaluateJastrow;
    OneBodyMove(f, bp, co, atoms, 0, up, e, y);
    SameSpinMove(f, bp, co, 0, up, e, y);
    CrossMoveUp(f, bp, co, up, down, e, y);
    MoveAlgebra(EvaluateJastrow(f, bp, co, atoms, nUp, coords).logj,
                EvaluateJastrow(f, bp, co, atoms, nUp, coords[e := y]).logj,
                TestValueDelta(f, bp, co, atoms, nUp, coords, e, y), rest,
                aUp, aUp', bUpUp, bUpUp', bUpDown, bUpDown',
                OneBody(f, bp, co, atoms, 0, x), OneBody(f, bp, co, atoms, 0, y),
                TwoBody(f, bp, co, 0, x, up), TwoBody(f, bp, co, 0, y, up'),
                TwoBody(f, bp, co, 1, x, down), TwoBody(f, bp, co, 1, y, down));
  }

  /** The test value's exponent for a down electron. */
  lemma TestValueIsLogRatioDown(f: Fns, bp: BasisParameters, co: Coefficients, atoms: seq<Vec3>,
                                nUp: nat, coords: seq<Vec3>, e: nat, y: Vec3)
    requires Setup(f, bp, co, atoms) && nUp <= e < |coords|
    ensures TestValueDelta(f, bp, co, atoms, nUp, coords, e, y) ==
            EvaluateJastrow(f, bp, co, atoms, nUp, coords[e := y]).logj -
            EvaluateJastrow(f, bp, co, atoms, nUp, coords).logj
  {
    var up, down := coords[..nUp], coords[nUp..];
    var x := coords[e];
    var d := e - nUp;
    var down' := down[d := y];
    UpdateBack(coords, nUp, e, y);
    assert down[d] == x;
    var aDown, aDown' := Sum(OneBodies(f, bp, co, atoms, 1, down)), Sum(OneBodies(f, bp, co, atoms, 1, down'));
    var bDownDown, bDownDown' := Sum(TwoBodies(f, bp, co, 2, down, down)), Sum(TwoBodies(f, bp, co, 2, down', down'));
    var bUpDown, bUpDown' := Sum(TwoBodies(f, bp, co, 1, up, down)), Sum(TwoBodies(f, bp, co, 1, up, down'));
    var rest := Sum(OneBodies(f, bp, co, atoms, 0, up)) + Sum(TwoBodies(f, bp, co, 0, up, up)) / 2.0 -
                BdiagCorr(bp, co, nUp, |down|) / 2.0;
    assert EvaluateJastrow(f, bp, co, atoms, nUp, coords).logj == rest + aDown + bDownDown / 2.0 + bUpDown;
    assert EvaluateJastrow(f, bp, co, atoms, nUp, coords[e := y]).logj == rest + aDown' + bDownDown' / 2.0 + bUpDown';
    hide EvaluateJastrow;
    OneBodyMove(f, bp, co, atoms, 1, down, d, y);
    SameSpinMove(f, bp, co, 2, down, d, y);
    CrossMoveDown(f, bp, co, up, down, d, y);
    MoveAlgebra(EvaluateJastrow(f, bp, co, atoms, nUp, coords).logj,
                EvaluateJastrow(f, bp, co, atoms, nUp, coords[e := y]).logj,
                TestValueDelta(f, bp, co, atoms, nUp, coords, e, y), rest,
                aDown, aDown', bDownDown, bDownDown', bUpDown, bUpDown',
                OneBody(f, bp, co, atoms, 1, x), OneBody(f, bp, co, atoms, 1, y),
                TwoBody(f, bp, co, 2, x, down), TwoBody(f, bp, co, 2, y, down'),
                TwoBody(f, bp, co, 1, x, up), TwoBody(f, bp, co, 1, y, up));
  }

  /** The test value's exponent is exactly the change of log J that the move
      causes: the one-electron update agrees with two full evaluations. */
  lemma TestValueIsLogRatio(f: Fns, bp: BasisParameters, co: Coefficients, atoms: seq<Vec3>,
                            nUp: nat, coords: seq<Vec3>, e: nat, y: Vec3)
    requires Setup(f, bp, co, atoms) && nUp <= |coords| && e < |coords|
    ensures TestValueDelta(f, bp, co, atoms, nUp, coords, e, y) ==
            EvaluateJastrow(f, bp, co, atoms, nUp, coords[e := y]).logj -
            EvaluateJastrow(f, bp, co, atoms, nUp, coords).logj
  {
    if e < nUp {
      TestValueIsLogRatioUp(f, bp, co, atoms, nUp, coords, e, y);
    } else {
      TestValueIsLogRatioDown(f, bp, co, atoms, nUp, coords, e, y);
    }
  }

  /** So the test value is the ratio J(R') / J(R) of the Jastrow factors
      before and after the move. */
  lemma TestValueIsRatio(f: Fns, bp: BasisParameters, co: Coefficients, atoms: seq<Vec3>,
                         nUp: nat, coords: seq<Vec3>, e: nat, y: Vec3, ratio: real, before: real, after: real)
    requires Setup(f, bp, co, atoms) && ExpLaws(f) && nUp <= |coords| && e < |coords|
    requires ratio == TestValue(f, bp, co, atoms, nUp, coords, e, y)
    requires before == EvaluateJastrow(f, bp, co, atoms, nUp, coords).logj
    requires after == EvaluateJastrow(f, bp, co, atoms, nUp, coords[e := y]).logj
    ensures ratio * f.Exp(before) == f.Exp(after)
  {
    TestValueIsLogRatio(f, bp, co, atoms, nUp, coords, e, y);
    ExpRatio(f, ratio, TestValueDelta(f, bp, co, atoms, nUp, coords, e, y), before, after);
  }

  /** Proposing the electron's current position gives test value 1. */
  lemma TestValueUnmoved(f: Fns, bp: BasisParameters, co: Coefficients, atoms: seq<Vec3>,
                         nUp: nat, coords: seq<Vec3>, e: nat)
    requires Setup(f, bp, co, atoms) && ExpLaws(f) && nUp <= |coords| && e < |coords|
    ensures TestValue(f, bp, co, atoms, nUp, coords, e, coords[e]) == 1.0
  {
    assert coords[e := coords[e]] == coords;
    ExpZero(f);
  }
}
