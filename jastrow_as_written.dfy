/** `evaluate_jastrow` and `evaluate_testvalue` of `pyqmc/jax/jastrowspin.py`
    line by line, with numpy's broadcasting rules where the code relies on
    them.

    Two lines of the code differ from the intended sums of the `Jastrow`
    module. The cusp coefficient of every block of down electrons is tiled to
    nUp rows (`jnp.tile(bcoeff[:1, k], (nup, 1))`) while the block has nDown
    centres, and the per-electron vectors of the up block (length nUp) and of
    the down block (length nDown) are added element-wise. Both agree with the
    intended sums when nUp == nDown. Otherwise, when one count is 1, numpy
    broadcasts that length-1 axis, which repeats one electron's terms or,
    against an empty block, leaves an empty sum; when neither count is 1 it
    raises a shape error. */
module JastrowAsWritten {
  import opened Wrappers
  import opened Analytic
  import opened RealSeq
  import opened JastrowBasis
  import opened JastrowSums
  import opened Jastrow

  /** numpy broadcasting of two leading axes of lengths m and n. */
  predicate Broadcastable(m: nat, n: nat) {
    m == n || m == 1 || n == 1
  }

  /** `partial_basis_sum(p, qs, tile(row, (m, 1)))` for a one-column row:
      the coefficients have m rows against the |qs| centres. With m == |qs|
      or m == 1 this is the row sum; with a single centre its term is counted
      m times; any other pair of lengths is a shape error. */
  function TiledRow(F: (Vec3, Vec3) -> real, p: Vec3, qs: seq<Vec3>, m: nat): (r: Result<real>)
    ensures r.Ok? <==> Broadcastable(m, |qs|)
    ensures m == |qs| ==> r == Ok(Row(F, p, qs))
    ensures r.Err? ==> r.error == ShapeError
  {
    if m == |qs| || m == 1 then Ok(Row(F, p, qs))
    else if |qs| == 1 then Ok((m as real) * F(p, qs[0]))
    else Err(ShapeError)
  }

  /** `b_eval(x, qs, tile(bcoeff[1:, column], (|qs|, 1))) + cusp_eval(x, qs,
      tile(bcoeff[:1, column], (m, 1)))` for one electron at x. */
  function TwoBodyAsWritten(f: Fns, bp: BasisParameters, co: Coefficients, column: nat,
                            x: Vec3, qs: seq<Vec3>, m: nat): (r: Result<real>)
    requires SqrtLaws(f) && ValidBasis(bp) && Shaped(bp, co) && column < 3
    ensures r.Ok? <==> Broadcastable(m, |qs|)
  {
    var cusp := TiledRow(CuspFn(f, bp, co, column), x, qs, m);
    if cusp.Err? then Err(ShapeError) else Ok(Row(PadeFn(f, bp, co, column), x, qs) + cusp.value)
  }

  /** With m == |qs|, or with a one-row tile that numpy repeats over the
      centres, the electron's term is the intended one. */
  lemma TwoBodyAsWrittenMatching(f: Fns, bp: BasisParameters, co: Coefficients, column: nat,
                                 x: Vec3, qs: seq<Vec3>, m: nat)
    requires SqrtLaws(f) && ValidBasis(bp) && Shaped(bp, co) && column < 3
    requires m == |qs| || m == 1
    ensures TwoBodyAsWritten(f, bp, co, column, x, qs, m) == Ok(TwoBody(f, bp, co, column, x, qs))
  {
  }

  /** The same, vmapped over the electrons ps; the shape error does not
      depend on how many electrons there are. */
  function TwoBodiesAsWritten(f: Fns, bp: BasisParameters, co: Coefficients, column: nat,
                              ps: seq<Vec3>, qs: seq<Vec3>, m: nat): (r: Result<seq<real>>)
    requires SqrtLaws(f) && ValidBasis(bp) && Shaped(bp, co) && column < 3
    ensures r.Ok? <==> Broadcastable(m, |qs|)
    ensures r.Ok? ==> |r.value| == |ps|
  {
    if !Broadcastable(m, |qs|) then Err(ShapeError)
    else Ok(seq(|ps|, i requires 0 <= i < |ps| => TwoBodyAsWritten(f, bp, co, column, ps[i], qs, m).value))
  }

  /** With the tile as long as the block, the block's terms are the intended ones. */
  lemma TwoBodiesAsWrittenMatching(f: Fns, bp: BasisParameters, co: Coefficients, column: nat,
                                   ps: seq<Vec3>, qs: seq<Vec3>)
    requires SqrtLaws(f) && ValidBasis(bp) && Shaped(bp, co) && column < 3
    ensures TwoBodiesAsWritten(f, bp, co, column, ps, qs, |qs|) == Ok(TwoBodies(f, bp, co, column, ps, qs))
  {
    hide Pair;
    assert TwoBodiesAsWritten(f, bp, co, column, ps, qs, |qs|).value == TwoBodies(f, bp, co, column, ps, qs) by {
      forall i | 0 <= i < |ps|
        ensures TwoBodiesAsWritten(f, bp, co, column, ps, qs, |qs|).value[i] == TwoBodies(f, bp, co, column, ps, qs)[i]
      {
        TwoBodyAsWrittenMatching(f, bp, co, column, ps[i], qs, |qs|);
      }
    }
  }

  /** `u + v` for two vectors under numpy broadcasting. */
  function BroadcastAdd(u: seq<real>, v: seq<real>): (r: Result<seq<real>>)
    ensures r.Ok? <==> Broadcastable(|u|, |v|)
    ensures |u| == |v| ==> r == Ok(Add(u, v))
    ensures r.Err? ==> r.error == ShapeError
  {
    if |u| == |v| then Ok(Add(u, v))
    else if |v| == 1 then Ok(seq(|u|, i requires 0 <= i < |u| => u[i] + v[0]))
    else if |u| == 1 then Ok(seq(|v|, i requires 0 <= i < |v| => u[0] + v[i]))
    else Err(ShapeError)
  }

  /** `evaluate_jastrow` as written. */
  function EvaluateJastrowAsWritten(f: Fns, bp: BasisParameters, co: Coefficients, atoms: seq<Vec3>,
                                    nUp: nat, coords: seq<Vec3>): Result<LogJastrow>
    requires Setup(f, bp, co, atoms) && nUp <= |coords|
  {
    var up, down := coords[..nUp], coords[nUp..];
    var aSum := BroadcastAdd(OneBodies(f, bp, co, atoms, 0, up), OneBodies(f, bp, co, atoms, 1, down));
    var bUpUp := TwoBodiesAsWritten(f, bp, co, 0, up, up, nUp);
    var bUpDown := TwoBodiesAsWritten(f, bp, co, 1, up, down, nUp);
    var bDownDown := TwoBodiesAsWritten(f, bp, co, 2, down, down, nUp);
    if aSum.Err? || bUpDown.Err? || bDownDown.Err? then Err(ShapeError)
    else
      var same := BroadcastAdd(bUpUp.value, bDownDown.value);
      if same.Err? then Err(ShapeError)
      else
        var all := BroadcastAdd(Halve(same.value), bUpDown.value);
        if all.Err? then Err(ShapeError)
        else
          var a := Sum(aSum.value);
          var b := Sum(all.value) - BdiagCorr(bp, co, nUp, |down|) / 2.0;
          Ok(LogJastrow(a, b, a + b))
  }

  /** With as many down electrons as up electrons the code computes the
      intended log J. */
  lemma EvaluateJastrowAsWrittenAgrees(f: Fns, bp: BasisParameters, co: Coefficients, atoms: seq<Vec3>,
                                       nUp: nat, coords: seq<Vec3>)
    requires Setup(f, bp, co, atoms) && |coords| == 2 * nUp
    ensures EvaluateJastrowAsWritten(f, bp, co, atoms, nUp, coords) == Ok(EvaluateJastrow(f, bp, co, atoms, nUp, coords))
  {
    hide Sum, Pair;
    var up, down := coords[..nUp], coords[nUp..];
    TwoBodiesAsWrittenMatching(f, bp, co, 0, up, up);
    TwoBodiesAsWrittenMatching(f, bp, co, 1, up, down);
    TwoBodiesAsWrittenMatching(f, bp, co, 2, down, down);
    var aUp, aDown := OneBodies(f, bp, co, atoms, 0, up), OneBodies(f, bp, co, atoms, 1, down);
    var bUpUp, bUpDown := TwoBodies(f, bp, co, 0, up, up), TwoBodies(f, bp, co, 1, up, down);
    var bDownDown := TwoBodies(f, bp, co, 2, down, down);
    SumAdd(aUp, aDown);
    SumAdd(bUpUp, bDownDown);
    SumHalve(Add(bUpUp, bDownDown));
    SumAdd(Halve(Add(bUpUp, bDownDown)), bUpDown);
  }

  /** Delta log J of `evaluate_testvalue` as written: the new and old terms
      against the down block tile the cusp coefficient to nUp rows. */
  function TestValueDeltaAsWritten(f: Fns, bp: BasisParameters, co: Coefficients, atoms: seq<Vec3>,
                                   nUp: nat, coords: seq<Vec3>, e: nat, y: Vec3): (r: Result<real>)
    requires Setup(f, bp, co, atoms) && nUp <= |coords| && e < |coords|
    ensures r.Ok? <==> Broadcastable(nUp, |coords| - nUp)
  {
    var spin := SpinOf(e, nUp);
    var x := coords[e];
    var moved := coords[e := y];
    var downNew := TwoBodyAsWritten(f, bp, co, spin + 1, y, moved[nUp..], nUp);
    var downOld := TwoBodyAsWritten(f, bp, co, spin + 1, x, coords[nUp..], nUp);
    if downNew.Err? || downOld.Err? then Err(ShapeError)
    else
      var deltaA := OneBody(f, bp, co, atoms, spin, y) - OneBody(f, bp, co, atoms, spin, x);
      var deltaB := TwoBody(f, bp, co, spin, y, moved[..nUp]) + downNew.value -
                    TwoBody(f, bp, co, spin, x, coords[..nUp]) - downOld.value;
      Ok(deltaA + deltaB)
  }

  /** `evaluate_testvalue` as written: exp(delta log J). */
  function TestValueAsWritten(f: Fns, bp: BasisParameters, co: Coefficients, atoms: seq<Vec3>,
                              nUp: nat, coords: seq<Vec3>, e: nat, y: Vec3): (r: Result<real>)
    requires Setup(f, bp, co, atoms) && nUp <= |coords| && e < |coords|
    ensures r.Ok? <==> Broadcastable(nUp, |coords| - nUp)
  {
    var delta := TestValueDeltaAsWritten(f, bp, co, atoms, nUp, coords, e, y);
    if delta.Err? then Err(ShapeError) else Ok(f.Exp(delta.value))
  }

  /** When the down block is as long as the up block, or there is a single up
      electron (a one-row tile that numpy repeats), the code's test value is
      the intended one. */
  lemma TestValueAsWrittenAgrees(f: Fns, bp: BasisParameters, co: Coefficients, atoms: seq<Vec3>,
                                 nUp: nat, coords: seq<Vec3>, e: nat, y: Vec3)
    requires Setup(f, bp, co, atoms) && nUp <= |coords| && e < |coords|
    requires |coords| == 2 * nUp || nUp == 1
    ensures TestValueAsWritten(f, bp, co, atoms, nUp, coords, e, y) == Ok(TestValue(f, bp, co, atoms, nUp, coords, e, y))
  {
    hide Pair;
    var spin := SpinOf(e, nUp);
    var moved := coords[e := y];
    TwoBodyAsWrittenMatching(f, bp, co, spin + 1, y, moved[nUp..], nUp);
    TwoBodyAsWrittenMatching(f, bp, co, spin + 1, coords[e], coords[nUp..], nUp);
    assert TestValueDeltaAsWritten(f, bp, co, atoms, nUp, coords, e, y) ==
           Ok(TestValueDelta(f, bp, co, atoms, nUp, coords, e, y));
  }

  /* A configuration that shows the difference: two up electrons and one down
     electron, all at the origin, no nuclei, no polypade terms, and only the
     up-down cusp coefficient set (to 1). Every pair is then at distance 0. */

  const Origin := Vec3(0.0, 0.0, 0.0)
  const ExampleBasis := BasisParameters([], [], [], 7.5, 24.0)
  const ExampleCoefficients := Coefficients([], [[0.0, 1.0, 0.0]])
  const ExampleCoords := [Origin, Origin, Origin]

  /** The pair terms of the example: no polypade part, and a cusp part of
      bcoeff[0][column] * rcut / (3 + gamma) at distance 0. */
  lemma ExamplePairs(f: Fns, column: nat)
    requires SqrtLaws(f) && column < 3
    ensures PadeFn(f, ExampleBasis, ExampleCoefficients, column)(Origin, Origin) == 0.0
    ensures CuspFn(f, ExampleBasis, ExampleCoefficients, column)(Origin, Origin) ==
            Times(ExampleCoefficients.bcoeff[0][column], 7.5 / 27.0)
  {
    hide Pair, PairAt;
    var bp, co := ExampleBasis, ExampleCoefficients;
    SelfPairAtZero(f, BPade(bp, co, column), Origin);
    SelfPairAtZero(f, BCusp(bp, co, column), Origin);
    PadeAtZero(BPade(bp, co, column));
    CuspAtZero(BCusp(bp, co, column));
  }

  /** Against two centres at the same point a row counts the pair term twice. */
  lemma RowTwice(F: (Vec3, Vec3) -> real, p: Vec3, q: Vec3)
    ensures Row(F, p, [q, q]) == F(p, q) + F(p, q)
  {
    assert [q, q][..1] == [q];
    RowSingle(F, p, q);
  }

  /** The blocks of the example: the intended ones, and those of the code
      as written, whose up-down cusp term is tiled to two rows against the
      single down electron. */
  lemma ExampleBlocks(f: Fns)
    requires SqrtLaws(f)
    ensures var bp, co, o := ExampleBasis, ExampleCoefficients, Origin;
      TwoBodies(f, bp, co, 0, [o, o], [o, o]) == [0.0, 0.0] &&
      TwoBodies(f, bp, co, 1, [o, o], [o]) == [7.5 / 27.0, 7.5 / 27.0] &&
      TwoBodies(f, bp, co, 2, [o], [o]) == [0.0] &&
      TwoBodiesAsWritten(f, bp, co, 0, [o, o], [o, o], 2) == Ok([0.0, 0.0]) &&
      TwoBodiesAsWritten(f, bp, co, 1, [o, o], [o], 2) == Ok([2.0 * (7.5 / 27.0), 2.0 * (7.5 / 27.0)]) &&
      TwoBodiesAsWritten(f, bp, co, 2, [o], [o], 2) == Ok([0.0])
  {
    hide Pair, PairAt;
    var bp, co, o := ExampleBasis, ExampleCoefficients, Origin;
    var k := 7.5 / 27.0;
    ExamplePairs(f, 0);
    ExamplePairs(f, 1);
    ExamplePairs(f, 2);
    var pade0, cusp0 := PadeFn(f, bp, co, 0), CuspFn(f, bp, co, 0);
    var pade1, cusp1 := PadeFn(f, bp, co, 1), CuspFn(f, bp, co, 1);
    var pade2, cusp2 := PadeFn(f, bp, co, 2), CuspFn(f, bp, co, 2);
    RowTwice(pade0, o, o);
    RowTwice(cusp0, o, o);
    RowSingle(pade1, o, o);
    RowSingle(cusp1, o, o);
    RowSingle(pade2, o, o);
    RowSingle(cusp2, o, o);
    assert TwoBodies(f, bp, co, 0, [o, o], [o, o]) == [0.0, 0.0];
    assert TwoBodies(f, bp, co, 1, [o, o], [o]) == [k, k];
    assert TwoBodies(f, bp, co, 2, [o], [o]) == [0.0];
    TwoBodiesAsWrittenMatching(f, bp, co, 0, [o, o], [o, o]);
    assert TwoBodyAsWritten(f, bp, co, 1, o, [o], 2) == Ok(2.0 * k);
    assert TwoBodyAsWritten(f, bp, co, 2, o, [o], 2) == Ok(0.0);
    assert TwoBodiesAsWritten(f, bp, co, 1, [o, o], [o], 2).value == [2.0 * k, 2.0 * k];
    assert TwoBodiesAsWritten(f, bp, co, 2, [o], [o], 2).value == [0.0];
  }

  /** The code as written doubles the up-down cusp term of this configuration:
      log J is 4 rcut / (3 + gamma) where the intended value is 2 rcut / (3 + gamma). */
  lemma EvaluateJastrowAsWrittenCounterexample(f: Fns)
    requires SqrtLaws(f)
    ensures EvaluateJastrow(f, ExampleBasis, ExampleCoefficients, [], 2, ExampleCoords).logj == 2.0 * (7.5 / 27.0)
    ensures EvaluateJastrowAsWritten(f, ExampleBasis, ExampleCoefficients, [], 2, ExampleCoords) ==
            Ok(LogJastrow(0.0, 4.0 * (7.5 / 27.0), 4.0 * (7.5 / 27.0)))
  {
    hide Pair, PairAt;
    var bp, co, o := ExampleBasis, ExampleCoefficients, Origin;
    var up, down := ExampleCoords[..2], ExampleCoords[2..];
    assert up == [o, o] && down == [o];
    ExampleBlocks(f);
    // the one-body terms vanish without nuclei
    assert OneBodies(f, bp, co, [], 0, up) == [0.0, 0.0];
    assert OneBodies(f, bp, co, [], 1, down) == [0.0];
    BdiagIsSelfTerms(bp, co, 2, 1);
    assert BdiagCorr(bp, co, 2, 1) == 0.0;
    ExampleVectors(7.5 / 27.0);
  }

  /** A single up electron and no down electron (the hydrogen atom): numpy
      broadcasts the length-1 up vectors against the empty down vectors to
      empty sums, so as written log J has no one-body term and its two-body
      part is -bdiag/2, wherever the electron is; the intended one-body term
      is the electron's own. */
  lemma EvaluateJastrowAsWrittenSingleUp(f: Fns, bp: BasisParameters, co: Coefficients, atoms: seq<Vec3>,
                                          nUp: nat, coords: seq<Vec3>)
    requires Setup(f, bp, co, atoms) && nUp == |coords| == 1
    ensures EvaluateJastrow(f, bp, co, atoms, nUp, coords).a == OneBody(f, bp, co, atoms, 0, coords[0])
    ensures EvaluateJastrowAsWritten(f, bp, co, atoms, nUp, coords) ==
            Ok(LogJastrow(0.0, -BdiagCorr(bp, co, nUp, 0) / 2.0, -BdiagCorr(bp, co, nUp, 0) / 2.0))
  {
    hide Pair, OneBody, Row, BdiagCorr, TwoBodyAsWritten, TwoBodies;
    var x := coords[0];
    assert coords[..1] == [x] && coords[1..] == [];
    var aUp, aDown := OneBodies(f, bp, co, atoms, 0, [x]), OneBodies(f, bp, co, atoms, 1, []);
    assert aUp == [OneBody(f, bp, co, atoms, 0, x)] && aDown == [];
    assert Sum(aUp) == OneBody(f, bp, co, atoms, 0, x) && Sum(aDown) == 0.0;
    BroadcastSingleEmpty(aUp);
    var upUp := TwoBodiesAsWritten(f, bp, co, 0, [x], [x], 1);
    var upDown := TwoBodiesAsWritten(f, bp, co, 1, [x], [], 1);
    var downDown := TwoBodiesAsWritten(f, bp, co, 2, [], [], 1);
    assert downDown == Ok([]);
    BroadcastSingleEmpty(upUp.value);
    BroadcastSingleEmpty(upDown.value);
    assert Halve([]) == [] && Sum([]) == 0.0;
  }

  /** A length-1 vector broadcast against an empty one, on either side, gives
      an empty vector. */
  lemma BroadcastSingleEmpty(u: seq<real>)
    requires |u| == 1
    ensures BroadcastAdd(u, []) == Ok([]) && BroadcastAdd([], u) == Ok([])
  {
    assert |BroadcastAdd(u, []).value| == 0 && |BroadcastAdd([], u).value| == 0;
  }

  /** The vector arithmetic of the example, for a cusp term k. */
  lemma ExampleVectors(k: real)
    ensures Sum([0.0]) == 0.0 && Sum([0.0, 0.0]) == 0.0
    ensures Sum([k, k]) == 2.0 * k && Sum([2.0 * k, 2.0 * k]) == 4.0 * k
    ensures BroadcastAdd([0.0, 0.0], [0.0]) == Ok([0.0, 0.0])
    ensures Halve([0.0, 0.0]) == [0.0, 0.0]
    ensures BroadcastAdd([0.0, 0.0], [2.0 * k, 2.0 * k]) == Ok([2.0 * k, 2.0 * k])
  {
    assert [0.0, 0.0][..1] == [0.0] && [k, k][..1] == [k] && [2.0 * k, 2.0 * k][..1] == [2.0 * k];
    assert BroadcastAdd([0.0, 0.0], [0.0]).value == [0.0, 0.0];
    assert Halve([0.0, 0.0]) == [0.0, 0.0];
    assert Add([0.0, 0.0], [2.0 * k, 2.0 * k]) == [2.0 * k, 2.0 * k];
  }
}
