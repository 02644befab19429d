/** The multi-determinant Slater wave function of `pyqmc/jax/slater.py`, for
    one electron configuration (the source maps every function below over the
    configurations of a batch with `jax.vmap`; no configuration reads another).

    Per spin channel a `SlaterState` holds, for every determinant of that spin,
    its sign, log|det| and the inverse of its occupied-orbital submatrix. Those
    come from `jnp.linalg.slogdet` and `jnp.linalg.inv`, which are not modelled:
    the states are inputs here, and where a property needs the inverse to be
    exact it says so as a precondition (`IsRightInverse`). */
module Slater {
  import opened Wrappers
  import opened Analytic
  import opened RealSeq
  import opened Matrices

  datatype SlaterState = SlaterState(
    moValues: Option<Matrix>,  // electrons x orbitals; None once a commit has dropped it
    sign: seq<real>,           // per determinant of this spin
    logabs: seq<real>,         // per determinant of this spin
    inverse: seq<Matrix>)      // per determinant of this spin

  datatype DeterminantParameters = DeterminantParameters(
    ciCoeff: seq<real>, moCoeffAlpha: Matrix, moCoeffBeta: Matrix)

  /** Which per-spin determinants each CI term multiplies, and which orbitals
      each per-spin determinant occupies. */
  datatype DeterminantExpansion = DeterminantExpansion(
    mappingUp: seq<nat>, mappingDown: seq<nat>,
    determinantsUp: seq<seq<nat>>, determinantsDown: seq<seq<nat>>)

  /** A wave-function value stored as (sign, log|value|). */
  datatype LogValue = LogValue(sign: real, logabs: real)

  /** The value a (sign, log-magnitude) pair stands for. */
  function Represented(f: Fns, sign: real, logabs: real): real {
    sign * f.Exp(logabs)
  }

  /** The CI mapping can gather from both spins' determinant arrays: one
      coefficient per term, at least one term, every index in range. */
  predicate Gatherable(ex: DeterminantExpansion, ci: seq<real>, up: SlaterState, down: SlaterState) {
    |ex.mappingUp| == |ex.mappingDown| == |ci| > 0 &&
    |up.sign| == |up.logabs| && |down.sign| == |down.logabs| &&
    InRange(ex.mappingUp, |up.logabs|) && InRange(ex.mappingDown, |down.logabs|)
  }

  /** Per-determinant signs as slogdet returns them. */
  predicate UnitSigns(st: SlaterState) {
    forall d :: 0 <= d < |st.sign| ==> st.sign[d] == -1.0 || st.sign[d] == 0.0 || st.sign[d] == 1.0
  }

  /** Per CI term: up log|det| plus down log|det| through the mapping. */
  function TermLogs(ex: DeterminantExpansion, up: SlaterState, down: SlaterState): (l: seq<real>)
    requires |ex.mappingUp| == |ex.mappingDown|
    requires InRange(ex.mappingUp, |up.logabs|) && InRange(ex.mappingDown, |down.logabs|)
    ensures |l| == |ex.mappingUp|
  {
    Add(Take(up.logabs, ex.mappingUp), Take(down.logabs, ex.mappingDown))
  }

  /** Per CI term: the product of the mapped up and down signs. */
  function TermSigns(ex: DeterminantExpansion, up: SlaterState, down: SlaterState): (s: seq<real>)
    requires |ex.mappingUp| == |ex.mappingDown|
    requires InRange(ex.mappingUp, |up.sign|) && InRange(ex.mappingDown, |down.sign|)
    ensures |s| == |ex.mappingUp|
  {
    var n := |ex.mappingUp|;
    seq(n, i requires 0 <= i < n => up.sign[ex.mappingUp[i]] * down.sign[ex.mappingDown[i]])
  }

  /** The terms c_i s_i exp(l_i - ref) of the shifted CI sum. */
  function ShiftedTerms(f: Fns, ci: seq<real>, signs: seq<real>, logs: seq<real>, ref: real): (t: seq<real>)
    requires |ci| == |signs| == |logs|
    ensures |t| == |ci|
  {
    seq(|ci|, i requires 0 <= i < |ci| => ci[i] * signs[i] * f.Exp(logs[i] - ref))
  }

  /** The terms c_i s_i exp(l_i) of the CI sum the expansion stands for. */
  function ValueTerms(f: Fns, ci: seq<real>, signs: seq<real>, logs: seq<real>): (t: seq<real>)
    requires |ci| == |signs| == |logs|
    ensures |t| == |ci|
  {
    seq(|ci|, i requires 0 <= i < |ci| => ci[i] * signs[i] * f.Exp(logs[i]))
  }

  /** sum_i c_i s_i exp(l_i): the multi-determinant value, without any shift. */
  function ExpansionValue(f: Fns, ci: seq<real>, signs: seq<real>, logs: seq<real>): real
    requires |ci| == |signs| == |logs|
  {
    Sum(ValueTerms(f, ci, signs, logs))
  }

  /** Term by term, the shifted term times exp(ref) is the unshifted term. */
  lemma ShiftedTermsScale(f: Fns, ci: seq<real>, signs: seq<real>, logs: seq<real>, ref: real)
    requires ExpLaws(f)
    requires |ci| == |signs| == |logs|
    ensures forall i :: 0 <= i < |ci| ==>
      ValueTerms(f, ci, signs, logs)[i] == Times(ShiftedTerms(f, ci, signs, logs, ref)[i], f.Exp(ref))
  {
    var shifted := ShiftedTerms(f, ci, signs, logs, ref);
    var plain := ValueTerms(f, ci, signs, logs);
    forall i | 0 <= i < |ci|
      ensures plain[i] == Times(shifted[i], f.Exp(ref))
    {
      var l := logs[i];
      assert ExpSumLaw(f, l - ref, ref);
      assert (l - ref) + ref == l;
      assert f.Exp(l - ref) * f.Exp(ref) == f.Exp(l);
      calc {
        plain[i];
        ci[i] * signs[i] * f.Exp(l);
        ci[i] * signs[i] * (f.Exp(l - ref) * f.Exp(ref));
        (ci[i] * signs[i] * f.Exp(l - ref)) * f.Exp(ref);
      }
    }
  }

  /** Shifting every exponent by `ref` divides the CI sum by exp(ref).
      (`total` names the shifted sum, so that callers combine this fact with
      others about the same value.) */
  lemma ShiftedSumScales(f: Fns, ci: seq<real>, signs: seq<real>, logs: seq<real>, ref: real, total: real)
    requires ExpLaws(f)
    requires |ci| == |signs| == |logs|
    requires total == Sum(ShiftedTerms(f, ci, signs, logs, ref))
    ensures Times(total, f.Exp(ref)) == ExpansionValue(f, ci, signs, logs)
  {
    ShiftedTermsScale(f, ci, signs, logs, ref);
    SumScale(ShiftedTerms(f, ci, signs, logs, ref), f.Exp(ref), ValueTerms(f, ci, signs, logs));
  }

  /** (Sign(v), log|v| + ref) stands for v * exp(ref); for v == 0 both are 0. */
  lemma RepresentsShifted(f: Fns, v: real, ref: real)
    requires ExpLaws(f) && LogLaws(f)
    ensures Represented(f, Sign(v), f.Log(Abs(v)) + ref) == v * f.Exp(ref)
  {
    if v != 0.0 {
      SignTimesAbs(v);
      ExpAdd(f, f.Log(Abs(v)), ref);
      ExpOfLog(f, Abs(v));
      calc {
        Represented(f, Sign(v), f.Log(Abs(v)) + ref);
        Sign(v) * (Abs(v) * f.Exp(ref));
        (Sign(v) * Abs(v)) * f.Exp(ref);
      }
    }
  }

  /** `evaluate_expansion` after the two `compute_determinants` calls: gather
      the per-term logs and signs and combine them. */
  function EvaluateExpansion(f: Fns, ex: DeterminantExpansion, p: DeterminantParameters,
                             up: SlaterState, down: SlaterState): (r: LogValue)
    requires Gatherable(ex, p.ciCoeff, up, down)
    ensures r.sign == -1.0 || r.sign == 0.0 || r.sign == 1.0
  {
    CombineTerms(f, p.ciCoeff, TermSigns(ex, up, down), TermLogs(ex, up, down))
  }

  /** Shift every term by the largest log, sum, and return the sign and
      log|sum| + ref of the result. */
  function CombineTerms(f: Fns, ci: seq<real>, signs: seq<real>, logs: seq<real>): (r: LogValue)
    requires |ci| == |signs| == |logs| > 0
    ensures r.sign == -1.0 || r.sign == 0.0 || r.sign == 1.0
  {
    var ref := Max(logs);
    var values := Sum(ShiftedTerms(f, ci, signs, logs, ref));
    LogValue(Sign(values), f.Log(Abs(values)) + ref)
  }

  /** The returned (sign, log-magnitude) stands for exactly the CI sum
      sum_i c_i s_i exp(l_i), whatever the spread of the l_i; a zero sum
      (a node) comes back with sign 0. */
  lemma ExpansionRepresentsValue(f: Fns, ex: DeterminantExpansion, p: DeterminantParameters,
                                 up: SlaterState, down: SlaterState)
    requires ExpLaws(f) && LogLaws(f)
    requires Gatherable(ex, p.ciCoeff, up, down)
    ensures var r := EvaluateExpansion(f, ex, p, up, down);
      Represented(f, r.sign, r.logabs) ==
      ExpansionValue(f, p.ciCoeff, TermSigns(ex, up, down), TermLogs(ex, up, down))
  {
    CombinedRepresentsValue(f, p.ciCoeff, TermSigns(ex, up, down), TermLogs(ex, up, down));
  }

  lemma CombinedRepresentsValue(f: Fns, ci: seq<real>, signs: seq<real>, logs: seq<real>)
    requires ExpLaws(f) && LogLaws(f)
    requires |ci| == |signs| == |logs| > 0
    ensures var r := CombineTerms(f, ci, signs, logs);
      Represented(f, r.sign, r.logabs) == ExpansionValue(f, ci, signs, logs)
  {
    var ref := Max(logs);
    var total := Sum(ShiftedTerms(f, ci, signs, logs, ref));
    ShiftedSumScales(f, ci, signs, logs, ref, total);
    RepresentsShifted(f, total, ref);
  }

  /** A single-term expansion with coefficient 1 reduces to the plain product
      of the two determinants: the shift is by the only term's own log. */
  lemma SingleDeterminantExpansion(f: Fns, ex: DeterminantExpansion, p: DeterminantParameters,
                                   up: SlaterState, down: SlaterState)
    requires ExpLaws(f) && LogLaws(f)
    requires Gatherable(ex, p.ciCoeff, up, down) && UnitSigns(up) && UnitSigns(down)
    requires p.ciCoeff == [1.0]
    requires up.sign[ex.mappingUp[0]] != 0.0 && down.sign[ex.mappingDown[0]] != 0.0
    ensures EvaluateExpansion(f, ex, p, up, down) ==
      LogValue(up.sign[ex.mappingUp[0]] * down.sign[ex.mappingDown[0]],
               up.logabs[ex.mappingUp[0]] + down.logabs[ex.mappingDown[0]])
  {
    var su := up.sign[ex.mappingUp[0]];
    var sd := down.sign[ex.mappingDown[0]];
    var logs := TermLogs(ex, up, down);
    var signs := TermSigns(ex, up, down);
    assert signs[0] == su * sd;
    assert su == 1.0 || su == -1.0;
    assert sd == 1.0 || sd == -1.0;
    SingleTermCombines(f, p.ciCoeff, signs, logs);
    assert logs[0] == up.logabs[ex.mappingUp[0]] + down.logabs[ex.mappingDown[0]];
    assert EvaluateExpansion(f, ex, p, up, down) == CombineTerms(f, p.ciCoeff, signs, logs);
  }

  /** One term with coefficient 1 and a unit sign combines to itself. */
  lemma SingleTermCombines(f: Fns, ci: seq<real>, signs: seq<real>, logs: seq<real>)
    requires ExpLaws(f) && LogLaws(f)
    requires ci == [1.0] && |signs| == |logs| == 1 && (signs[0] == 1.0 || signs[0] == -1.0)
    ensures CombineTerms(f, ci, signs, logs) == LogValue(signs[0], logs[0])
  {
    assert Max(logs) == logs[0];
    SingleShiftedSum(f, ci, signs, logs);
    assert Abs(signs[0]) == 1.0 && Sign(signs[0]) == signs[0];
  }

  /** With one term of coefficient 1 and a unit sign, the shifted sum is
      that sign. */
  lemma SingleShiftedSum(f: Fns, ci: seq<real>, signs: seq<real>, logs: seq<real>)
    requires ExpLaws(f)
    requires ci == [1.0] && |signs| == |logs| == 1 && (signs[0] == 1.0 || signs[0] == -1.0)
    ensures Sum(ShiftedTerms(f, ci, signs, logs, logs[0])) == signs[0]
  {
    ExpZero(f);
    assert logs[0] - logs[0] == 0.0;
    var t := ShiftedTerms(f, ci, signs, logs, logs[0]);
    assert t == [signs[0]];
    assert t[..0] == [];
  }

  // ---------------------------------------------------------------------
  // Single-electron ratio (determinant lemma) and test values
  // ---------------------------------------------------------------------

  /** The determinants of one spin are well shaped: `n` electrons, each
      determinant occupies `n` of the `norb` orbitals and carries an n-by-n
      inverse. */
  predicate ValidSpin(st: SlaterState, dets: seq<seq<nat>>, n: nat, norb: nat) {
    |st.sign| == |st.logabs| == |st.inverse| == |dets| &&
    forall d :: 0 <= d < |dets| ==>
      |dets[d]| == n && InRange(dets[d], norb) && IsMatrix(st.inverse[d], n, n)
  }

  /** `_determinant_lemma`: the orbital row restricted to the determinant's
      columns, dotted with column e of the cached inverse. */
  function DeterminantLemma(mos: seq<real>, inverse: Matrix, det: seq<nat>, e: nat): real
    requires InRange(det, |mos|) && IsMatrix(inverse, |det|, |det|) && e < |det|
  {
    Dot(Take(mos, det), Column(inverse, e))
  }

  /** With an exact inverse of the occupied submatrix, the ratio for putting
      electron e at the orbitals of electron j is 1 when j == e (no move) and
      0 otherwise (two equal rows). */
  lemma DeterminantLemmaAtRow(mosMatrix: Matrix, inverse: Matrix, det: seq<nat>, e: nat, j: nat)
    requires |mosMatrix| == |det| && e < |det| && j < |det|
    requires forall i :: 0 <= i < |mosMatrix| ==> InRange(det, |mosMatrix[i]|)
    requires IsMatrix(inverse, |det|, |det|)
    requires IsRightInverse(TakeColumns(mosMatrix, det), inverse, |det|)
    ensures DeterminantLemma(mosMatrix[j], inverse, det, e) == if j == e then 1.0 else 0.0
  {
    assert TakeColumns(mosMatrix, det)[j] == Take(mosMatrix[j], det);
  }

  /** `jnp.dot(aos, mo_coeff)`: the molecular-orbital row at one position. */
  function MoRow(aos: seq<real>, moCoeff: Matrix): (mos: seq<real>)
    requires IsMatrix(moCoeff, |aos|, Cols(moCoeff))
    ensures |mos| == Cols(moCoeff)
  {
    RowTimes(aos, moCoeff, Cols(moCoeff))
  }

  /** Per-determinant ratios for moving electron e of one spin to orbitals `mos`. */
  function Ratios(mos: seq<real>, st: SlaterState, dets: seq<seq<nat>>, e: nat, n: nat): (r: seq<real>)
    requires ValidSpin(st, dets, n, |mos|) && e < n
    ensures |r| == |dets|
  {
    seq(|dets|, d requires 0 <= d < |dets| => DeterminantLemma(mos, st.inverse[d], dets[d], e))
  }

  /** The spin's determinants after the move: sign(ratio) * sign and
      logabs + log|ratio|. */
  function Moved(f: Fns, st: SlaterState, ratios: seq<real>): (m: SlaterState)
    requires |ratios| == |st.sign| == |st.logabs|
    ensures |m.sign| == |m.logabs| == |st.sign|
  {
    var k := |ratios|;
    st.(sign := seq(k, d requires 0 <= d < k => Sign(ratios[d]) * st.sign[d]),
        logabs := seq(k, d requires 0 <= d < k => st.logabs[d] + f.Log(Abs(ratios[d]))))
  }

  /** Each moved determinant stands for its old value times its ratio. */
  lemma MovedValue(f: Fns, st: SlaterState, ratios: seq<real>, d: nat)
    requires ExpLaws(f) && LogLaws(f)
    requires |ratios| == |st.sign| == |st.logabs| && d < |ratios|
    ensures Represented(f, Moved(f, st, ratios).sign[d], Moved(f, st, ratios).logabs[d]) ==
            ratios[d] * Represented(f, st.sign[d], st.logabs[d])
  {
    var m := Moved(f, st, ratios);
    assert m.sign[d] == Sign(ratios[d]) * st.sign[d];
    assert m.logabs[d] == st.logabs[d] + f.Log(Abs(ratios[d]));
    RepresentsScaled(f, st.sign[d], st.logabs[d], ratios[d]);
  }

  /** Multiplying by r in (sign, log) form: (Sign(r) s, l + log|r|) stands
      for r times what (s, l) stands for. */
  lemma RepresentsScaled(f: Fns, s: real, l: real, r: real)
    requires ExpLaws(f) && LogLaws(f)
    ensures Represented(f, Sign(r) * s, l + f.Log(Abs(r))) == r * Represented(f, s, l)
  {
    if r != 0.0 {
      SignTimesAbs(r);
      ExpAdd(f, l, f.Log(Abs(r)));
      ExpOfLog(f, Abs(r));
      calc {
        Represented(f, Sign(r) * s, l + f.Log(Abs(r)));
        (Sign(r) * s) * (f.Exp(l) * Abs(r));
        (Sign(r) * Abs(r)) * (s * f.Exp(l));
      }
    }
  }

  /** New over old CI value, both shifted by one shared reference (the
      largest log over the old and the new terms). A zero old value has no
      finite ratio (numpy returns inf or nan): None. */
  function RatioOfExpansions(f: Fns, ex: DeterminantExpansion, ci: seq<real>,
                             upNew: SlaterState, downNew: SlaterState,
                             upOld: SlaterState, downOld: SlaterState): Option<real>
    requires Gatherable(ex, ci, upNew, downNew) && Gatherable(ex, ci, upOld, downOld)
  {
    var logs := TermLogs(ex, upNew, downNew);
    var logsOld := TermLogs(ex, upOld, downOld);
    var ref := Max(logs + logsOld);
    Quotient(Sum(ShiftedTerms(f, ci, TermSigns(ex, upNew, downNew), logs, ref)),
             Sum(ShiftedTerms(f, ci, TermSigns(ex, upOld, downOld), logsOld, ref)))
  }

  /** a / b, with no finite value for b == 0 (numpy's inf or nan). */
  function Quotient(a: real, b: real): (q: Option<real>)
    ensures q.Some? <==> b != 0.0
  {
    if b == 0.0 then None else Some(a / b)
  }

  /** The shared reference cancels: the test value is exactly the ratio of the
      two unshifted CI values, and has no finite value exactly at a node. */
  lemma RatioOfExpansionsIsValueRatio(f: Fns, ex: DeterminantExpansion, ci: seq<real>,
                                      upNew: SlaterState, downNew: SlaterState,
                                      upOld: SlaterState, downOld: SlaterState)
    requires ExpLaws(f)
    requires Gatherable(ex, ci, upNew, downNew) && Gatherable(ex, ci, upOld, downOld)
    ensures var vNew := ExpansionValue(f, ci, TermSigns(ex, upNew, downNew), TermLogs(ex, upNew, downNew));
            var vOld := ExpansionValue(f, ci, TermSigns(ex, upOld, downOld), TermLogs(ex, upOld, downOld));
            RatioOfExpansions(f, ex, ci, upNew, downNew, upOld, downOld) == Quotient(vNew, vOld)
  {
    var ref := Max(TermLogs(ex, upNew, downNew) + TermLogs(ex, upOld, downOld));
    var values := Sum(ShiftedTerms(f, ci, TermSigns(ex, upNew, downNew), TermLogs(ex, upNew, downNew), ref));
    var valuesOld := Sum(ShiftedTerms(f, ci, TermSigns(ex, upOld, downOld), TermLogs(ex, upOld, downOld), ref));
    assert RatioOfExpansions(f, ex, ci, upNew, downNew, upOld, downOld) == Quotient(values, valuesOld);
    ShiftedSumScales(f, ci, TermSigns(ex, upNew, downNew), TermLogs(ex, upNew, downNew), ref, values);
    ShiftedSumScales(f, ci, TermSigns(ex, upOld, downOld), TermLogs(ex, upOld, downOld), ref, valuesOld);
    ExpPositive(f, ref);
    QuotientCancel(ExpansionValue(f, ci, TermSigns(ex, upNew, downNew), TermLogs(ex, upNew, downNew)),
                   ExpansionValue(f, ci, TermSigns(ex, upOld, downOld), TermLogs(ex, upOld, downOld)),
                   values, valuesOld, f.Exp(ref));
  }

  /** With nothing moved the ratio is 1, or has no finite value at a node. */
  lemma RatioOfExpansionsUnmoved(f: Fns, ex: DeterminantExpansion, ci: seq<real>, up: SlaterState, down: SlaterState)
    requires Gatherable(ex, ci, up, down)
    ensures RatioOfExpansions(f, ex, ci, up, down, up, down) in {None, Some(1.0)}
  {
    var values := Sum(ShiftedTerms(f, ci, TermSigns(ex, up, down), TermLogs(ex, up, down),
                                   Max(TermLogs(ex, up, down) + TermLogs(ex, up, down))));
    if values != 0.0 {
      SelfQuotient(values);
    }
  }

  lemma SelfQuotient(x: real)
    requires x != 0.0
    ensures x / x == 1.0
  {
  }

  lemma MulNonZero(a: real, b: real)
    requires a != 0.0 && b > 0.0
    ensures a * b != 0.0
  {
    if a > 0.0 {
      assert a * b > 0.0;
    } else {
      assert a * b < 0.0;
    }
  }

  /** A common positive factor neither creates nor removes a zero
      denominator and cancels from a quotient. */
  lemma QuotientCancel(a: real, b: real, a0: real, b0: real, x: real)
    requires x > 0.0 && a == Times(a0, x) && b == Times(b0, x)
    ensures Quotient(a, b) == Quotient(a0, b0)
  {
    assert a == a0 * x && b == b0 * x;
    if b0 != 0.0 {
      MulNonZero(b0, x);
      var q := a0 / b0;
      assert q * b0 == a0;
      assert q * b == (q * b0) * x;
      assert a / b == q;
    }
  }

  /** `testvalue_up`: the ratio psi(new)/psi(old) for moving up electron `e`
      (its index within the up spin) to a position with basis values `aos`;
      the down spin's arrays are used unchanged. Also returns the orbital row. */
  function TestValueUp(f: Fns, ex: DeterminantExpansion, p: DeterminantParameters,
                       up: SlaterState, down: SlaterState, e: nat, n: nat, aos: seq<real>): (Option<real>, seq<real>)
    requires IsMatrix(p.moCoeffAlpha, |aos|, Cols(p.moCoeffAlpha))
    requires ValidSpin(up, ex.determinantsUp, n, Cols(p.moCoeffAlpha)) && e < n
    requires Gatherable(ex, p.ciCoeff, up, down)
  {
    var mos := MoRow(aos, p.moCoeffAlpha);
    var upNew := Moved(f, up, Ratios(mos, up, ex.determinantsUp, e, n));
    (RatioOfExpansions(f, ex, p.ciCoeff, upNew, down, up, down), mos)
  }

  /** `testvalue_down`: as `TestValueUp` with the roles of the spins swapped. */
  function TestValueDown(f: Fns, ex: DeterminantExpansion, p: DeterminantParameters,
                         up: SlaterState, down: SlaterState, e: nat, n: nat, aos: seq<real>): (Option<real>, seq<real>)
    requires IsMatrix(p.moCoeffBeta, |aos|, Cols(p.moCoeffBeta))
    requires ValidSpin(down, ex.determinantsDown, n, Cols(p.moCoeffBeta)) && e < n
    requires Gatherable(ex, p.ciCoeff, up, down)
  {
    var mos := MoRow(aos, p.moCoeffBeta);
    var downNew := Moved(f, down, Ratios(mos, down, ex.determinantsDown, e, n));
    (RatioOfExpansions(f, ex, p.ciCoeff, up, downNew, up, down), mos)
  }

  /** The up test value is psi(new)/psi(old), where psi(new) is the CI sum
      over the moved up determinants (each one its old value times its
      determinant-lemma ratio, by `MovedValue`). */
  lemma TestValueUpIsWaveFunctionRatio(f: Fns, ex: DeterminantExpansion, p: DeterminantParameters,
      up: SlaterState, down: SlaterState, e: nat, n: nat, aos: seq<real>)
    requires ExpLaws(f)
    requires IsMatrix(p.moCoeffAlpha, |aos|, Cols(p.moCoeffAlpha))
    requires ValidSpin(up, ex.determinantsUp, n, Cols(p.moCoeffAlpha)) && e < n
    requires Gatherable(ex, p.ciCoeff, up, down)
    ensures var upNew := Moved(f, up, Ratios(MoRow(aos, p.moCoeffAlpha), up, ex.determinantsUp, e, n));
            var vNew := ExpansionValue(f, p.ciCoeff, TermSigns(ex, upNew, down), TermLogs(ex, upNew, down));
            var vOld := ExpansionValue(f, p.ciCoeff, TermSigns(ex, up, down), TermLogs(ex, up, down));
            TestValueUp(f, ex, p, up, down, e, n, aos).0 == Quotient(vNew, vOld)
  {
    var upNew := Moved(f, up, Ratios(MoRow(aos, p.moCoeffAlpha), up, ex.determinantsUp, e, n));
    RatioOfExpansionsIsValueRatio(f, ex, p.ciCoeff, upNew, down, up, down);
  }

  /** The down test value is psi(new)/psi(old) in the same sense. */
  lemma TestValueDownIsWaveFunctionRatio(f: Fns, ex: DeterminantExpansion, p: DeterminantParameters,
      up: SlaterState, down: SlaterState, e: nat, n: nat, aos: seq<real>)
    requires ExpLaws(f)
    requires IsMatrix(p.moCoeffBeta, |aos|, Cols(p.moCoeffBeta))
    requires ValidSpin(down, ex.determinantsDown, n, Cols(p.moCoeffBeta)) && e < n
    requires Gatherable(ex, p.ciCoeff, up, down)
    ensures var downNew := Moved(f, down, Ratios(MoRow(aos, p.moCoeffBeta), down, ex.determinantsDown, e, n));
            var vNew := ExpansionValue(f, p.ciCoeff, TermSigns(ex, up, downNew), TermLogs(ex, up, downNew));
            var vOld := ExpansionValue(f, p.ciCoeff, TermSigns(ex, up, down), TermLogs(ex, up, down));
            TestValueDown(f, ex, p, up, down, e, n, aos).0 == Quotient(vNew, vOld)
  {
    var downNew := Moved(f, down, Ratios(MoRow(aos, p.moCoeffBeta), down, ex.determinantsDown, e, n));
    RatioOfExpansionsIsValueRatio(f, ex, p.ciCoeff, up, downNew, up, down);
  }


  /** When every per-determinant ratio is 1 the spin's arrays do not change,
      so the test value is 1 (or has no finite value, at a node). */
  lemma UnitRatiosLeaveSpinUnchanged(f: Fns, st: SlaterState, ratios: seq<real>)
    requires LogLaws(f)
    requires |ratios| == |st.sign| == |st.logabs|
    requires forall d :: 0 <= d < |ratios| ==> ratios[d] == 1.0
    ensures Moved(f, st, ratios) == st
  {
    var m := Moved(f, st, ratios);
    assert Sign(1.0) == 1.0 && Abs(1.0) == 1.0;
    assert m.sign == st.sign;
    assert m.logabs == st.logabs;
  }

  /** Proposing to move an up electron to the orbitals it already occupies
      (exact cached inverses) gives test value 1, unless the configuration
      sits on a node (CI value 0), where the quotient has no finite value. */
  lemma TestValueUpNoMove(f: Fns, ex: DeterminantExpansion, p: DeterminantParameters,
                          up: SlaterState, down: SlaterState, e: nat, n: nat, aos: seq<real>, mosMatrix: Matrix)
    requires ExpLaws(f) && LogLaws(f)
    requires IsMatrix(p.moCoeffAlpha, |aos|, Cols(p.moCoeffAlpha))
    requires ValidSpin(up, ex.determinantsUp, n, Cols(p.moCoeffAlpha)) && e < n
    requires Gatherable(ex, p.ciCoeff, up, down)
    requires IsMatrix(mosMatrix, n, Cols(p.moCoeffAlpha))
    requires MoRow(aos, p.moCoeffAlpha) == mosMatrix[e]
    requires forall d :: 0 <= d < |ex.determinantsUp| ==>
      IsRightInverse(TakeColumns(mosMatrix, ex.determinantsUp[d]), up.inverse[d], n)
    ensures var v := ExpansionValue(f, p.ciCoeff, TermSigns(ex, up, down), TermLogs(ex, up, down));
      TestValueUp(f, ex, p, up, down, e, n, aos).0 == if v == 0.0 then None else Some(1.0)
  {
    var mos := MoRow(aos, p.moCoeffAlpha);
    var ratios := Ratios(mos, up, ex.determinantsUp, e, n);
    forall d | 0 <= d < |ratios|
      ensures ratios[d] == 1.0
    {
      DeterminantLemmaAtRow(mosMatrix, up.inverse[d], ex.determinantsUp[d], e, e);
    }
    UnitRatiosLeaveSpinUnchanged(f, up, ratios);
    RatioOfExpansionsIsValueRatio(f, ex, p.ciCoeff, up, down, up, down);
    UnmovedQuotient(ExpansionValue(f, p.ciCoeff, TermSigns(ex, up, down), TermLogs(ex, up, down)));
  }

  /** The same for a down electron proposed at its own orbitals. */
  lemma TestValueDownNoMove(f: Fns, ex: DeterminantExpansion, p: DeterminantParameters,
                            up: SlaterState, down: SlaterState, e: nat, n: nat, aos: seq<real>, mosMatrix: Matrix)
    requires ExpLaws(f) && LogLaws(f)
    requires IsMatrix(p.moCoeffBeta, |aos|, Cols(p.moCoeffBeta))
    requires ValidSpin(down, ex.determinantsDown, n, Cols(p.moCoeffBeta)) && e < n
    requires Gatherable(ex, p.ciCoeff, up, down)
    requires IsMatrix(mosMatrix, n, Cols(p.moCoeffBeta))
    requires MoRow(aos, p.moCoeffBeta) == mosMatrix[e]
    requires forall d :: 0 <= d < |ex.determinantsDown| ==>
      IsRightInverse(TakeColumns(mosMatrix, ex.determinantsDown[d]), down.inverse[d], n)
    ensures var v := ExpansionValue(f, p.ciCoeff, TermSigns(ex, up, down), TermLogs(ex, up, down));
      TestValueDown(f, ex, p, up, down, e, n, aos).0 == if v == 0.0 then None else Some(1.0)
  {
    var mos := MoRow(aos, p.moCoeffBeta);
    var ratios := Ratios(mos, down, ex.determinantsDown, e, n);
    forall d | 0 <= d < |ratios|
      ensures ratios[d] == 1.0
    {
      DeterminantLemmaAtRow(mosMatrix, down.inverse[d], ex.determinantsDown[d], e, e);
    }
    UnitRatiosLeaveSpinUnchanged(f, down, ratios);
    RatioOfExpansionsIsValueRatio(f, ex, p.ciCoeff, up, down, up, down);
    UnmovedQuotient(ExpansionValue(f, p.ciCoeff, TermSigns(ex, up, down), TermLogs(ex, up, down)));
  }

  /** v / v is 1, or undefined at v == 0. */
  lemma UnmovedQuotient(v: real)
    ensures Quotient(v, v) == if v == 0.0 then None else Some(1.0)
  {
    if v != 0.0 {
      SelfQuotient(v);
    }
  }

  // ---------------------------------------------------------------------
  // Sherman-Morrison row update and the masked commit
  // ---------------------------------------------------------------------

  /** `tmp = vec @ inverse` for the orbital row restricted to the determinant. */
  function ShermanMorrisonTmp(inverse: Matrix, mos: seq<real>, det: seq<nat>): (tmp: seq<real>)
    requires InRange(det, |mos|) && IsMatrix(inverse, |det|, |det|)
    ensures |tmp| == |det|
  {
    RowTimes(Take(mos, det), inverse, |det|)
  }

  /** The updated inverse for a nonzero ratio: column e becomes
      inverse[:, e] / ratio, every other column j becomes
      inverse[:, j] - (inverse[:, e] / ratio) * tmp[j]. */
  function ShermanMorrisonInverse(e: nat, inverse: Matrix, tmp: seq<real>, ratio: real): (inv: Matrix)
    requires |tmp| == |inverse| && e < |inverse| && IsMatrix(inverse, |inverse|, |inverse|)
    requires ratio != 0.0
    ensures IsMatrix(inv, |inverse|, |inverse|)
  {
    var n := |inverse|;
    seq(n, k requires 0 <= k < n =>
      seq(n, j requires 0 <= j < n =>
        if j == e then inverse[k][e] / ratio else inverse[k][j] - (inverse[k][e] / ratio) * tmp[j]))
  }

  /** `_sherman_morrison_row`: the ratio and the inverse of the occupied
      submatrix after electron e's row is replaced by `mos[det]`. A zero
      ratio makes numpy's inverse non-finite: None. */
  function ShermanMorrisonRow(e: nat, inverse: Matrix, mos: seq<real>, det: seq<nat>): (r: (real, Option<Matrix>))
    requires InRange(det, |mos|) && IsMatrix(inverse, |det|, |det|) && e < |det|
    ensures r.0 == DeterminantLemma(mos, inverse, det, e)
    ensures r.1.Some? <==> r.0 != 0.0
    ensures r.1.Some? ==> IsMatrix(r.1.value, |det|, |det|)
  {
    var tmp := ShermanMorrisonTmp(inverse, mos, det);
    var ratio := tmp[e];
    if ratio == 0.0 then (ratio, None)
    else (ratio, Some(ShermanMorrisonInverse(e, inverse, tmp, ratio)))
  }

  /** Any row times column e of the updated inverse is 1/ratio times the
      row times the old column e. */
  lemma ShermanMorrisonEntryAtE(row: seq<real>, e: nat, inverse: Matrix, tmp: seq<real>, ratio: real, c: real)
    requires |tmp| == |inverse| == |row| && e < |inverse| && IsMatrix(inverse, |inverse|, |inverse|)
    requires ratio != 0.0 && c == 1.0 / ratio
    ensures Dot(row, Column(ShermanMorrisonInverse(e, inverse, tmp, ratio), e)) ==
            Times(c, Dot(row, Column(inverse, e)))
  {
    var inv := ShermanMorrisonInverse(e, inverse, tmp, ratio);
    forall k | 0 <= k < |inverse|
      ensures Column(inv, e)[k] == Times(c, Column(inverse, e)[k])
    {
      ScaleColumnE(inverse[k][e], ratio, c);
    }
    DotScale(row, Column(inverse, e), c, Column(inv, e));
  }

  lemma ScaleColumnE(x: real, ratio: real, c: real)
    requires ratio != 0.0 && c == 1.0 / ratio
    ensures x / ratio == Times(c, x)
  {
  }

  /** Any row times column j != e of the updated inverse, in terms of the
      same row times the old columns j and e. */
  lemma ShermanMorrisonEntryOffE(row: seq<real>, e: nat, inverse: Matrix, tmp: seq<real>, ratio: real, j: nat, c: real)
    requires |tmp| == |inverse| == |row| && e < |inverse| && IsMatrix(inverse, |inverse|, |inverse|)
    requires ratio != 0.0 && j < |inverse| && j != e && c == -tmp[j] / ratio
    ensures Dot(row, Column(ShermanMorrisonInverse(e, inverse, tmp, ratio), j)) ==
            Dot(row, Column(inverse, j)) + Times(c, Dot(row, Column(inverse, e)))
  {
    var inv := ShermanMorrisonInverse(e, inverse, tmp, ratio);
    forall k | 0 <= k < |inverse|
      ensures Column(inv, j)[k] == Column(inverse, j)[k] + Times(c, Column(inverse, e)[k])
    {
      ScaleColumnOffE(inverse[k][j], inverse[k][e], tmp[j], ratio, c);
    }
    DotLinear(row, Column(inverse, j), Column(inverse, e), c, Column(inv, j));
  }

  lemma ScaleColumnOffE(y: real, x: real, t: real, ratio: real, c: real)
    requires ratio != 0.0 && c == -t / ratio
    ensures y - (x / ratio) * t == y + Times(c, x)
  {
  }

  /** The scalar identities behind the update: 1/r * r == 1 and
      t + (-t/r) * r == 0. */
  lemma ShermanMorrisonArithmetic(t: real, ratio: real)
    requires ratio != 0.0
    ensures Times(1.0 / ratio, ratio) == 1.0
    ensures t + Times(-t / ratio, ratio) == 0.0
  {
  }

  /** The Sherman-Morrison row update is exact: if `inverse` inverts the
      occupied submatrix A and the ratio is nonzero, the new matrix inverts
      A with row e replaced by the new orbital row. */
  lemma ShermanMorrisonIsInverse(a: Matrix, e: nat, inverse: Matrix, mos: seq<real>, det: seq<nat>)
    requires InRange(det, |mos|) && IsMatrix(inverse, |det|, |det|) && e < |det|
    requires IsMatrix(a, |det|, |det|) && IsRightInverse(a, inverse, |det|)
    requires ShermanMorrisonRow(e, inverse, mos, det).0 != 0.0
    ensures var newInverse := ShermanMorrisonRow(e, inverse, mos, det).1.value;
      IsRightInverse(a[e := Take(mos, det)], newInverse, |det|)
  {
    var n := |det|;
    var tmp := ShermanMorrisonTmp(inverse, mos, det);
    var ratio := tmp[e];
    var inv := ShermanMorrisonInverse(e, inverse, tmp, ratio);
    var a2 := a[e := Take(mos, det)];
    forall i, j | 0 <= i < n && 0 <= j < n
      ensures Dot(a2[i], Column(inv, j)) == if i == j then 1.0 else 0.0
    {
      ShermanMorrisonEntry(a, e, inverse, mos, det, tmp, ratio, i, j);
    }
  }

  /** One entry of the product in `ShermanMorrisonIsInverse`. */
  lemma ShermanMorrisonEntry(a: Matrix, e: nat, inverse: Matrix, mos: seq<real>, det: seq<nat>,
                             tmp: seq<real>, ratio: real, i: nat, j: nat)
    requires InRange(det, |mos|) && IsMatrix(inverse, |det|, |det|) && e < |det|
    requires IsMatrix(a, |det|, |det|) && IsRightInverse(a, inverse, |det|)
    requires tmp == ShermanMorrisonTmp(inverse, mos, det) && ratio == tmp[e] && ratio != 0.0
    requires i < |det| && j < |det|
    ensures Dot(a[e := Take(mos, det)][i], Column(ShermanMorrisonInverse(e, inverse, tmp, ratio), j)) ==
            if i == j then 1.0 else 0.0
  {
    var row := a[e := Take(mos, det)][i];
    ShermanMorrisonArithmetic(tmp[j], ratio);
    if i == e {
      assert Dot(row, Column(inverse, j)) == tmp[j];
      assert Dot(row, Column(inverse, e)) == ratio;
    } else {
      assert row == a[i];
      assert Dot(row, Column(inverse, e)) == 0.0;
      assert Dot(row, Column(inverse, j)) == if i == j then 1.0 else 0.0;
    }
    if j == e {
      ShermanMorrisonEntryAtE(row, e, inverse, tmp, ratio, 1.0 / ratio);
    } else {
      ShermanMorrisonEntryOffE(row, e, inverse, tmp, ratio, j, -tmp[j] / ratio);
    }
  }

  /** One configuration's commit of a move of electron e (lines 372-388 of
      the source, a branch `updateinternals` never reaches): with the mask
      false the old signs, logs and inverses are kept; with it true every
      determinant takes its Sherman-Morrison ratio and inverse. Either way
      the orbital matrix is dropped. None: a committed determinant had ratio 0,
      so the stored inverse would be non-finite. */
  function CommitSpin(f: Fns, mask: bool, e: nat, n: nat, st: SlaterState,
                      mos: seq<real>, dets: seq<seq<nat>>): (r: Option<SlaterState>)
    requires ValidSpin(st, dets, n, |mos|) && e < n
    ensures !mask ==> r == Some(SlaterState(None, st.sign, st.logabs, st.inverse))
    ensures mask ==> (r.Some? <==> forall d :: 0 <= d < |dets| ==> Ratios(mos, st, dets, e, n)[d] != 0.0)
    ensures mask && r.Some? ==>
      var moved := Moved(f, st, Ratios(mos, st, dets, e, n));
      r.value.sign == moved.sign && r.value.logabs == moved.logabs && r.value.moValues.None? &&
      ValidSpin(r.value, dets, n, |mos|)
  {
    if !mask then Some(SlaterState(None, st.sign, st.logabs, st.inverse))
    else
      var k := |dets|;
      var ratios := Ratios(mos, st, dets, e, n);
      if exists d :: 0 <= d < k && ratios[d] == 0.0 then None
      else
        assert forall d :: 0 <= d < k ==> ShermanMorrisonRow(e, st.inverse[d], mos, dets[d]).0 == ratios[d] != 0.0;
        var moved := Moved(f, st, ratios);
        Some(SlaterState(None, moved.sign, moved.logabs,
          seq(k, d requires 0 <= d < k => ShermanMorrisonRow(e, st.inverse[d], mos, dets[d]).1.value)))
  }

  /** After a committed move the stored inverses are exact again, for the
      orbital matrix with electron e's row replaced. */
  lemma CommitSpinKeepsInverses(f: Fns, e: nat, n: nat, st: SlaterState, mos: seq<real>,
                                dets: seq<seq<nat>>, mosMatrix: Matrix, d: nat)
    requires ValidSpin(st, dets, n, |mos|) && e < n && d < |dets|
    requires IsMatrix(mosMatrix, n, |mos|)
    requires IsRightInverse(TakeColumns(mosMatrix, dets[d]), st.inverse[d], n)
    requires CommitSpin(f, true, e, n, st, mos, dets).Some?
    ensures var committed := CommitSpin(f, true, e, n, st, mos, dets).value;
      IsRightInverse(TakeColumns(mosMatrix[e := mos], dets[d]), committed.inverse[d], n)
  {
    var a := TakeColumns(mosMatrix, dets[d]);
    assert Ratios(mos, st, dets, e, n)[d] != 0.0;
    ShermanMorrisonIsInverse(a, e, st.inverse[d], mos, dets[d]);
    assert TakeColumns(mosMatrix[e := mos], dets[d]) == a[e := Take(mos, dets[d])];
  }

  /** The batch commit: `jnp.where(mask, new, old)` over configurations. */
  function CommitMasked(f: Fns, mask: seq<bool>, e: nat, n: nat, states: seq<SlaterState>,
                        mos: seq<seq<real>>, dets: seq<seq<nat>>): (r: seq<Option<SlaterState>>)
    requires |mask| == |states| == |mos|
    requires forall c :: 0 <= c < |states| ==> ValidSpin(states[c], dets, n, |mos[c]|)
    requires e < n
    ensures |r| == |states|
    ensures forall c :: 0 <= c < |states| && !mask[c] ==>
      r[c].Some? && r[c].value.sign == states[c].sign && r[c].value.logabs == states[c].logabs &&
      r[c].value.inverse == states[c].inverse
  {
    seq(|states|, c requires 0 <= c < |states| => CommitSpin(f, mask[c], e, n, states[c], mos[c], dets))
  }

  // ---------------------------------------------------------------------
  // Electron index split
  // ---------------------------------------------------------------------

  /** `spin = int(e >= nelec[0]); e = e - nelec[0] * spin`: spin 1 exactly for
      the electrons after the up block, and the local index addresses that
      spin's block. */
  function SplitElectron(e: nat, nUp: nat, nDown: nat): (r: (nat, nat))
    requires e < nUp + nDown
    ensures r.0 == 1 <==> e >= nUp
    ensures r.0 == 0 || r.0 == 1
    ensures r.1 < (if r.0 == 0 then nUp else nDown)
    ensures e == r.1 + nUp * r.0
  {
    var spin := if e >= nUp then 1 else 0;
    (spin, e - nUp * spin)
  }
}
