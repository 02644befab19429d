/** The `JAXSlater` object of `pyqmc/jax/slater.py`: the parameter map plus
    the per-configuration signs, log-magnitudes and determinant states it
    caches between calls.

    `recompute` evaluates the orbitals at every electron through the basis
    evaluator and factors each occupied submatrix (`slogdet`, `inv`); those
    steps are foreign, so the per-configuration `SlaterState`s they produce are
    arguments here, and the object stores them and combines them with the CI
    coefficients exactly as `evaluate_expansion` does. */
module SlaterWaveFunction {
  import opened Wrappers
  import opened Analytic
  import opened RealSeq
  import opened Matrices
  import opened Slater
  import opened ParameterMaps

  /** The determinant parameters the evaluators read off the map's device
      tuple; None when the stored arrays do not have the ranks
      (`det_coeff` a vector, the two `mo_coeff`s matrices) they expect. */
  function DeterminantParametersOf(jax: seq<Array>): (r: Option<DeterminantParameters>)
    ensures r.Some? <==> |jax| == 3 && jax[0].Vector? && jax[1].Grid? && jax[2].Grid?
    ensures r.Some? ==> r.value.ciCoeff == jax[0].v && r.value.moCoeffAlpha == jax[1].m &&
                        r.value.moCoeffBeta == jax[2].m
  {
    if |jax| == 3 && jax[0].Vector? && jax[1].Grid? && jax[2].Grid? then
      Some(DeterminantParameters(jax[0].v, jax[1].m, jax[2].m))
    else None
  }

  /** The determinant states of one batch fit the expansion: per
      configuration, both spins gather through the CI mapping and carry
      n-by-n inverses for their determinants. */
  predicate FitsExpansion(ex: DeterminantExpansion, p: DeterminantParameters, nUp: nat, nDown: nat,
                          up: seq<SlaterState>, down: seq<SlaterState>)
  {
    |up| == |down| &&
    forall c :: 0 <= c < |up| ==>
      Gatherable(ex, p.ciCoeff, up[c], down[c]) &&
      ValidSpin(up[c], ex.determinantsUp, nUp, Cols(p.moCoeffAlpha)) &&
      ValidSpin(down[c], ex.determinantsDown, nDown, Cols(p.moCoeffBeta))
  }

  /** `evaluate_expansion` mapped over the configurations of a batch. */
  function EvaluateBatch(f: Fns, ex: DeterminantExpansion, p: DeterminantParameters,
                         up: seq<SlaterState>, down: seq<SlaterState>): (r: seq<LogValue>)
    requires |up| == |down|
    requires forall c :: 0 <= c < |up| ==> Gatherable(ex, p.ciCoeff, up[c], down[c])
    ensures |r| == |up|
  {
    seq(|up|, c requires 0 <= c < |up| => EvaluateExpansion(f, ex, p, up[c], down[c]))
  }

  class JaxSlater {
    const f: Fns
    const expansion: DeterminantExpansion
    const nUp: nat
    const nDown: nat
    const parameters: ParameterMap
    var sign: seq<real>              // per configuration
    var logabs: seq<real>            // per configuration
    var detsUp: seq<SlaterState>     // per configuration
    var detsDown: seq<SlaterState>   // per configuration

    /** The parameter map is consistent and holds arrays the evaluators can
        read, and the cached determinant states fit the expansion. */
    ghost predicate Valid()
      reads this, parameters
    {
      parameters.Valid() &&
      DeterminantParametersOf(parameters.jaxParameters).Some? &&
      FitsExpansion(expansion, Params(), nUp, nDown, detsUp, detsDown) &&
      |sign| == |logabs| == |detsUp|
    }

    ghost function Params(): DeterminantParameters
      reads this, parameters
      requires DeterminantParametersOf(parameters.jaxParameters).Some?
    {
      DeterminantParametersOf(parameters.jaxParameters).value
    }

    /** `__init__` after `create_wf_evaluator`: no configuration evaluated yet. */
    constructor (f: Fns, expansion: DeterminantExpansion, nUp: nat, nDown: nat, parameters: ParameterMap)
      requires parameters.Valid() && DeterminantParametersOf(parameters.jaxParameters).Some?
      ensures Valid()
      ensures this.f == f && this.expansion == expansion && this.nUp == nUp && this.nDown == nDown
      ensures this.parameters == parameters
      ensures sign == [] && logabs == [] && detsUp == [] && detsDown == []
    {
      this.f := f;
      this.expansion := expansion;
      this.nUp := nUp;
      this.nDown := nDown;
      this.parameters := parameters;
      sign, logabs, detsUp, detsDown := [], [], [], [];
    }

    /** `recompute`: store the batch's determinant states and the combined
        (sign, log|psi|) of every configuration, and return the latter. */
    method Recompute(up: seq<SlaterState>, down: seq<SlaterState>) returns (s: seq<real>, l: seq<real>)
      requires parameters.Valid() && DeterminantParametersOf(parameters.jaxParameters).Some?
      requires FitsExpansion(expansion, Params(), nUp, nDown, up, down)
      modifies this
      ensures Valid()
      ensures detsUp == up && detsDown == down && s == sign && l == logabs
      ensures |sign| == |up|
      ensures forall c :: 0 <= c < |up| ==>
        LogValue(sign[c], logabs[c]) == EvaluateExpansion(f, expansion, Params(), up[c], down[c])
    {
      var p := DeterminantParametersOf(parameters.jaxParameters).value;
      var values := EvaluateBatch(f, expansion, p, up, down);
      sign := seq(|values|, c requires 0 <= c < |values| => values[c].sign);
      logabs := seq(|values|, c requires 0 <= c < |values| => values[c].logabs);
      detsUp, detsDown := up, down;
      s, l := sign, logabs;
    }

    /** `updateinternals`: whatever the move, the mask and the saved orbital
        rows, the method recomputes everything from the configurations it is
        given (the Sherman-Morrison commit after the early return is never
        reached; `CommitMasked` models it on its own). */
    method UpdateInternals(e: nat, mask: seq<bool>, up: seq<SlaterState>, down: seq<SlaterState>)
      requires parameters.Valid() && DeterminantParametersOf(parameters.jaxParameters).Some?
      requires e < nUp + nDown
      requires FitsExpansion(expansion, Params(), nUp, nDown, up, down)
      modifies this
      ensures Valid()
      ensures detsUp == up && detsDown == down && |sign| == |up|
      ensures forall c :: 0 <= c < |up| ==>
        LogValue(sign[c], logabs[c]) == EvaluateExpansion(f, expansion, Params(), up[c], down[c])
    {
      var split := SplitElectron(e, nUp, nDown);
      var s, l := Recompute(up, down);
    }

    /** `testvalue` for one new position per configuration, against the
        cached states. `aos` are the basis values at each configuration's
        proposed position. With a mask, the ratios of the configurations it
        selects are returned; without one (`mask=None`) every ratio is.
        `saved` is the orbital row of every configuration, as the evaluator
        returns it, whatever the mask. */
    method TestValue(e: nat, aos: seq<seq<real>>, mask: Option<seq<bool>>)
      returns (r: seq<Option<real>>, saved: seq<seq<real>>)
      requires Valid()
      requires e < nUp + nDown
      requires |aos| == |detsUp|
      requires mask.Some? ==> |mask.value| == |aos|
      requires forall c :: 0 <= c < |aos| ==>
        IsMatrix(Params().moCoeffAlpha, |aos[c]|, Cols(Params().moCoeffAlpha)) &&
        IsMatrix(Params().moCoeffBeta, |aos[c]|, Cols(Params().moCoeffBeta))
      ensures var values := TestValues(f, expansion, Params(), nUp, nDown, detsUp, detsDown, e, aos);
        r == if mask.Some? then Select(values, mask.value) else values
      ensures |saved| == |aos| && forall c :: 0 <= c < |aos| ==>
        saved[c] == MoRow(aos[c], if e < nUp then Params().moCoeffAlpha else Params().moCoeffBeta)
    {
      var p := DeterminantParametersOf(parameters.jaxParameters).value;
      var values := TestValues(f, expansion, p, nUp, nDown, detsUp, detsDown, e, aos);
      r := if mask.Some? then Select(values, mask.value) else values;
      var coeff := if e < nUp then p.moCoeffAlpha else p.moCoeffBeta;
      saved := seq(|aos|, c requires 0 <= c < |aos| => MoRow(aos[c], coeff));
    }
  }

  /** Per configuration, the test value of moving electron e: its spin picks
      `testvalue_up` or `testvalue_down`, called with the electron's index
      inside its spin block. */
  function TestValues(f: Fns, ex: DeterminantExpansion, p: DeterminantParameters, nUp: nat, nDown: nat,
                      up: seq<SlaterState>, down: seq<SlaterState>, e: nat, aos: seq<seq<real>>): (r: seq<Option<real>>)
    requires FitsExpansion(ex, p, nUp, nDown, up, down)
    requires e < nUp + nDown && |aos| == |up|
    requires forall c :: 0 <= c < |aos| ==>
      IsMatrix(p.moCoeffAlpha, |aos[c]|, Cols(p.moCoeffAlpha)) &&
      IsMatrix(p.moCoeffBeta, |aos[c]|, Cols(p.moCoeffBeta))
    ensures |r| == |aos|
    ensures forall c :: 0 <= c < |aos| ==>
      r[c] == if e < nUp then TestValueUp(f, ex, p, up[c], down[c], e, nUp, aos[c]).0
              else TestValueDown(f, ex, p, up[c], down[c], e - nUp, nDown, aos[c]).0
  {
    var split := SplitElectron(e, nUp, nDown);
    var spin, local := split.0, split.1;
    seq(|aos|, c requires 0 <= c < |aos| =>
      if spin == 0 then TestValueUp(f, ex, p, up[c], down[c], local, nUp, aos[c]).0
      else TestValueDown(f, ex, p, up[c], down[c], local, nDown, aos[c]).0)
  }
}
