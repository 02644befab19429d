/** The bookkeeping of ensemble optimisation (`optimize_ensemble`): the
    renormalisation of the wave functions' determinant coefficients against
    a pivot wave function, the writing of new parameters, the default
    overlap penalty, the wrapping of a single updater, the
    (iteration, sub-iteration) schedule of a restarted run and the
    parameter step. Sampling, block averages, the step `delta_p` computes,
    the parameter transforms and the HDF5 file are outside the model: their
    results are inputs. */
module Ensemble {
  import opened Wrappers
  import opened Analytic
  import opened RealSeq

  /** A wave function's parameter dictionary; every array is flattened. */
  type Parameters = map<string, seq<real>>

  class WaveFunction {
    var parameters: Parameters

    constructor (parameters: Parameters)
      ensures this.parameters == parameters
    {
      this.parameters := parameters;
    }
  }

  /** The parameter dictionaries of a list of wave functions, in order. */
  function ParametersOf(wfs: seq<WaveFunction>): (r: seq<Parameters>)
    reads set w | w in wfs
    ensures |r| == |wfs| && forall i :: 0 <= i < |wfs| ==> r[i] == wfs[i].parameters
  {
    seq(|wfs|, i requires 0 <= i < |wfs| reads set w | w in wfs => wfs[i].parameters)
  }

  /** No wave function object appears twice in the list. */
  predicate Distinct(wfs: seq<WaveFunction>) {
    forall i, j :: 0 <= i < j < |wfs| ==> wfs[i] != wfs[j]
  }

  // ---------------------------------------------------------------------
  // renormalize

  const NoCoefficients := "need wf1det_coeff or det_coeff in parameters"

  /** The coefficient array `renormalize` scales, chosen from the parameters
      of the last wave function of the list: wf1det_coeff when it is there,
      else det_coeff, else NotImplementedError. */
  function CoefficientKey(last: Parameters): (r: Result<string>)
    ensures r.Ok? <==> "wf1det_coeff" in last || "det_coeff" in last
    ensures r.Ok? ==> r.value in last && (r.value == "wf1det_coeff" || r.value == "det_coeff")
    ensures r.Ok? ==> (r.value == "wf1det_coeff" <==> "wf1det_coeff" in last)
    ensures r.Err? ==> r.error == NotImplemented(NoCoefficients)
  {
    if "wf1det_coeff" in last then Ok("wf1det_coeff")
    else if "det_coeff" in last then Ok("det_coeff")
    else Err(NotImplemented(NoCoefficients))
  }

  /** `renorm` for wave function i: sqrt(norms[pivot] / norms[i] * N). */
  function Renorm(f: Fns, norms: seq<real>, pivot: nat, i: nat, n: real): real
    requires pivot < |norms| && i < |norms| && norms[i] != 0.0
  {
    f.Sqrt(norms[pivot] / norms[i] * n)
  }

  /** The norm of a wave function is quadratic in its determinant
      coefficients, so scaling them by renorm multiplies norms[i] by renorm²;
      that product is the pivot's norm times N. */
  lemma RenormMatchesPivot(f: Fns, norms: seq<real>, pivot: nat, i: nat, n: real)
    requires SqrtLaws(f) && pivot < |norms| && i < |norms|
    requires norms[i] > 0.0 && norms[pivot] >= 0.0 && n >= 0.0
    ensures var renorm := Renorm(f, norms, pivot, i, n);
      renorm >= 0.0 && Times(norms[i], Times(renorm, renorm)) == Times(norms[pivot], n)
  {
    var q := norms[pivot] / norms[i];
    var x := q * n;
    RatioNonNegative(norms[pivot], norms[i]);
    ProductNonNegative(q, n);
    SqrtSquare(f, x);
    var renorm := f.Sqrt(x);
    assert Renorm(f, norms, pivot, i, n) == f.Sqrt(norms[pivot] / norms[i] * n);
    assert x == norms[pivot] / norms[i] * n;
    assert renorm == f.Sqrt(norms[pivot] / norms[i] * n);
    assert renorm == Renorm(f, norms, pivot, i, n);
    RatioCancels(norms[pivot], norms[i], n);
    assert Times(renorm, renorm) == x;
    assert Times(norms[i], x) == Times(norms[pivot], n);
  }

  lemma RatioNonNegative(a: real, b: real)
    requires a >= 0.0 && b > 0.0
    ensures a / b >= 0.0
  {
  }

  lemma ProductNonNegative(a: real, b: real)
    requires a >= 0.0 && b >= 0.0
    ensures a * b >= 0.0
  {
  }

  lemma RatioCancels(a: real, b: real, n: real)
    requires b != 0.0
    ensures b * (a / b * n) == a * n
  {
  }

  /** Wave function i can be renormalised: the key chosen from the last
      wave function is one of its own parameters. */
  predicate Scalable(ps: seq<Parameters>, i: nat)
    requires i < |ps|
  {
    var key := CoefficientKey(ps[|ps| - 1]);
    key.Ok? && key.value in ps[i]
  }

  /** Where `renormalize` stops among the first n wave functions: the first
      one other than the pivot that cannot be scaled, or n when there is
      none. */
  function Stop(ps: seq<Parameters>, pivot: nat, n: nat): (s: nat)
    requires n <= |ps|
    ensures s <= n
    ensures forall i :: 0 <= i < s && i != pivot ==> Scalable(ps, i)
    ensures s < n ==> s != pivot && !Scalable(ps, s)
  {
    if n == 0 then 0
    else
      var s := Stop(ps, pivot, n - 1);
      if s < n - 1 then s
      else if n - 1 == pivot || Scalable(ps, n - 1) then n
      else n - 1
  }

  /** Wave function i's parameters with the chosen coefficient array scaled
      by its renorm. */
  function Scaled(f: Fns, ps: seq<Parameters>, norms: seq<real>, pivot: nat, i: nat, n: real): Parameters
    requires i < |ps| == |norms| && pivot < |ps| && norms[i] != 0.0 && Scalable(ps, i)
  {
    var key := CoefficientKey(ps[|ps| - 1]).value;
    ps[i][key := Scale(Renorm(f, norms, pivot, i, n), ps[i][key])]
  }

  /** The error `renormalize` raises when it stops early: NotImplementedError
      when the last wave function has neither key, else the KeyError of the
      wave function that lacks the chosen one. */
  function StopError(ps: seq<Parameters>): Error
    requires |ps| > 0
  {
    var key := CoefficientKey(ps[|ps| - 1]);
    if key.Err? then key.error else KeyError(key.value)
  }

  /** `renormalize` over the first n wave functions, on values: the parameter
      lists afterwards and the exception raised, if any. The wave functions
      scaled before an exception keep their new coefficients. */
  function Renormalized(f: Fns, ps: seq<Parameters>, norms: seq<real>, pivot: nat, n: nat, nn: real)
    : (r: (seq<Parameters>, Option<Error>))
    requires n <= |ps| == |norms| && (|ps| > 0 ==> pivot < |ps|)
    requires forall i :: 0 <= i < |norms| ==> norms[i] > 0.0
    ensures |r.0| == |ps|
    decreases n
  {
    if n == 0 then (ps, None)
    else
      var prev := Renormalized(f, ps, norms, pivot, n - 1, nn);
      var i := n - 1;
      if prev.1.Some? || i == pivot then prev
      else
        var qs := prev.0;
        var key := CoefficientKey(qs[|qs| - 1]);
        if key.Err? then (qs, Some(key.error))
        else if key.value !in qs[i] then (qs, Some(KeyError(key.value)))
        else (qs[i := qs[i][key.value := Scale(Renorm(f, norms, pivot, i, nn), qs[i][key.value])]], None)
  }

  lemma CoefficientKeyOfSameKeys(a: Parameters, b: Parameters)
    requires a.Keys == b.Keys
    ensures CoefficientKey(a) == CoefficientKey(b)
  {
  }

  /** What `renormalize` does to the first n wave functions: it scales every
      one before the stopping point except the pivot, leaves the rest as they
      were, and raises exactly when it stops early. */
  lemma {:induction false} RenormalizedState(f: Fns, ps: seq<Parameters>, norms: seq<real>, pivot: nat, n: nat,
                                             nn: real)
    requires n <= |ps| == |norms| && (|ps| > 0 ==> pivot < |ps|)
    requires forall i :: 0 <= i < |norms| ==> norms[i] > 0.0
    ensures var r := Renormalized(f, ps, norms, pivot, n, nn);
      var s := Stop(ps, pivot, n);
      (r.1.None? <==> s == n) &&
      (r.1.Some? ==> r.1.value == StopError(ps)) &&
      forall i :: 0 <= i < |ps| ==>
        r.0[i] == if i < s && i != pivot then Scaled(f, ps, norms, pivot, i, nn) else ps[i]
    decreases n
  {
    hide Scaled, Scale, Renorm;
    if n > 0 {
      RenormalizedState(f, ps, norms, pivot, n - 1, nn);
      var prev := Renormalized(f, ps, norms, pivot, n - 1, nn);
      var qs := prev.0;
      var i := n - 1;
      if prev.1.None? && i != pivot {
        CoefficientKeyOfSameKeys(qs[|qs| - 1], ps[|ps| - 1]);
        assert qs[i] == ps[i];
        if Scalable(ps, i) {
          ScaledFrom(f, ps, norms, pivot, i, nn, qs);
        }
      }
    }
  }

  lemma ScaledFrom(f: Fns, ps: seq<Parameters>, norms: seq<real>, pivot: nat, i: nat, nn: real, qs: seq<Parameters>)
    requires i < |ps| == |norms| == |qs| && pivot < |ps| && norms[i] != 0.0 && Scalable(ps, i)
    requires qs[i] == ps[i] && qs[|qs| - 1].Keys == ps[|ps| - 1].Keys
    ensures var key := CoefficientKey(qs[|qs| - 1]).value;
      qs[i][key := Scale(Renorm(f, norms, pivot, i, nn), qs[i][key])] == Scaled(f, ps, norms, pivot, i, nn)
  {
    CoefficientKeyOfSameKeys(qs[|qs| - 1], ps[|ps| - 1]);
  }

  /** The pivot's parameters are never changed. */
  lemma RenormalizeKeepsPivot(f: Fns, ps: seq<Parameters>, norms: seq<real>, pivot: nat, nn: real)
    requires |ps| == |norms| && pivot < |ps|
    requires forall i :: 0 <= i < |norms| ==> norms[i] > 0.0
    ensures Renormalized(f, ps, norms, pivot, |ps|, nn).0[pivot] == ps[pivot]
  {
    RenormalizedState(f, ps, norms, pivot, |ps|, nn);
  }

  /** Without an exception every other wave function has its chosen
      coefficient array scaled by its renorm, after which its norm is the
      pivot's norm times N. The exception is raised exactly when some wave
      function other than the pivot cannot be scaled. */
  lemma RenormalizeMatchesNorms(f: Fns, ps: seq<Parameters>, norms: seq<real>, pivot: nat, nn: real)
    requires SqrtLaws(f) && |ps| == |norms| && pivot < |ps| && nn >= 0.0
    requires forall i :: 0 <= i < |norms| ==> norms[i] > 0.0
    ensures var r := Renormalized(f, ps, norms, pivot, |ps|, nn);
      r.1.None? <==> forall i :: 0 <= i < |ps| && i != pivot ==> Scalable(ps, i)
    ensures var r := Renormalized(f, ps, norms, pivot, |ps|, nn);
      r.1.None? ==> forall i :: 0 <= i < |ps| && i != pivot ==>
        Scalable(ps, i) &&
        var key := CoefficientKey(ps[|ps| - 1]).value;
        var renorm := Renorm(f, norms, pivot, i, nn);
        r.0[i] == ps[i][key := Scale(renorm, ps[i][key])] &&
        Times(norms[i], Times(renorm, renorm)) == Times(norms[pivot], nn)
  {
    RenormalizedState(f, ps, norms, pivot, |ps|, nn);
    forall i | 0 <= i < |ps| && i != pivot
      ensures Times(norms[i], Times(Renorm(f, norms, pivot, i, nn), Renorm(f, norms, pivot, i, nn))) ==
              Times(norms[pivot], nn)
    {
      RenormMatchesPivot(f, norms, pivot, i, nn);
    }
  }

  /** When the last wave function has neither coefficient key and there is a
      wave function other than the pivot, NotImplementedError is raised and
      nothing has changed. */
  lemma RenormalizeWithoutCoefficients(f: Fns, ps: seq<Parameters>, norms: seq<real>, pivot: nat, nn: real)
    requires |ps| == |norms| && pivot < |ps| && |ps| > 1
    requires forall i :: 0 <= i < |norms| ==> norms[i] > 0.0
    requires "wf1det_coeff" !in ps[|ps| - 1] && "det_coeff" !in ps[|ps| - 1]
    ensures Renormalized(f, ps, norms, pivot, |ps|, nn) == (ps, Some(NotImplemented(NoCoefficients)))
  {
    RenormalizedState(f, ps, norms, pivot, |ps|, nn);
    var r := Renormalized(f, ps, norms, pivot, |ps|, nn);
    var other := if pivot == 0 then 1 else 0;
    assert !Scalable(ps, other);
    assert r.0 == ps;
  }

  /** Once `renormalize` has raised, the later wave functions change nothing. */
  lemma {:induction false} RenormalizedErrorStays(f: Fns, ps: seq<Parameters>, norms: seq<real>, pivot: nat,
                                                  j: nat, n: nat, nn: real)
    requires j <= n <= |ps| == |norms| && (|ps| > 0 ==> pivot < |ps|)
    requires forall i :: 0 <= i < |norms| ==> norms[i] > 0.0
    requires Renormalized(f, ps, norms, pivot, j, nn).1.Some?
    ensures Renormalized(f, ps, norms, pivot, n, nn) == Renormalized(f, ps, norms, pivot, j, nn)
    decreases n
  {
    hide Scale, Renorm, CoefficientKey;
    if n > j {
      RenormalizedErrorStays(f, ps, norms, pivot, j, n - 1, nn);
    }
  }

  /** `renormalize(wfs, norms, pivot, N)`: scales, in place, the determinant
      coefficients of every wave function but the pivot so that its norm
      matches the pivot's. */
  method Renormalize(f: Fns, wfs: seq<WaveFunction>, norms: seq<real>, pivot: nat, nn: real)
    returns (err: Option<Error>)
    requires Distinct(wfs) && |norms| == |wfs| && (|wfs| > 0 ==> pivot < |wfs|)
    requires forall i :: 0 <= i < |norms| ==> norms[i] > 0.0
    modifies set w | w in wfs
    ensures (ParametersOf(wfs), err) == Renormalized(f, old(ParametersOf(wfs)), norms, pivot, |wfs|, nn)
  {
    hide Renormalized, Scale, Stop;
    ghost var ps := ParametersOf(wfs);
    RenormalizedNone(f, ps, norms, pivot, nn);
    var i := 0;
    while i < |wfs|
      invariant 0 <= i <= |wfs|
      invariant Renormalized(f, ps, norms, pivot, i, nn) == (ParametersOf(wfs), None)
    {
      ghost var qs := ParametersOf(wfs);
      RenormalizedStep(f, ps, norms, pivot, i, nn, qs);
      if i != pivot {
        var renorm := Renorm(f, norms, pivot, i, nn);
        var wf := wfs[i];
        var key := CoefficientKey(wfs[|wfs| - 1].parameters);
        if key.Err? {
          RenormalizedErrorStays(f, ps, norms, pivot, i + 1, |wfs|, nn);
          return Some(key.error);
        }
        if key.value !in wf.parameters {
          RenormalizedErrorStays(f, ps, norms, pivot, i + 1, |wfs|, nn);
          return Some(KeyError(key.value));
        }
        assert qs[|qs| - 1] == wfs[|wfs| - 1].parameters && qs[i] == wf.parameters;
        wf.parameters := wf.parameters[key.value := Scale(renorm, wf.parameters[key.value])];
        forall j | 0 <= j < |wfs|
          ensures ParametersOf(wfs)[j] == qs[i := wf.parameters][j]
        {
          assert j != i ==> wfs[j] != wfs[i];
        }
        assert ParametersOf(wfs) == qs[i := qs[i][key.value := Scale(renorm, qs[i][key.value])]];
      }
      i := i + 1;
    }
    return None;
  }

  lemma RenormalizedNone(f: Fns, ps: seq<Parameters>, norms: seq<real>, pivot: nat, nn: real)
    requires |ps| == |norms| && (|ps| > 0 ==> pivot < |ps|)
    requires forall j :: 0 <= j < |norms| ==> norms[j] > 0.0
    ensures Renormalized(f, ps, norms, pivot, 0, nn) == (ps, None)
  {
  }

  /** One step of `Renormalized`, unfolded. */
  lemma RenormalizedStep(f: Fns, ps: seq<Parameters>, norms: seq<real>, pivot: nat, i: nat, nn: real,
                         qs: seq<Parameters>)
    requires i < |ps| == |norms| && pivot < |ps|
    requires forall j :: 0 <= j < |norms| ==> norms[j] > 0.0
    requires Renormalized(f, ps, norms, pivot, i, nn) == (qs, None)
    ensures var key := CoefficientKey(qs[|qs| - 1]);
      Renormalized(f, ps, norms, pivot, i + 1, nn) ==
        if i == pivot then (qs, None)
        else if key.Err? then (qs, Some(key.error))
        else if key.value !in qs[i] then (qs, Some(KeyError(key.value)))
        else (qs[i := qs[i][key.value := Scale(Renorm(f, norms, pivot, i, nn), qs[i][key.value])]], None)
  {
  }

  // ---------------------------------------------------------------------
  // set_wf_params

  /** The parameter lists after `set_wf_params`: wave function i, up to the
      shorter of the two lists, has every key of news[i] written over its
      own parameters; the others keep theirs. */
  function WithParameters(ps: seq<Parameters>, news: seq<Parameters>): (r: seq<Parameters>)
    ensures |r| == |ps|
    ensures forall i :: 0 <= i < |ps| ==>
      r[i].Keys == if i < |news| then ps[i].Keys + news[i].Keys else ps[i].Keys
    ensures forall i, k :: 0 <= i < |ps| && k in r[i] ==>
      r[i][k] == if i < |news| && k in news[i] then news[i][k] else ps[i][k]
  {
    seq(|ps|, i requires 0 <= i < |ps| => if i < |news| then ps[i] + news[i] else ps[i])
  }

  /** The inner loop of `set_wf_params`: every key of newparms is written
      into the wave function's parameters, one at a time. */
  method WriteParameters(wf: WaveFunction, newparms: Parameters)
    modifies wf
    ensures wf.parameters == old(wf.parameters) + newparms
  {
    var todo := newparms.Keys;
    while todo != {}
      invariant todo <= newparms.Keys
      invariant wf.parameters.Keys == old(wf.parameters).Keys + (newparms.Keys - todo)
      invariant forall k :: k in wf.parameters ==>
        wf.parameters[k] == if k in newparms.Keys - todo then newparms[k] else old(wf.parameters)[k]
      decreases todo
    {
      var k :| k in todo;
      wf.parameters := wf.parameters[k := newparms[k]];
      todo := todo - {k};
    }
  }

  /** `set_wf_params(wfs, params, updater)`: `news` holds the dictionaries
      the transforms deserialise from `params`, so that zip pairs wfs[i]
      with news[i]; each of their keys is written into the wave function's
      parameters. */
  method SetWfParams(wfs: seq<WaveFunction>, news: seq<Parameters>)
    requires Distinct(wfs)
    modifies set w | w in wfs
    ensures ParametersOf(wfs) == WithParameters(old(ParametersOf(wfs)), news)
  {
    ghost var ps := ParametersOf(wfs);
    var m := Min(|wfs|, |news|);
    var i := 0;
    while i < m
      invariant 0 <= i <= m
      invariant ParametersOf(wfs) == WithParameters(ps, news[..i])
    {
      ghost var qs := ParametersOf(wfs);
      WriteParameters(wfs[i], news[i]);
      forall j | 0 <= j < |wfs|
        ensures ParametersOf(wfs)[j] == WithParameters(ps, news[..i + 1])[j]
      {
        assert j != i ==> wfs[j] != wfs[i];
      }
      i := i + 1;
    }
    assert WithParameters(ps, news[..m]) == WithParameters(ps, news);
  }

  // ---------------------------------------------------------------------
  // optimize_ensemble: defaults

  /** `overlap_penalty`: the given matrix, or an nwf × nwf matrix of 0.5. */
  function OverlapPenalty(given: Option<seq<seq<real>>>, nwf: nat): (r: seq<seq<real>>)
    ensures given.Some? ==> r == given.value
    ensures given.None? ==> |r| == nwf && forall i :: 0 <= i < nwf ==>
      |r[i]| == nwf && forall j :: 0 <= j < nwf ==> r[i][j] == 0.5
  {
    if given.Some? then given.value
    else seq(nwf, i => seq(nwf, j => 0.5))
  }

  /** The updater argument: a list of gradient accumulators, or (deprecated)
      a single one, which has no `len`. */
  datatype Updater<T> = Accumulators(accumulators: seq<T>) | Accumulator(accumulator: T)

  /** `sub_iterations` and the list of accumulators: a single accumulator is
      wrapped into a one-element list, giving one sub-iteration. */
  function WrapUpdater<T>(updater: Updater<T>): (r: (nat, seq<T>))
    ensures r.0 == |r.1|
    ensures updater.Accumulators? ==> r.1 == updater.accumulators
    ensures updater.Accumulator? ==> r.0 == 1 && r.1[0] == updater.accumulator
  {
    match updater
    case Accumulators(us) => (|us|, us)
    case Accumulator(u) => (1, [u])
  }

  // ---------------------------------------------------------------------
  // optimize_ensemble: the (iteration, sub-iteration) schedule

  /** The pairs (i, s) of a run with subIterations sub-iterations per
      iteration, numbered in the order the loops visit them. */
  function Position(i: nat, s: nat, subIterations: nat): nat {
    i * subIterations + s
  }

  /** The pair at position t. */
  function PairAt(t: nat, subIterations: nat): (nat, nat)
    requires subIterations > 0
  {
    (t / subIterations, t % subIterations)
  }

  /** The pairs at positions lo up to hi, in order. */
  function Pairs(lo: nat, hi: nat, subIterations: nat): (r: seq<(nat, nat)>)
    ensures |r| == if subIterations > 0 && lo < hi then hi - lo else 0
    ensures forall k :: 0 <= k < |r| ==> r[k] == PairAt(lo + k, subIterations)
  {
    if subIterations == 0 || hi <= lo then []
    else seq(hi - lo, k requires 0 <= k < hi - lo => PairAt(lo + k, subIterations))
  }

  /** The position the loops resume from, given the two offsets. */
  function Start(iterationOffset: nat, subIterationOffset: nat, subIterations: nat): nat {
    Position(iterationOffset, Min(subIterationOffset, subIterations), subIterations)
  }

  lemma PositionOfPair(i: nat, s: nat, subIterations: nat)
    requires s < subIterations
    ensures PairAt(Position(i, s, subIterations), subIterations) == (i, s)
  {
    var t := Position(i, s, subIterations);
    var q := t / subIterations;
    var m := t % subIterations;
    assert t == q * subIterations + m;
    if q < i {
      MulMonotone(q + 1, i, subIterations);
    } else if q > i {
      MulMonotone(i + 1, q, subIterations);
    }
  }

  lemma MulMonotone(a: nat, b: nat, c: nat)
    requires a <= b
    ensures a * c <= b * c
  {
  }

  /** Comparing positions compares the pairs lexicographically. */
  lemma PositionOrder(i: nat, s: nat, j: nat, u: nat, subIterations: nat)
    requires s < subIterations && u <= subIterations
    ensures Position(i, s, subIterations) < Position(j, u, subIterations) <==> i < j || (i == j && s < u)
  {
    if i < j {
      MulMonotone(i + 1, j, subIterations);
    } else if i > j {
      MulMonotone(j + 1, i, subIterations);
    }
  }

  lemma PairsSnoc(lo: nat, t: nat, subIterations: nat)
    requires lo <= t && subIterations > 0
    ensures Pairs(lo, t + 1, subIterations) == Pairs(lo, t, subIterations) + [PairAt(t, subIterations)]
  {
  }

  /** The pairs a restarted run visits: all (i, s) with i from the iteration
      offset up to max_iterations and s below sub_iterations, in
      lexicographic order, except that the first iteration skips the
      sub-iterations below the sub-iteration offset. */
  lemma {:induction false} ScheduleMembers(iterationOffset: nat, subIterationOffset: nat, maxIterations: nat,
                                           subIterations: nat, i: nat, s: nat)
    ensures var pairs := Pairs(Start(iterationOffset, subIterationOffset, subIterations),
                               Position(maxIterations, 0, subIterations), subIterations);
      (i, s) in pairs <==>
        iterationOffset <= i < maxIterations && s < subIterations && !(i == iterationOffset && s < subIterationOffset)
  {
    var lo := Start(iterationOffset, subIterationOffset, subIterations);
    var hi := Position(maxIterations, 0, subIterations);
    var pairs := Pairs(lo, hi, subIterations);
    if s < subIterations {
      var t := Position(i, s, subIterations);
      PositionOrder(i, s, iterationOffset, Min(subIterationOffset, subIterations), subIterations);
      PositionOrder(i, s, maxIterations, 0, subIterations);
      PositionOfPair(i, s, subIterations);
      if lo <= t < hi {
        assert pairs[t - lo] == (i, s);
      }
      if (i, s) in pairs {
        var k :| 0 <= k < |pairs| && pairs[k] == (i, s);
        PairPosition(lo + k, subIterations);
      }
    }
  }

  lemma PairPosition(t: nat, subIterations: nat)
    requires subIterations > 0
    ensures Position(PairAt(t, subIterations).0, PairAt(t, subIterations).1, subIterations) == t
  {
  }

  /** The pairs are visited in strictly increasing lexicographic order. */
  lemma PairsAscending(lo: nat, hi: nat, subIterations: nat, k: nat)
    requires k + 1 < |Pairs(lo, hi, subIterations)|
    ensures var pairs := Pairs(lo, hi, subIterations);
      pairs[k].0 < pairs[k + 1].0 || (pairs[k].0 == pairs[k + 1].0 && pairs[k].1 < pairs[k + 1].1)
  {
    var pairs := Pairs(lo, hi, subIterations);
    var t := lo + k;
    var q := PairAt(t, subIterations).0;
    var m := PairAt(t, subIterations).1;
    PairPosition(t, subIterations);
    assert pairs[k] == (q, m) && pairs[k + 1] == PairAt(t + 1, subIterations);
    if m + 1 < subIterations {
      assert Position(q, m + 1, subIterations) == t + 1;
      PositionOfPair(q, m + 1, subIterations);
    } else {
      NextIteration(q, subIterations);
      PositionOfPair(q + 1, 0, subIterations);
    }
  }

  lemma NextIteration(i: nat, subIterations: nat)
    ensures Position(i + 1, 0, subIterations) == Position(i, subIterations, subIterations)
  {
  }

  /** The nested loops of `optimize_ensemble` over
      `range(iteration_offset, max_iterations)` and `range(sub_iterations)`,
      with the `continue` that skips the first iteration's sub-iterations
      below `sub_iteration_offset`: the pairs (i, sub_iteration) the body
      runs for, in order. */
  method RestartSchedule(iterationOffset: nat, subIterationOffset: nat, maxIterations: nat, subIterations: nat)
    returns (pairs: seq<(nat, nat)>)
    ensures pairs == Pairs(Start(iterationOffset, subIterationOffset, subIterations),
                           Position(maxIterations, 0, subIterations), subIterations)
  {
    var lo := Start(iterationOffset, subIterationOffset, subIterations);
    pairs := [];
    var i := iterationOffset;
    while i < maxIterations
      invariant iterationOffset <= i && (i <= maxIterations || i == iterationOffset)
      invariant pairs == Pairs(lo, Position(i, 0, subIterations), subIterations)
    {
      var sub := 0;
      while sub < subIterations
        invariant 0 <= sub <= subIterations
        invariant pairs == Pairs(lo, Position(i, sub, subIterations), subIterations)
      {
        if i == iterationOffset && sub < subIterationOffset {
          sub := sub + 1;
          continue;
        }
        PositionOrder(i, sub, iterationOffset, Min(subIterationOffset, subIterations), subIterations);
        PositionOfPair(i, sub, subIterations);
        PairsSnoc(lo, Position(i, sub, subIterations), subIterations);
        pairs := pairs + [(i, sub)];
        sub := sub + 1;
      }
      NextIteration(i, subIterations);
      i := i + 1;
    }
    if i > maxIterations {
      MulMonotone(maxIterations, i, subIterations);
    }
  }

  // ---------------------------------------------------------------------
  // optimize_ensemble: restarting from a saved run

  /** The largest entry of a non-empty list (`np.max`). */
  function MaxOf(xs: seq<nat>): (m: nat)
    requires |xs| > 0
    ensures m in xs && forall k :: 0 <= k < |xs| ==> xs[k] <= m
  {
    if |xs| == 1 then xs[0]
    else
      var m := MaxOf(xs[..|xs| - 1]);
      if xs[|xs| - 1] > m then xs[|xs| - 1] else m
  }

  /** `iteration_offset` and `sub_iteration_offset` as `optimize_ensemble`
      reads them from the saved "iteration" and "sub_iteration" datasets:
      one past the largest saved iteration and one past the last saved
      sub-iteration, each 0 when the dataset is absent. */
  function RestartOffsets(iterations: Option<seq<nat>>, subIterations: Option<seq<nat>>): (r: (nat, nat))
    requires iterations.Some? ==> |iterations.value| > 0
    requires subIterations.Some? ==> |subIterations.value| > 0
    ensures iterations.None? ==> r.0 == 0
    ensures iterations.Some? ==> r.0 > 0 && r.0 - 1 in iterations.value
    ensures iterations.Some? ==> forall k :: 0 <= k < |iterations.value| ==> iterations.value[k] < r.0
    ensures subIterations.None? ==> r.1 == 0
    ensures subIterations.Some? ==> r.1 == subIterations.value[|subIterations.value| - 1] + 1
  {
    var io := if iterations.Some? then MaxOf(iterations.value) + 1 else 0;
    var so := if subIterations.Some? then subIterations.value[|subIterations.value| - 1] + 1 else 0;
    (io, so)
  }

  /** The saved datasets after the first p pairs of a run: the iteration and
      the sub-iteration of each pair, in order. */
  function SavedIterations(p: nat, subIterations: nat): (r: seq<nat>)
    requires subIterations > 0
    ensures |r| == p && forall t :: 0 <= t < p ==> r[t] == PairAt(t, subIterations).0
  {
    seq(p, t requires 0 <= t < p => PairAt(t, subIterations).0)
  }

  function SavedSubIterations(p: nat, subIterations: nat): (r: seq<nat>)
    requires subIterations > 0
    ensures |r| == p && forall t :: 0 <= t < p ==> r[t] == PairAt(t, subIterations).1
  {
    seq(p, t requires 0 <= t < p => PairAt(t, subIterations).1)
  }

  lemma DivMonotone(a: nat, b: nat, subIterations: nat)
    requires a <= b && subIterations > 0
    ensures a / subIterations <= b / subIterations
  {
    if a / subIterations > b / subIterations {
      MulMonotone(b / subIterations + 1, a / subIterations, subIterations);
      PairPosition(a, subIterations);
      PairPosition(b, subIterations);
      NextIteration(b / subIterations, subIterations);
    }
  }

  /** The largest saved iteration is the last one. */
  lemma MaxSavedIteration(p: nat, subIterations: nat)
    requires p > 0 && subIterations > 0
    ensures MaxOf(SavedIterations(p, subIterations)) == (p - 1) / subIterations
  {
    var xs := SavedIterations(p, subIterations);
    var m := MaxOf(xs);
    var k :| 0 <= k < |xs| && xs[k] == m;
    DivMonotone(k, p - 1, subIterations);
    assert xs[p - 1] <= m;
  }

  /** As written, a run restarted after its first p pairs resumes at
      position p + sub_iterations: `iteration_offset` already moves past
      the last saved iteration and `sub_iteration_offset` then also skips
      its sub-iterations, so the sub_iterations pairs after the last saved
      one are never run. */
  lemma RestartSkipsPairs(p: nat, subIterations: nat)
    requires p > 0 && subIterations > 0
    ensures var offsets := RestartOffsets(Some(SavedIterations(p, subIterations)),
                                          Some(SavedSubIterations(p, subIterations)));
      Start(offsets.0, offsets.1, subIterations) == p + subIterations
  {
    MaxSavedIteration(p, subIterations);
    PairPosition(p - 1, subIterations);
    NextIteration((p - 1) / subIterations, subIterations);
  }

  /** With one sub-iteration, three iterations and the first iteration
      saved, the restarted run as written runs only iteration 2; the run
      had iterations 1 and 2 left. */
  lemma RestartSkipsIterationOne()
    ensures RestartOffsets(Some([0]), Some([0])) == (1, 1)
    ensures Pairs(Start(1, 1, 1), Position(3, 0, 1), 1) == [(2, 0)]
    ensures Pairs(Position(1, 0, 1), Position(3, 0, 1), 1) == [(1, 0), (2, 0)]
  {
    assert Start(1, 1, 1) == 2;
    assert PairAt(2, 1) == (2, 0);
    assert PairAt(1, 1) == (1, 0);
  }

  /** The offsets that resume a saved run at the first pair it has not run:
      the rest of the last saved iteration, or the next iteration when the
      last saved sub-iteration was its final one. */
  function ResumeOffsets(iterations: Option<seq<nat>>, subIterations: Option<seq<nat>>, count: nat): (nat, nat)
    requires iterations.Some? ==> |iterations.value| > 0
    requires subIterations.Some? ==> |subIterations.value| > 0
  {
    if iterations.None? || subIterations.None? then (0, 0)
    else
      var last := MaxOf(iterations.value);
      var sub := subIterations.value[|subIterations.value| - 1];
      if sub + 1 < count then (last, sub + 1) else (last + 1, 0)
  }

  /** Resumed with the corrected offsets, a run saved after its first p
      pairs goes on at position p, so the saved pairs followed by the
      resumed ones are exactly the pairs of an uninterrupted run. */
  lemma ResumeCompletesRun(p: nat, maxIterations: nat, subIterations: nat)
    requires p > 0 && subIterations > 0 && p <= Position(maxIterations, 0, subIterations)
    ensures var offsets := ResumeOffsets(Some(SavedIterations(p, subIterations)),
                                         Some(SavedSubIterations(p, subIterations)), subIterations);
      Start(offsets.0, offsets.1, subIterations) == p
    ensures var offsets := ResumeOffsets(Some(SavedIterations(p, subIterations)),
                                         Some(SavedSubIterations(p, subIterations)), subIterations);
      var hi := Position(maxIterations, 0, subIterations);
      Pairs(0, p, subIterations) + Pairs(Start(offsets.0, offsets.1, subIterations), hi, subIterations) ==
        Pairs(0, hi, subIterations)
  {
    MaxSavedIteration(p, subIterations);
    PairPosition(p - 1, subIterations);
    NextIteration((p - 1) / subIterations, subIterations);
    var hi := Position(maxIterations, 0, subIterations);
    assert Pairs(0, p, subIterations) + Pairs(p, hi, subIterations) == Pairs(0, hi, subIterations);
  }

  /** The (iteration, sub-iteration) pairs a call of `optimize_ensemble`
      runs, given the datasets of the file it restarts from, with the
      corrected offsets. */
  method ResumedSchedule(iterations: Option<seq<nat>>, subIterations: Option<seq<nat>>, maxIterations: nat,
                         count: nat) returns (pairs: seq<(nat, nat)>)
    requires iterations.Some? ==> |iterations.value| > 0
    requires subIterations.Some? ==> |subIterations.value| > 0
    ensures var offsets := ResumeOffsets(iterations, subIterations, count);
      pairs == Pairs(Start(offsets.0, offsets.1, count), Position(maxIterations, 0, count), count)
  {
    var (iterationOffset, subIterationOffset) := ResumeOffsets(iterations, subIterations, count);
    pairs := RestartSchedule(iterationOffset, subIterationOffset, maxIterations, count);
  }

  // ---------------------------------------------------------------------
  // optimize_ensemble: the parameter step

  /** `x = [x_ + dp_[0] for x_, dp_ in zip(x, dp)]`: each wave function's
      serialised parameters moved by the first (and only) step `delta_p`
      returns for it. */
  function ParameterStep(xs: seq<seq<real>>, dps: seq<seq<seq<real>>>): (r: seq<seq<real>>)
    requires forall k :: 0 <= k < Min(|xs|, |dps|) ==> |dps[k]| > 0 && |dps[k][0]| == |xs[k]|
    ensures |r| == Min(|xs|, |dps|)
    ensures forall k :: 0 <= k < |r| ==>
      |r[k]| == |xs[k]| && forall j :: 0 <= j < |r[k]| ==> r[k][j] == xs[k][j] + dps[k][0][j]
  {
    seq(Min(|xs|, |dps|), k requires 0 <= k < Min(|xs|, |dps|) =>
      seq(|xs[k]|, j requires 0 <= j < |xs[k]| => xs[k][j] + dps[k][0][j]))
  }
  /** The step is undone by the opposite step: moving by dp and then by -dp
      gives back the parameters of the wave functions that were paired. */
  lemma ParameterStepUndone(xs: seq<seq<real>>, dps: seq<seq<seq<real>>>, back: seq<seq<seq<real>>>)
    requires forall k :: 0 <= k < Min(|xs|, |dps|) ==> |dps[k]| > 0 && |dps[k][0]| == |xs[k]|
    requires |back| == |dps|
    requires forall k :: 0 <= k < Min(|xs|, |dps|) ==>
      |back[k]| > 0 && |back[k][0]| == |xs[k]| && forall j :: 0 <= j < |xs[k]| ==> back[k][0][j] == -dps[k][0][j]
    ensures ParameterStep(ParameterStep(xs, dps), back) == xs[..Min(|xs|, |dps|)]
  {
    var moved := ParameterStep(xs, dps);
    var r := ParameterStep(moved, back);
    forall k | 0 <= k < |r|
      ensures r[k] == xs[k]
    {
      assert |r[k]| == |xs[k]|;
    }
  }
}
