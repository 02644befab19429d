/** The arithmetic of the constrained-VMC optimiser in `pyqmc/cvmc.py`:
    the penalised objective and its parameter derivative computed by
    `get_obj_deriv`, the line-search grid of `cvmc_optimize`, the objective
    at each point of the line, the correlated-sampling weights of `lm_cvmc`
    and the parameter update.

    The VMC runs, the correlated evaluations, the energy accumulator and
    `stable_fit` are foreign calls; their results (column means, data
    frames, the fitted minimum) are arguments here. */
module CvmcOptimize {
  import opened Wrappers
  import opened Analytic
  import opened RealSeq

  /** One entry of the `forcing` dictionary: descriptor name and force. */
  datatype Force = Force(key: string, force: real)

  /** A dictionary's entries have distinct keys. */
  predicate DistinctKeys(forcing: seq<Force>) {
    forall i, j :: 0 <= i < j < |forcing| ==> forcing[i].key != forcing[j].key
  }

  /** The column means of the VMC run that `get_obj_deriv` reads:
      "gradtotal", "graddppsi", "graddpH", and per descriptor k
      "gradavg" + k (avg[k]) and "graddp" + k (dp[k]). */
  datatype RunAverages = RunAverages(total: real, dppsi: seq<real>, dpH: seq<real>,
                                     avg: map<string, real>, dp: map<string, seq<real>>)

  /** Every derivative column has np entries. */
  predicate RunShaped(run: RunAverages, np: nat) {
    |run.dppsi| == np && |run.dpH| == np && forall k :: k in run.dp ==> |run.dp[k]| == np
  }

  lemma RunColumn(run: RunAverages, np: nat, k: string)
    requires RunShaped(run, np) && k in run.dp
    ensures |run.dp[k]| == np
  {
  }

  /** The forced descriptors, in the dictionary's order: forces, averages,
      targets and derivative means. */
  datatype Gathered = Gathered(forces: seq<real>, qavg: seq<real>, target: seq<real>, dpmean: seq<seq<real>>)

  /** The lookups of the first n forced descriptors: "gradavg" + k, then
      "graddp" + k, then objective[k], stopping at the first missing name. */
  function Gather(forcing: seq<Force>, run: RunAverages, objective: map<string, real>, n: nat): (r: Result<Gathered>)
    requires n <= |forcing|
    ensures r.Ok? ==> |r.value.forces| == |r.value.qavg| == |r.value.target| == |r.value.dpmean| == n
  {
    if n == 0 then Ok(Gathered([], [], [], []))
    else
      var prefix := Gather(forcing, run, objective, n - 1);
      var k := forcing[n - 1].key;
      if prefix.Err? then prefix
      else if k !in run.avg then Err(KeyError("gradavg" + k))
      else if k !in run.dp then Err(KeyError("graddp" + k))
      else if k !in objective then Err(KeyError(k))
      else
        var g := prefix.value;
        Ok(Gathered(g.forces + [forcing[n - 1].force], g.qavg + [run.avg[k]],
                    g.target + [objective[k]], g.dpmean + [run.dp[k]]))
  }

  /** A lookup that fails decides the outcome of the whole walk. */
  lemma GatherFailsAt(forcing: seq<Force>, run: RunAverages, objective: map<string, real>, i: nat)
    requires i < |forcing| && Gather(forcing, run, objective, i).Ok?
    requires forcing[i].key !in run.avg || forcing[i].key !in run.dp || forcing[i].key !in objective
    ensures Gather(forcing, run, objective, |forcing|).Err?
  {
    GatherStop(forcing, run, objective, i);
    GatherErrorStays(forcing, run, objective, i + 1, |forcing|);
  }

  /** The lookups succeed exactly when every forced name is in the three
      dictionaries, and then the lists hold their entries in order. */
  lemma {:induction false} GatherMeaning(forcing: seq<Force>, run: RunAverages, objective: map<string, real>, n: nat)
    requires n <= |forcing|
    ensures var r := Gather(forcing, run, objective, n);
      (r.Ok? <==> forall i :: 0 <= i < n ==>
        forcing[i].key in run.avg && forcing[i].key in run.dp && forcing[i].key in objective) &&
      (r.Ok? ==> forall i :: 0 <= i < n ==>
        r.value.forces[i] == forcing[i].force && r.value.qavg[i] == run.avg[forcing[i].key] &&
        r.value.target[i] == objective[forcing[i].key] && r.value.dpmean[i] == run.dp[forcing[i].key])
    ensures var r := Gather(forcing, run, objective, n);
      r.Err? ==> exists i :: 0 <= i < n && r.error in {KeyError("gradavg" + forcing[i].key), KeyError("graddp" + forcing[i].key), KeyError(forcing[i].key)}
  {
    if n > 0 {
      GatherMeaning(forcing, run, objective, n - 1);
    }
  }

  /** Once a lookup fails, the later ones are not made: the error stays. */
  lemma {:induction false} GatherErrorStays(forcing: seq<Force>, run: RunAverages, objective: map<string, real>,
                                            m: nat, n: nat)
    requires m <= n <= |forcing| && Gather(forcing, run, objective, m).Err?
    ensures Gather(forcing, run, objective, n) == Gather(forcing, run, objective, m)
    decreases n
  {
    if n > m {
      GatherErrorStays(forcing, run, objective, m, n - 1);
    }
  }

  /** sum over the forced descriptors of force * (qavg - target)^2. */
  function Penalty(forces: seq<real>, qavg: seq<real>, target: seq<real>): real
    requires |forces| == |qavg| == |target|
  {
    if |forces| == 0 then 0.0
    else
      var n := |forces| - 1;
      Penalty(forces[..n], qavg[..n], target[..n]) + PenaltyTerm(forces[n], qavg[n], target[n])
  }

  /** force * (avg - target)^2. */
  function PenaltyTerm(force: real, avg: real, target: real): real {
    force * (avg - target) * (avg - target)
  }

  /** `distfromobj`: sum of qavg - target. */
  function Distance(qavg: seq<real>, target: seq<real>): real
    requires |qavg| == |target|
  {
    if |qavg| == 0 then 0.0
    else
      var n := |qavg| - 1;
      Distance(qavg[..n], target[..n]) + (qavg[n] - target[n])
  }

  function Sub(a: seq<real>, b: seq<real>): (r: seq<real>)
    requires |a| == |b|
    ensures |r| == |a| && forall i :: 0 <= i < |a| ==> r[i] == a[i] - b[i]
  {
    seq(|a|, i requires 0 <= i < |a| => a[i] - b[i])
  }

  /** `dpH - dpavg * havg` and `dp_k - dpavg * qavg[k]`: the covariance of
      the parameter derivative with an average. */
  function Covariance(mean: seq<real>, dppsi: seq<real>, avg: real): (r: seq<real>)
    requires |mean| == |dppsi|
    ensures |r| == |mean|
  {
    Sub(mean, Scale(avg, dppsi))
  }

  /** `qdp` of every forced descriptor. */
  function Qdp(dpmean: seq<seq<real>>, dppsi: seq<real>, qavg: seq<real>): (r: seq<seq<real>>)
    requires |dpmean| == |qavg| && forall i :: 0 <= i < |dpmean| ==> |dpmean[i]| == |dppsi|
    ensures |r| == |dpmean| && forall i :: 0 <= i < |r| ==> r[i] == Covariance(dpmean[i], dppsi, qavg[i])
  {
    seq(|dpmean|, i requires 0 <= i < |dpmean| => Covariance(dpmean[i], dppsi, qavg[i]))
  }

  /** The derivative of force * (avg - target)^2 with respect to avg. */
  function Slope(force: real, avg: real, target: real): real {
    2.0 * force * (avg - target)
  }

  predicate Columns(vs: seq<seq<real>>, np: nat) {
    forall i :: 0 <= i < |vs| ==> |vs[i]| == np
  }

  /** `objderiv`: dEdp plus 2 * force * (qavg - target) * qdp summed over the
      forced descriptors. */
  function Derivative(dEdp: seq<real>, forces: seq<real>, qavg: seq<real>, target: seq<real>,
                      qdp: seq<seq<real>>): (r: seq<real>)
    requires |forces| == |qavg| == |target| == |qdp| && Columns(qdp, |dEdp|)
    ensures |r| == |dEdp|
  {
    if |forces| == 0 then dEdp
    else
      var n := |forces| - 1;
      Add(Derivative(dEdp, forces[..n], qavg[..n], target[..n], qdp[..n]),
          Scale(Slope(forces[n], qavg[n], target[n]), qdp[n]))
  }

  /** The gathered lists with one more forced descriptor appended. */
  function Append(g: Gathered, force: real, avg: real, target: real, dpmean: seq<real>): Gathered {
    Gathered(g.forces + [force], g.qavg + [avg], g.target + [target], g.dpmean + [dpmean])
  }

  predicate Aligned(g: Gathered, np: nat) {
    |g.forces| == |g.qavg| == |g.target| == |g.dpmean| && Columns(g.dpmean, np)
  }

  lemma AppendAligned(g: Gathered, np: nat, force: real, avg: real, target: real, dpmean: seq<real>)
    requires Aligned(g, np) && |dpmean| == np
    ensures var h := Append(g, force, avg, target, dpmean);
      Aligned(h, np) && |h.forces| == |g.forces| + 1
  {
  }

  /** One more lookup that succeeds appends to the gathered lists. */
  lemma GatherStep(forcing: seq<Force>, run: RunAverages, objective: map<string, real>, i: nat, g: Gathered,
                    k: string, avg: real, dpmean: seq<real>, target: real)
    requires i < |forcing| && Gather(forcing, run, objective, i) == Ok(g) && k == forcing[i].key
    requires k in run.avg && k in run.dp && k in objective
    requires avg == run.avg[k] && dpmean == run.dp[k] && target == objective[k]
    ensures Gather(forcing, run, objective, i + 1) == Ok(Append(g, forcing[i].force, avg, target, dpmean))
  {
    assert i + 1 - 1 == i;
  }

  /** One more lookup that fails ends the walk with its error. */
  lemma GatherStop(forcing: seq<Force>, run: RunAverages, objective: map<string, real>, i: nat)
    requires i < |forcing| && Gather(forcing, run, objective, i).Ok?
    requires forcing[i].key !in run.avg || forcing[i].key !in run.dp || forcing[i].key !in objective
    ensures Gather(forcing, run, objective, i + 1).Err?
  {
    assert i + 1 - 1 == i;
  }

  lemma {:induction false} PenaltyAppend(g: Gathered, np: nat, force: real, avg: real, target: real, dpmean: seq<real>)
    requires Aligned(g, np)
    ensures var h := Append(g, force, avg, target, dpmean);
      Penalty(h.forces, h.qavg, h.target) == Penalty(g.forces, g.qavg, g.target) + PenaltyTerm(force, avg, target)
  {
    var h := Append(g, force, avg, target, dpmean);
    var n := |g.forces|;
    assert h.forces[..n] == g.forces && h.qavg[..n] == g.qavg && h.target[..n] == g.target;
  }

  lemma {:induction false} DistanceAppend(g: Gathered, np: nat, force: real, avg: real, target: real, dpmean: seq<real>)
    requires Aligned(g, np)
    ensures var h := Append(g, force, avg, target, dpmean);
      Distance(h.qavg, h.target) == Distance(g.qavg, g.target) + (avg - target)
  {
    var h := Append(g, force, avg, target, dpmean);
    var n := |g.forces|;
    assert h.qavg[..n] == g.qavg && h.target[..n] == g.target;
  }

  lemma {:induction false} DerivativeAppend(dEdp: seq<real>, dppsi: seq<real>, g: Gathered,
                                            force: real, avg: real, target: real, dpmean: seq<real>)
    requires Aligned(g, |dEdp|) && |dppsi| == |dEdp| == |dpmean|
    ensures var h := Append(g, force, avg, target, dpmean);
      Derivative(dEdp, h.forces, h.qavg, h.target, Qdp(h.dpmean, dppsi, h.qavg)) ==
      Add(Derivative(dEdp, g.forces, g.qavg, g.target, Qdp(g.dpmean, dppsi, g.qavg)),
          Scale(Slope(force, avg, target), Covariance(dpmean, dppsi, avg)))
  {
    var h := Append(g, force, avg, target, dpmean);
    var n := |g.forces|;
    var q := Qdp(h.dpmean, dppsi, h.qavg);
    assert h.forces[..n] == g.forces && h.qavg[..n] == g.qavg && h.target[..n] == g.target;
    assert h.dpmean[..n] == g.dpmean;
    assert q[..n] == Qdp(g.dpmean, dppsi, g.qavg);
    assert q[n] == Covariance(dpmean, dppsi, avg);
    assert h.forces[n] == force && h.qavg[n] == avg && h.target[n] == target;
  }

  /** The `qavg` and `qdp` dictionaries hold, under each of the first n
      forced names, its average and covariance. */
  predicate Recorded(qavg: map<string, real>, qdp: map<string, seq<real>>, forcing: seq<Force>,
                     g: Gathered, dppsi: seq<real>, n: nat)
    requires n <= |forcing| && Aligned(g, |dppsi|) && |g.forces| == n
  {
    forall j :: 0 <= j < n ==>
      forcing[j].key in qavg && qavg[forcing[j].key] == g.qavg[j] &&
      forcing[j].key in qdp && qdp[forcing[j].key] == Covariance(g.dpmean[j], dppsi, g.qavg[j])
  }

  /** Every key of the dictionaries is one of the first n forced names. */
  ghost predicate KeysForced<V, W>(qavg: map<string, V>, qdp: map<string, W>, forcing: seq<Force>, n: nat)
    requires n <= |forcing|
  {
    forall k :: k in qavg || k in qdp ==> exists j :: 0 <= j < n && forcing[j].key == k
  }

  lemma RecordedStep(qavg: map<string, real>, qdp: map<string, seq<real>>, forcing: seq<Force>,
                     g: Gathered, dppsi: seq<real>, i: nat, avg: real, target: real, dpmean: seq<real>)
    requires i < |forcing| && Aligned(g, |dppsi|) && |g.forces| == i && |dpmean| == |dppsi|
    requires DistinctKeys(forcing) && Recorded(qavg, qdp, forcing, g, dppsi, i)
    ensures var k := forcing[i].key;
      Recorded(qavg[k := avg], qdp[k := Covariance(dpmean, dppsi, avg)], forcing,
               Append(g, forcing[i].force, avg, target, dpmean), dppsi, i + 1)
  {
  }

  lemma KeysForcedStep<V, W>(qavg: map<string, V>, qdp: map<string, W>, forcing: seq<Force>, i: nat, v: V, w: W)
    requires i < |forcing| && KeysForced(qavg, qdp, forcing, i)
    ensures KeysForced(qavg[forcing[i].key := v], qdp[forcing[i].key := w], forcing, i + 1)
  {
    var qavg', qdp' := qavg[forcing[i].key := v], qdp[forcing[i].key := w];
    forall k | k in qavg' || k in qdp'
      ensures exists j :: 0 <= j < i + 1 && forcing[j].key == k
    {
      if k != forcing[i].key {
        var j :| 0 <= j < i && forcing[j].key == k;
      }
    }
  }

  /** What `get_obj_deriv` returns. */
  datatype ObjDeriv = ObjDeriv(objderiv: seq<real>, energy: real, objfunc: real, dist: real, dEdp: seq<real>,
                               qavg: map<string, real>, qdp: map<string, seq<real>>)

  /** What `get_obj_deriv` returns for a run whose lookups all succeed: the
      energy, its covariance dEdp with the parameter derivative, the
      penalised objective, its derivative and the distance from the
      targets, and the dictionaries of averages and covariances. */
  ghost predicate IsObjDeriv(run: RunAverages, np: nat, forcing: seq<Force>, objective: map<string, real>, d: ObjDeriv)
    requires RunShaped(run, np)
  {
    var r := Gather(forcing, run, objective, |forcing|);
    r.Ok? && Aligned(r.value, np) && ObjDerivFrom(run, forcing, r.value, d)
  }

  ghost predicate ObjDerivFrom(run: RunAverages, forcing: seq<Force>, g: Gathered, d: ObjDeriv)
    requires Aligned(g, |run.dppsi|) && |run.dpH| == |run.dppsi| && |g.forces| == |forcing|
  {
    var dEdp := Covariance(run.dpH, run.dppsi, run.total);
    var qdp := Qdp(g.dpmean, run.dppsi, g.qavg);
    d.energy == run.total && d.dEdp == dEdp &&
    d.objfunc == run.total + Penalty(g.forces, g.qavg, g.target) &&
    d.dist == Distance(g.qavg, g.target) &&
    d.objderiv == Derivative(dEdp, g.forces, g.qavg, g.target, qdp) &&
    Recorded(d.qavg, d.qdp, forcing, g, run.dppsi, |forcing|) &&
    KeysForced(d.qavg, d.qdp, forcing, |forcing|)
  }

  /** The loop state of `get_obj_deriv` after the first i forced names,
      gathered in g. */
  ghost predicate Accumulated(run: RunAverages, np: nat, forcing: seq<Force>, i: nat, g: Gathered,
                              qavg: map<string, real>, qdp: map<string, seq<real>>,
                              distfromobj: real, objderiv: seq<real>, objfunc: real)
    requires RunShaped(run, np) && i <= |forcing|
  {
    Aligned(g, np) && |g.forces| == i &&
    var dEdp := Covariance(run.dpH, run.dppsi, run.total);
    objfunc == run.total + Penalty(g.forces, g.qavg, g.target) &&
    distfromobj == Distance(g.qavg, g.target) &&
    objderiv == Derivative(dEdp, g.forces, g.qavg, g.target, Qdp(g.dpmean, run.dppsi, g.qavg)) &&
    Recorded(qavg, qdp, forcing, g, run.dppsi, i) && KeysForced(qavg, qdp, forcing, i)
  }

  lemma AccumulateStart(run: RunAverages, np: nat, forcing: seq<Force>, objective: map<string, real>,
                        qavg: map<string, real>, qdp: map<string, seq<real>>)
    requires RunShaped(run, np) && qavg == map[] && qdp == map[]
    ensures var dEdp := Covariance(run.dpH, run.dppsi, run.total);
      var g := Gathered([], [], [], []);
      |run.dppsi| == |run.dpH| == |dEdp| == np && Gather(forcing, run, objective, 0) == Ok(g) &&
      Accumulated(run, np, forcing, 0, g, qavg, qdp, 0.0, dEdp, run.total)
  {
  }

  lemma AccumulateStep(run: RunAverages, np: nat, forcing: seq<Force>, objective: map<string, real>, i: nat,
                       g: Gathered, qavg: map<string, real>, qdp: map<string, seq<real>>,
                       distfromobj: real, objderiv: seq<real>, objfunc: real,
                       g': Gathered, qavg': map<string, real>, qdp': map<string, seq<real>>,
                       distfromobj': real, objderiv': seq<real>, objfunc': real)
    requires RunShaped(run, np) && DistinctKeys(forcing) && i < |forcing|
    requires Accumulated(run, np, forcing, i, g, qavg, qdp, distfromobj, objderiv, objfunc)
    requires forcing[i].key in run.avg && forcing[i].key in run.dp && forcing[i].key in objective
    requires
      var k, force := forcing[i].key, forcing[i].force;
      var avg, target, dpmean := run.avg[k], objective[k], run.dp[k];
      var covariance := Covariance(dpmean, run.dppsi, avg);
      g' == Append(g, force, avg, target, dpmean) &&
      qavg' == qavg[k := avg] && qdp' == qdp[k := covariance] && distfromobj' == distfromobj + (avg - target) &&
      objderiv' == Add(objderiv, Scale(Slope(force, avg, target), covariance)) &&
      objfunc' == objfunc + PenaltyTerm(force, avg, target)
    ensures Accumulated(run, np, forcing, i + 1, g', qavg', qdp', distfromobj', objderiv', objfunc')
  {
    hide Gather, Penalty, Distance, Derivative, Qdp, Recorded, KeysForced, Aligned, Append, Slope, PenaltyTerm;
    var k, force := forcing[i].key, forcing[i].force;
    var avg, target, dpmean := run.avg[k], objective[k], run.dp[k];
    var dEdp := Covariance(run.dpH, run.dppsi, run.total);
    PenaltyAppend(g, np, force, avg, target, dpmean);
    DistanceAppend(g, np, force, avg, target, dpmean);
    DerivativeAppend(dEdp, run.dppsi, g, force, avg, target, dpmean);
    AppendAligned(g, np, force, avg, target, dpmean);
    RecordedStep(qavg, qdp, forcing, g, run.dppsi, i, avg, target, dpmean);
    KeysForcedStep(qavg, qdp, forcing, i, avg, Covariance(dpmean, run.dppsi, avg));
  }

  /** After the last forced name the loop state is what `get_obj_deriv`
      returns. */
  lemma AccumulatedDone(run: RunAverages, np: nat, forcing: seq<Force>, objective: map<string, real>, g: Gathered,
                        qavg: map<string, real>, qdp: map<string, seq<real>>,
                        distfromobj: real, objderiv: seq<real>, objfunc: real)
    requires RunShaped(run, np) && Gather(forcing, run, objective, |forcing|) == Ok(g)
    requires Accumulated(run, np, forcing, |forcing|, g, qavg, qdp, distfromobj, objderiv, objfunc)
    ensures IsObjDeriv(run, np, forcing, objective, ObjDeriv(objderiv, run.total, objfunc, distfromobj,
                                                             Covariance(run.dpH, run.dppsi, run.total), qavg, qdp))
    ensures |objderiv| == np
  {
  }

  /** `get_obj_deriv` after the VMC run: walk the forcing dictionary,
      accumulating the objective, its derivative and the distance from the
      targets, and record each descriptor's average and covariance. */
  method GetObjDeriv(run: RunAverages, np: nat, forcing: seq<Force>, objective: map<string, real>)
    returns (r: Result<ObjDeriv>)
    requires RunShaped(run, np) && DistinctKeys(forcing)
    ensures r.Err? <==> Gather(forcing, run, objective, |forcing|).Err?
    ensures r.Err? ==> r.error == Gather(forcing, run, objective, |forcing|).error
    ensures r.Ok? ==> IsObjDeriv(run, np, forcing, objective, r.value) && |r.value.objderiv| == np
  {
    hide *;
    AccumulateStart(run, np, forcing, objective, map[], map[]);
    var dpavg, havg, dpH := run.dppsi, run.total, run.dpH;
    var dEdp := Covariance(dpH, dpavg, havg);
    var qavg: map<string, real> := map[];
    var qdp: map<string, seq<real>> := map[];
    var distfromobj := 0.0;
    var objderiv := dEdp;
    var objfunc := havg;
    ghost var g := Gathered([], [], [], []);
    var i := 0;
    while i < |forcing|
      invariant 0 <= i <= |forcing|
      invariant Gather(forcing, run, objective, i) == Ok(g)
      invariant Accumulated(run, np, forcing, i, g, qavg, qdp, distfromobj, objderiv, objfunc)
      invariant |objderiv| == np
    {
      var k, force := forcing[i].key, forcing[i].force;
      if k !in run.avg || k !in run.dp || k !in objective {
        GatherFailsAt(forcing, run, objective, i);
        return Err(Gather(forcing, run, objective, |forcing|).error);
      }
      var avg, target := run.avg[k], objective[k];
      RunColumn(run, np, k);
      var covariance := Covariance(run.dp[k], dpavg, avg);
      GatherStep(forcing, run, objective, i, g, k, avg, run.dp[k], target);
      ghost var g0, qavg0, qdp0, distfromobj0, objderiv0, objfunc0 := g, qavg, qdp, distfromobj, objderiv, objfunc;
      g := Append(g, force, avg, target, run.dp[k]);
      qavg := qavg[k := avg];
      qdp := qdp[k := covariance];
      var distobj := avg - target;
      objderiv := Add(objderiv, Scale(Slope(force, avg, target), covariance));
      distfromobj := distfromobj + distobj;
      objfunc := objfunc + PenaltyTerm(force, avg, target);
      AccumulateStep(run, np, forcing, objective, i, g0, qavg0, qdp0, distfromobj0, objderiv0, objfunc0,
                     g, qavg, qdp, distfromobj, objderiv, objfunc);
      i := i + 1;
    }
    AccumulatedDone(run, np, forcing, objective, g, qavg, qdp, distfromobj, objderiv, objfunc);
    r := Ok(ObjDeriv(objderiv, havg, objfunc, distfromobj, dEdp, qavg, qdp));
  }

  /** What `get_obj_deriv` returns as written: `objderiv = dEdp`
      (cvmc.py:190) binds both names to one array, so the in-place `+=` at
      cvmc.py:197 also changes the array returned under "dEdp". */
  function ReturnedAsWritten(d: ObjDeriv): ObjDeriv {
    d.(dEdp := d.objderiv)
  }

  /** As written, entry j of the returned "dEdp" differs from the energy
      covariance exactly when the forced descriptors move the objective
      along parameter j: the alias reports the penalised derivative. */
  lemma AliasedEnergyDerivative(run: RunAverages, np: nat, forcing: seq<Force>, objective: map<string, real>,
                                d: ObjDeriv, j: nat)
    requires RunShaped(run, np) && IsObjDeriv(run, np, forcing, objective, d) && j < np
    ensures var g := Gather(forcing, run, objective, |forcing|).value;
      var qdp := Qdp(g.dpmean, run.dppsi, g.qavg);
      |g.forces| == |g.qavg| == |g.target| == |qdp| && Columns(qdp, np) &&
      |d.dEdp| == np == |ReturnedAsWritten(d).dEdp| &&
      ReturnedAsWritten(d).dEdp[j] == d.dEdp[j] + SlopeSum(g.forces, g.qavg, g.target, Column(qdp, j)) &&
      (ReturnedAsWritten(d).dEdp[j] == d.dEdp[j] <==> SlopeSum(g.forces, g.qavg, g.target, Column(qdp, j)) == 0.0)
  {
    var g := Gather(forcing, run, objective, |forcing|).value;
    var qdp := Qdp(g.dpmean, run.dppsi, g.qavg);
    var dEdp := Covariance(run.dpH, run.dppsi, run.total);
    assert Columns(qdp, np);
    DerivativeEntry(dEdp, g.forces, g.qavg, g.target, qdp, j);
  }

  /** Column j of the per-descriptor covariances: how every forced average
      moves with parameter j. */
  function Column(vs: seq<seq<real>>, j: nat): (r: seq<real>)
    requires forall i :: 0 <= i < |vs| ==> j < |vs[i]|
    ensures |r| == |vs| && forall i :: 0 <= i < |vs| ==> r[i] == vs[i][j]
  {
    seq(|vs|, i requires 0 <= i < |vs| => vs[i][j])
  }

  /** The averages after a step h along the rates d. */
  function Moved(avg: seq<real>, h: real, d: seq<real>): (r: seq<real>)
    requires |avg| == |d|
    ensures |r| == |avg| && forall i :: 0 <= i < |avg| ==> r[i] == avg[i] + Times(h, d[i])
  {
    seq(|avg|, i requires 0 <= i < |avg| => avg[i] + Times(h, d[i]))
  }

  /** The first-order change of the penalty per unit step along the rates d. */
  function SlopeSum(forces: seq<real>, qavg: seq<real>, target: seq<real>, d: seq<real>): real
    requires |forces| == |qavg| == |target| == |d|
  {
    if |forces| == 0 then 0.0
    else
      var n := |forces| - 1;
      SlopeSum(forces[..n], qavg[..n], target[..n], d[..n]) + Times(Slope(forces[n], qavg[n], target[n]), d[n])
  }

  /** The second-order change of the penalty along the rates d. */
  function Curvature(forces: seq<real>, d: seq<real>): real
    requires |forces| == |d|
  {
    if |forces| == 0 then 0.0
    else
      var n := |forces| - 1;
      Curvature(forces[..n], d[..n]) + forces[n] * d[n] * d[n]
  }

  /** One penalty term is a quadratic in the step. */
  lemma PenaltyTermMoved(force: real, avg: real, target: real, h: real, d: real)
    ensures PenaltyTerm(force, avg + Times(h, d), target) ==
      PenaltyTerm(force, avg, target) + Times(h, Times(Slope(force, avg, target), d)) + Times(Times(h, h), force * d * d)
  {
  }

  /** The penalty is a quadratic in the step, with SlopeSum as its slope. */
  lemma {:induction false} PenaltyMoved(forces: seq<real>, qavg: seq<real>, target: seq<real>, h: real, d: seq<real>)
    requires |forces| == |qavg| == |target| == |d|
    ensures Penalty(forces, Moved(qavg, h, d), target) ==
      Penalty(forces, qavg, target) + Times(h, SlopeSum(forces, qavg, target, d)) + Times(Times(h, h), Curvature(forces, d))
    decreases |forces|
  {
    if |forces| > 0 {
      var n := |forces| - 1;
      var moved := Moved(qavg, h, d);
      assert moved[..n] == Moved(qavg[..n], h, d[..n]);
      PenaltyMoved(forces[..n], qavg[..n], target[..n], h, d[..n]);
      PenaltyTermMoved(forces[n], qavg[n], target[n], h, d[n]);
      SumTimesDistributes(h, SlopeSum(forces[..n], qavg[..n], target[..n], d[..n]),
                          Times(Slope(forces[n], qavg[n], target[n]), d[n]));
      SumTimesDistributes(Times(h, h), Curvature(forces[..n], d[..n]), forces[n] * d[n] * d[n]);
    }
  }

  lemma SumTimesDistributes(h: real, a: real, b: real)
    ensures Times(h, a + b) == Times(h, a) + Times(h, b)
  {
  }

  /** Entry j of `objderiv` is dEdp[j] plus the penalty's slope along column j. */
  lemma {:induction false} DerivativeEntry(dEdp: seq<real>, forces: seq<real>, qavg: seq<real>, target: seq<real>,
                                           qdp: seq<seq<real>>, j: nat)
    requires |forces| == |qavg| == |target| == |qdp| && Columns(qdp, |dEdp|) && j < |dEdp|
    ensures Derivative(dEdp, forces, qavg, target, qdp)[j] == dEdp[j] + SlopeSum(forces, qavg, target, Column(qdp, j))
    decreases |forces|
  {
    if |forces| > 0 {
      var n := |forces| - 1;
      assert Column(qdp, j)[..n] == Column(qdp[..n], j);
      DerivativeEntry(dEdp, forces[..n], qavg[..n], target[..n], qdp[..n], j);
    }
  }

  /** `objderiv` is the derivative of `objfunc`: if a step h along parameter
      j moves the energy by h * dEdp[j] and every forced average by h times
      its covariance, the objective moves by h * objderiv[j] up to a term
      of second order in h. */
  lemma ObjectiveSlope(total: real, dEdp: seq<real>, forces: seq<real>, qavg: seq<real>, target: seq<real>,
                       qdp: seq<seq<real>>, j: nat, h: real)
    requires |forces| == |qavg| == |target| == |qdp| && Columns(qdp, |dEdp|) && j < |dEdp|
    ensures (total + Times(h, dEdp[j])) + Penalty(forces, Moved(qavg, h, Column(qdp, j)), target) ==
      (total + Penalty(forces, qavg, target)) + Times(h, Derivative(dEdp, forces, qavg, target, qdp)[j])
        + Times(Times(h, h), Curvature(forces, Column(qdp, j)))
  {
    var d := Column(qdp, j);
    PenaltyMoved(forces, qavg, target, h, d);
    DerivativeEntry(dEdp, forces, qavg, target, qdp, j);
    QuadraticStep(total, dEdp[j], Penalty(forces, qavg, target), Penalty(forces, Moved(qavg, h, d), target),
                  SlopeSum(forces, qavg, target, d), Curvature(forces, d), Derivative(dEdp, forces, qavg, target, qdp)[j], h);
  }

  lemma QuadraticStep(total: real, e: real, p0: real, p1: real, slope: real, curvature: real, entry: real, h: real)
    requires p1 == p0 + Times(h, slope) + Times(Times(h, h), curvature) && entry == e + slope
    ensures (total + Times(h, e)) + p1 == (total + p0) + Times(h, entry) + Times(Times(h, h), curvature)
  {
    SumTimesDistributes(h, e, slope);
  }

  // ---------------------------------------------------------------------
  // The line search of `cvmc_optimize`

  /** `np.linspace(start, stop, num)`: num evenly spaced points, the last
      one exactly `stop` when there are at least two. */
  function Linspace(start: real, stop: real, num: nat): (r: seq<real>)
    ensures |r| == num
  {
    if num <= 1 then seq(num, k => start)
    else
      var step := (stop - start) / ((num - 1) as real);
      seq(num, k requires 0 <= k < num => if k == num - 1 then stop else start + Times(k as real, step))
  }

  /** `taus`: the grid 0, tstep/npts, ..., tstep with its first point
      replaced by -tstep / (npts - 1); a Python float division by zero when
      npts is 1. */
  function Taus(tstep: real, npts: nat): (r: Result<seq<real>>)
    ensures r.Err? <==> npts == 1
    ensures r.Err? ==> r.error == ZeroDivision
    ensures r.Ok? ==> |r.value| == npts + 1
  {
    if npts == 1 then Err(ZeroDivision)
    else Ok(Linspace(0.0, tstep, npts + 1)[0 := -tstep / (npts as real - 1.0)])
  }

  /** With no interior point the grid is the single point tstep: the
      replaced first point is -tstep / -1. */
  lemma TausSinglePoint(tstep: real)
    ensures Taus(tstep, 0) == Ok([tstep])
  {
    var grid := Linspace(0.0, tstep, 1);
    assert grid == [0.0];
    assert -tstep / (0.0 - 1.0) == tstep;
    assert grid[0 := tstep] == [tstep];
  }

  /** For npts >= 2 the grid steps back once by tstep / (npts - 1) and then
      forward in steps of tstep / npts up to tstep: strictly increasing when
      tstep > 0, with exactly one negative point. */
  lemma {:induction false} TausGrid(tstep: real, npts: nat)
    requires npts >= 2
    ensures var taus := Taus(tstep, npts).value;
      taus[0] == -tstep / (npts as real - 1.0) && taus[npts] == tstep &&
      (forall k :: 1 <= k <= npts ==> taus[k] == Times(k as real, tstep / (npts as real)))
    ensures tstep > 0.0 ==> var taus := Taus(tstep, npts).value;
      taus[0] < 0.0 && taus[1] > 0.0 &&
      (forall k :: 0 <= k < npts ==> taus[k] < taus[k + 1])
  {
    var taus := Taus(tstep, npts).value;
    var step := tstep / (npts as real);
    assert ((npts + 1 - 1) as real) == npts as real;
    forall k | 1 <= k <= npts
      ensures taus[k] == Times(k as real, step)
    {
      if k == npts {
        assert Times(npts as real, step) == tstep;
      }
    }
    if tstep > 0.0 {
      NegativeRatio(tstep, npts as real - 1.0);
      assert step > 0.0;
      forall k | 1 <= k < npts
        ensures taus[k] < taus[k + 1]
      {
        TimesIncreasing(k as real, step);
      }
    }
  }

  lemma NegativeRatio(a: real, d: real)
    requires a > 0.0 && d > 0.0
    ensures -a / d < 0.0
  {
  }

  lemma TimesIncreasing(k: real, step: real)
    requires step > 0.0
    ensures Times(k, step) < Times(k + 1.0, step)
  {
  }

  /** `params`: the points x0 - tau * objderiv of the line. */
  function LineParams(x0: seq<real>, taus: seq<real>, objderiv: seq<real>): (r: seq<seq<real>>)
    requires |x0| == |objderiv|
    ensures |r| == |taus| && forall k :: 0 <= k < |taus| ==> |r[k]| == |x0|
  {
    seq(|taus|, k requires 0 <= k < |taus| => Sub(x0, Scale(taus[k], objderiv)))
  }

  /** The update x0 - est_min * objderiv is the point of the line at tau =
      est_min: when the fitted minimum is a grid point, the new parameters are
      the ones evaluated there. */
  lemma UpdateOnLine(x0: seq<real>, taus: seq<real>, objderiv: seq<real>, estMin: real, k: nat)
    requires |x0| == |objderiv| && k < |taus| && taus[k] == estMin
    ensures LineParams(x0, taus, objderiv)[k] == Sub(x0, Scale(estMin, objderiv))
  {
  }

  /** Every parameter point lies on the line through x0 along objderiv:
      two points differ by the difference of their taus times objderiv. */
  lemma LineParamsCollinear(x0: seq<real>, taus: seq<real>, objderiv: seq<real>, a: nat, b: nat, j: nat)
    requires |x0| == |objderiv| && a < |taus| && b < |taus| && j < |x0|
    ensures var params := LineParams(x0, taus, objderiv);
      params[a][j] - params[b][j] == Times(taus[b] - taus[a], objderiv[j])
  {
    var params := LineParams(x0, taus, objderiv);
    assert params[a][j] == x0[j] - taus[a] * objderiv[j];
    assert params[b][j] == x0[j] - taus[b] * objderiv[j];
  }

  // ---------------------------------------------------------------------
  // The objective along the line, from correlated samples

  /** Element-wise product of two columns. */
  function Product(v: seq<real>, w: seq<real>): (r: seq<real>)
    requires |v| == |w|
    ensures |r| == |v| && forall i :: 0 <= i < |v| ==> r[i] == Times(v[i], w[i])
  {
    seq(|v|, i requires 0 <= i < |v| => Times(v[i], w[i]))
  }

  /** `np.mean(v * w) / np.mean(w)`. */
  function WeightedMean(v: seq<real>, w: seq<real>): real
    requires |v| == |w| > 0 && Sum(w) > 0.0
  {
    Mean(Product(v, w)) / Mean(w)
  }

  /** Under equal weights the weighted mean is the plain mean. */
  lemma WeightedMeanUniform(v: seq<real>, w: seq<real>, c: real)
    requires |v| == |w| > 0 && c > 0.0 && forall i :: 0 <= i < |w| ==> w[i] == c
    ensures Sum(w) > 0.0 && WeightedMean(v, w) == Mean(v)
  {
    var ones := seq(|w|, i => 1.0);
    SumScale(ones, c, w);
    SumOfOnes(ones);
    SumScale(v, c, Product(v, w));
    RatioOfScaled(Sum(v), |w| as real, c);
  }

  lemma {:induction false} SumOfOnes(ones: seq<real>)
    requires forall i :: 0 <= i < |ones| ==> ones[i] == 1.0
    ensures Sum(ones) == |ones| as real
  {
    if |ones| > 0 {
      SumOfOnes(ones[..|ones| - 1]);
    }
  }

  lemma RatioOfScaled(a: real, n: real, c: real)
    requires n > 0.0 && c > 0.0
    ensures Times(n, c) > 0.0 && (Times(a, c) / n) / (Times(n, c) / n) == a / n
  {
    assert Times(n, c) / n == c;
    assert Times(a, c) / n == (a / n) * c;
  }

  /** Only the ratios of the weights matter: scaling every weight by c > 0
      leaves the weighted mean unchanged. */
  lemma WeightedMeanScaleFree(v: seq<real>, w: seq<real>, c: real, cw: seq<real>)
    requires |v| == |w| == |cw| > 0 && Sum(w) > 0.0 && c > 0.0
    requires forall i :: 0 <= i < |w| ==> cw[i] == Times(w[i], c)
    ensures Sum(cw) > 0.0 && WeightedMean(v, cw) == WeightedMean(v, w)
  {
    SumScale(w, c, cw);
    ProductOfPositives(Sum(w), c);
    var p, cp := Product(v, w), Product(v, cw);
    forall i | 0 <= i < |v|
      ensures cp[i] == Times(p[i], c)
    {
      TimesAssociates(v[i], w[i], c);
    }
    SumScale(p, c, cp);
    RatioScaleFree(Sum(p), Sum(w), |v| as real, c);
  }

  lemma ProductOfPositives(a: real, b: real)
    requires a > 0.0 && b > 0.0
    ensures Times(a, b) > 0.0
  {
  }

  lemma TimesAssociates(a: real, b: real, c: real)
    ensures Times(a, Times(b, c)) == Times(Times(a, b), c)
  {
  }

  lemma RatioScaleFree(a: real, b: real, n: real, c: real)
    requires b > 0.0 && n > 0.0 && c > 0.0
    ensures (Times(a, c) / n) / (Times(b, c) / n) == (a / n) / (b / n)
  {
    assert (Times(a, c) / n) / (Times(b, c) / n) == a / b;
    assert (a / n) / (b / n) == a / b;
  }

  /** A data frame of the correlated evaluation: one column per name, every
      column one entry per configuration, and a weight column (when present)
      whose sum is positive. */
  predicate FrameShaped(data: map<string, seq<real>>, nconf: nat) {
    nconf > 0 && (forall c :: c in data ==> |data[c]| == nconf) &&
    ("weight" in data ==> Sum(data["weight"]) > 0.0)
  }

  /** The forced descriptors at one point of the line. */
  datatype Forced = Forced(forces: seq<real>, qavg: seq<real>, target: seq<real>)

  /** The weighted averages of the first n forced descriptors: data[k], then
      objective[k], stopping at the first missing name. */
  function StepGather(forcing: seq<Force>, data: map<string, seq<real>>, nconf: nat, objective: map<string, real>,
                      n: nat): (r: Result<Forced>)
    requires n <= |forcing| && FrameShaped(data, nconf) && "weight" in data
    ensures r.Ok? <==> forall i :: 0 <= i < n ==> forcing[i].key in data && forcing[i].key in objective
    ensures r.Ok? ==> |r.value.forces| == |r.value.qavg| == |r.value.target| == n
    ensures r.Ok? ==> forall i :: 0 <= i < n ==>
      r.value.forces[i] == forcing[i].force && r.value.target[i] == objective[forcing[i].key] &&
      r.value.qavg[i] == WeightedMean(data[forcing[i].key], data["weight"])
    ensures r.Err? ==> exists i :: 0 <= i < n && r.error == KeyError(forcing[i].key)
  {
    if n == 0 then Ok(Forced([], [], []))
    else
      var prefix := StepGather(forcing, data, nconf, objective, n - 1);
      var k := forcing[n - 1].key;
      if prefix.Err? then prefix
      else if k !in data || k !in objective then Err(KeyError(k))
      else
        var g := prefix.value;
        Ok(Forced(g.forces + [forcing[n - 1].force], g.qavg + [WeightedMean(data[k], data["weight"])],
                  g.target + [objective[k]]))
  }

  /** `objfunc` at one point of the line: the weighted energy plus the
      penalty on the weighted descriptor averages. */
  function StepObjective(data: map<string, seq<real>>, nconf: nat, forcing: seq<Force>, objective: map<string, real>)
    : (r: Result<real>)
    requires FrameShaped(data, nconf)
    ensures r.Err? <==> ("total" !in data || "weight" !in data ||
      exists i :: 0 <= i < |forcing| && (forcing[i].key !in data || forcing[i].key !in objective))
  {
    if "total" !in data then Err(KeyError("total"))
    else if "weight" !in data then Err(KeyError("weight"))
    else
      var forced := StepGather(forcing, data, nconf, objective, |forcing|);
      if forced.Err? then Err(forced.error)
      else
        var g := forced.value;
        Ok(WeightedMean(data["total"], data["weight"]) + Penalty(g.forces, g.qavg, g.target))
  }

  /** The first m results collected, or the first error among them. */
  function Collect<T>(rs: seq<Result<T>>, m: nat): (r: Result<seq<T>>)
    requires m <= |rs|
    ensures r.Ok? <==> forall k :: 0 <= k < m ==> rs[k].Ok?
    ensures r.Ok? ==> |r.value| == m && forall k :: 0 <= k < m ==> rs[k] == Ok(r.value[k])
    ensures r.Err? ==> exists k :: 0 <= k < m && rs[k] == Err(r.error) && forall j :: 0 <= j < k ==> rs[j].Ok?
  {
    if m == 0 then Ok([])
    else
      var prefix := Collect(rs, m - 1);
      if prefix.Err? then Err(prefix.error)
      else if rs[m - 1].Err? then Err(rs[m - 1].error)
      else Ok(prefix.value + [rs[m - 1].value])
  }

  lemma {:induction false} CollectErrorStays<T>(rs: seq<Result<T>>, m: nat, n: nat)
    requires m <= n <= |rs| && Collect(rs, m).Err?
    ensures Collect(rs, n) == Collect(rs, m)
    decreases n
  {
    if n > m {
      CollectErrorStays(rs, m, n - 1);
    }
  }

  /** The objective at every point of the line. */
  function StepObjectives(stepsdata: seq<map<string, seq<real>>>, nconf: nat, forcing: seq<Force>,
                          objective: map<string, real>): seq<Result<real>>
    requires forall k :: 0 <= k < |stepsdata| ==> FrameShaped(stepsdata[k], nconf)
  {
    seq(|stepsdata|, k requires 0 <= k < |stepsdata| => StepObjective(stepsdata[k], nconf, forcing, objective))
  }

  /** The line-search loop: for each (data, tau) of the zip, record tau and
      the objective there; `yfit` is the objective at the first m points,
      or the loop stops at the first error. */
  method LineSearch(stepsdata: seq<map<string, seq<real>>>, nconf: nat, taus: seq<real>, forcing: seq<Force>,
                    objective: map<string, real>) returns (r: Result<(seq<real>, seq<real>)>)
    requires forall k :: 0 <= k < |stepsdata| ==> FrameShaped(stepsdata[k], nconf)
    ensures var m := Min(|stepsdata|, |taus|);
      var fit := Collect(StepObjectives(stepsdata, nconf, forcing, objective), m);
      (r.Err? <==> fit.Err?) && (r.Err? ==> r.error == fit.error) &&
      (r.Ok? ==> r.value.0 == taus[..m] && r.value.1 == fit.value)
  {
    ghost var steps := StepObjectives(stepsdata, nconf, forcing, objective);
    assert |steps| == |stepsdata|;
    var m := Min(|stepsdata|, |taus|);
    var xfit: seq<real> := [];
    var yfit: seq<real> := [];
    var k := 0;
    while k < m
      invariant 0 <= k <= m
      invariant Collect(steps, k) == Ok(yfit)
      invariant xfit == taus[..k]
    {
      hide StepObjective;
      var objfunc := StepObjective(stepsdata[k], nconf, forcing, objective);
      assert steps[k] == objfunc;
      if objfunc.Err? {
        CollectErrorStays(steps, k + 1, m);
        return Err(objfunc.error);
      }
      xfit := xfit + [taus[k]];
      yfit := yfit + [objfunc.value];
      k := k + 1;
    }
    return Ok((xfit, yfit));
  }

  /** Under equal weights the objective at a point of the line is the one
      `get_obj_deriv` computes: the plain energy mean plus the penalty on
      the plain descriptor means. */
  lemma {:induction false} StepObjectiveUniform(data: map<string, seq<real>>, nconf: nat, forcing: seq<Force>,
                                                objective: map<string, real>, c: real)
    requires FrameShaped(data, nconf) && "total" in data && "weight" in data && c > 0.0
    requires forall i :: 0 <= i < |data["weight"]| ==> data["weight"][i] == c
    requires StepObjective(data, nconf, forcing, objective).Ok?
    ensures var g := StepGather(forcing, data, nconf, objective, |forcing|).value;
      (forall i :: 0 <= i < |forcing| ==> g.qavg[i] == Mean(data[forcing[i].key])) &&
      StepObjective(data, nconf, forcing, objective).value == Mean(data["total"]) + Penalty(g.forces, g.qavg, g.target)
  {
    var g := StepGather(forcing, data, nconf, objective, |forcing|).value;
    forall i | 0 <= i < |forcing|
      ensures g.qavg[i] == Mean(data[forcing[i].key])
    {
      WeightedMeanUniform(data[forcing[i].key], data["weight"], c);
    }
    WeightedMeanUniform(data["total"], data["weight"], c);
  }

  // ---------------------------------------------------------------------
  // Correlated sampling in `lm_cvmc`

  /** `rawweights = exp(2 (psi - psi0))`: |psi|^2 / |psi0|^2 per
      configuration, from the log-amplitudes at the evaluated and at the
      sampling parameters. */
  function Weights(f: Fns, psi: seq<real>, psi0: seq<real>): (r: seq<real>)
    requires |psi| == |psi0|
    ensures |r| == |psi|
  {
    seq(|psi|, i requires 0 <= i < |psi| => f.Exp(2.0 * (psi[i] - psi0[i])))
  }

  /** Each weight is positive and turns the sampled density exp(2 psi0) into
      the evaluated one exp(2 psi). */
  lemma WeightsRatio(f: Fns, psi: seq<real>, psi0: seq<real>, i: nat)
    requires ExpLaws(f) && |psi| == |psi0| && i < |psi|
    ensures var w := Weights(f, psi, psi0)[i];
      w > 0.0 && w * f.Exp(2.0 * psi0[i]) == f.Exp(2.0 * psi[i])
  {
    var w := Weights(f, psi, psi0)[i];
    ExpPositive(f, 2.0 * (psi[i] - psi0[i]));
    ExpRatio(f, w, 2.0 * (psi[i] - psi0[i]), 2.0 * psi0[i], 2.0 * psi[i]);
  }

  /** At the sampling parameters every weight is 1. */
  lemma WeightsAtSampling(f: Fns, psi: seq<real>)
    requires ExpLaws(f)
    ensures forall i :: 0 <= i < |psi| ==> Weights(f, psi, psi)[i] == 1.0
  {
    ExpZero(f);
    forall i | 0 <= i < |psi|
      ensures Weights(f, psi, psi)[i] == 1.0
    {
      assert 2.0 * (psi[i] - psi[i]) == 0.0;
    }
  }

  /** The weights of a non-empty sample have a positive sum. */
  lemma WeightsSumPositive(f: Fns, psi: seq<real>, psi0: seq<real>)
    requires ExpLaws(f) && |psi| == |psi0| > 0
    ensures Sum(Weights(f, psi, psi0)) > 0.0
  {
    var w := Weights(f, psi, psi0);
    forall i | 0 <= i < |w|
      ensures w[i] > 0.0
    {
      WeightsRatio(f, psi, psi0, i);
    }
    SumPositive(w);
  }

  lemma {:induction false} SumPositive(s: seq<real>)
    requires |s| > 0 && forall i :: 0 <= i < |s| ==> s[i] > 0.0
    ensures Sum(s) > 0.0
  {
    var n := |s| - 1;
    if n > 0 {
      SumPositive(s[..n]);
    }
  }

  /** One data frame of `lm_cvmc`: the energy columns, the descriptor
      columns written over them, and the weights. */
  function StepFrame(f: Fns, energies: map<string, seq<real>>, descript: map<string, seq<real>>,
                     psi: seq<real>, psi0: seq<real>): (r: map<string, seq<real>>)
    requires |psi| == |psi0|
    ensures r.Keys == energies.Keys + descript.Keys + {"weight"}
  {
    (energies + descript)["weight" := Weights(f, psi, psi0)]
  }

  /** The frames `lm_cvmc` builds are ones the line search can read: every
      column has one entry per configuration and the weights sum to a
      positive number. */
  lemma StepFrameShaped(f: Fns, energies: map<string, seq<real>>, descript: map<string, seq<real>>,
                        psi: seq<real>, psi0: seq<real>)
    requires ExpLaws(f) && |psi| == |psi0| > 0
    requires forall c :: c in energies ==> |energies[c]| == |psi|
    requires forall c :: c in descript ==> |descript[c]| == |psi|
    ensures FrameShaped(StepFrame(f, energies, descript, psi, psi0), |psi|)
  {
    WeightsSumPositive(f, psi, psi0);
  }

  /** `for di, desc in descript.items(): df[di] = desc`. */
  method WriteColumns(df: map<string, seq<real>>, descript: map<string, seq<real>>)
    returns (r: map<string, seq<real>>)
    ensures r == df + descript
  {
    r := df;
    var todo := descript.Keys;
    while todo != {}
      invariant todo <= descript.Keys
      invariant r.Keys == df.Keys + (descript.Keys - todo)
      invariant forall c :: c in r ==> r[c] == if c in descript.Keys - todo then descript[c] else df[c]
      decreases todo
    {
      var di :| di in todo;
      r := r[di := descript[di]];
      todo := todo - {di};
    }
  }

  /** `lm_cvmc`: one frame per parameter point, from that point's
      log-amplitudes, energies and descriptors. */
  method LmCvmc(f: Fns, psi0: seq<real>, psis: seq<seq<real>>, energies: seq<map<string, seq<real>>>,
                descripts: seq<map<string, seq<real>>>) returns (data: seq<map<string, seq<real>>>)
    requires |psis| == |energies| == |descripts|
    requires forall p :: 0 <= p < |psis| ==> |psis[p]| == |psi0|
    ensures |data| == |psis|
    ensures forall p :: 0 <= p < |psis| ==> data[p] == StepFrame(f, energies[p], descripts[p], psis[p], psi0)
  {
    data := [];
    var p := 0;
    while p < |psis|
      invariant 0 <= p <= |psis| && |data| == p
      invariant forall q :: 0 <= q < p ==> data[q] == StepFrame(f, energies[q], descripts[q], psis[q], psi0)
    {
      var psi := psis[p];
      var rawweights := Weights(f, psi, psi0);
      var df := WriteColumns(energies[p], descripts[p]);
      df := df["weight" := rawweights];
      data := data + [df];
      p := p + 1;
    }
  }

  // ---------------------------------------------------------------------
  // The optimisation loop of `cvmc_optimize`

  /** One iteration's record: the `get_obj_deriv` result, the parameters it
      was computed at, and the line-search points and values. */
  datatype Iteration = Iteration(grad: ObjDeriv, parameters: seq<real>, yfit: seq<real>, taus: seq<real>)

  /** How an iteration ends: None when it completes, otherwise the error of
      the first step that fails (the objective lookups, the tau grid, the
      line-search lookups). */
  function IterationOutcome(run: RunAverages, forcing: seq<Force>, objective: map<string, real>,
                            tstep: real, npts: nat, steps: seq<map<string, seq<real>>>, nconf: nat): Option<Error>
    requires forall k :: 0 <= k < |steps| ==> FrameShaped(steps[k], nconf)
  {
    var grad := Gather(forcing, run, objective, |forcing|);
    var taus := Taus(tstep, npts);
    if grad.Err? then Some(grad.error)
    else if taus.Err? then Some(taus.error)
    else
      var fit := Collect(StepObjectives(steps, nconf, forcing, objective), Min(|steps|, |taus.value|));
      if fit.Err? then Some(fit.error) else None
  }

  /** The parameters move, iteration by iteration, by est_min along minus
      that iteration's objective derivative, starting at x0 and ending at x. */
  ghost predicate Descends(x0: seq<real>, history: seq<Iteration>, estMins: seq<real>, x: seq<real>) {
    |history| <= |estMins| &&
    (|history| == 0 ==> x == x0) &&
    (|history| > 0 ==> history[0].parameters == x0) &&
    forall it :: 0 <= it < |history| ==>
      |history[it].parameters| == |history[it].grad.objderiv| &&
      NextParameters(history, it, x) == Sub(history[it].parameters, Scale(estMins[it], history[it].grad.objderiv))
  }

  /** The parameters after iteration it: the next iteration's, or the final ones. */
  function NextParameters(history: seq<Iteration>, it: nat, x: seq<real>): seq<real>
    requires it < |history|
  {
    if it + 1 < |history| then history[it + 1].parameters else x
  }

  lemma DescendsStep(x0: seq<real>, history: seq<Iteration>, estMins: seq<real>, x: seq<real>,
                     grad: ObjDeriv, yfit: seq<real>, taus: seq<real>, x': seq<real>)
    requires Descends(x0, history, estMins, x) && |history| < |estMins| && |x| == |grad.objderiv|
    requires x' == Sub(x, Scale(estMins[|history|], grad.objderiv))
    ensures Descends(x0, history + [Iteration(grad, x, yfit, taus)], estMins, x')
  {
    hide Sub, Scale;
    var h' := history + [Iteration(grad, x, yfit, taus)];
    forall it | 0 <= it < |h'|
      ensures |h'[it].parameters| == |h'[it].grad.objderiv|
      ensures NextParameters(h', it, x') == Sub(h'[it].parameters, Scale(estMins[it], h'[it].grad.objderiv))
    {
      if it < |history| {
        assert h'[it] == history[it];
        assert NextParameters(h', it, x') == NextParameters(history, it, x);
      }
    }
  }

  lemma DescendsStart(x0: seq<real>, estMins: seq<real>)
    ensures Descends(x0, [], estMins, x0)
  {
  }

  /** An iteration's record holds what `get_obj_deriv` and the line search
      compute for that iteration. */
  ghost predicate IterationRecord(run: RunAverages, np: nat, forcing: seq<Force>, objective: map<string, real>,
                                  tstep: real, npts: nat, steps: seq<map<string, seq<real>>>, nconf: nat,
                                  record: Iteration)
    requires RunShaped(run, np) && forall k :: 0 <= k < |steps| ==> FrameShaped(steps[k], nconf)
  {
    var taus := Taus(tstep, npts);
    var m := Min(|steps|, npts + 1);
    var fit := Collect(StepObjectives(steps, nconf, forcing, objective), m);
    taus.Ok? && fit.Ok? && IsObjDeriv(run, np, forcing, objective, record.grad) &&
    record.taus == taus.value[..m] && record.yfit == fit.value
  }

  /** One completed iteration of the loop: the outcome is None and the
      record holds what the iteration computed. */
  lemma IterationRecorded(run: RunAverages, np: nat, forcing: seq<Force>, objective: map<string, real>,
                          tstep: real, npts: nat, steps: seq<map<string, seq<real>>>, nconf: nat,
                          grad: ObjDeriv, taus: seq<real>, xfit: seq<real>, yfit: seq<real>, x: seq<real>)
    requires RunShaped(run, np) && forall k :: 0 <= k < |steps| ==> FrameShaped(steps[k], nconf)
    requires IsObjDeriv(run, np, forcing, objective, grad) && Taus(tstep, npts) == Ok(taus)
    requires var m := Min(|steps|, |taus|);
      var fit := Collect(StepObjectives(steps, nconf, forcing, objective), m);
      fit.Ok? && xfit == taus[..m] && yfit == fit.value
    ensures IterationOutcome(run, forcing, objective, tstep, npts, steps, nconf).None?
    ensures IterationRecord(run, np, forcing, objective, tstep, npts, steps, nconf, Iteration(grad, x, yfit, xfit))
  {
    hide Collect, StepObjectives, StepObjective, Linspace;
  }

  /** `cvmc_optimize`'s main loop over `iters` iterations. The VMC runs,
      the correlated evaluations and `stable_fit` are outside the model:
      `runs[it]` holds the column means of iteration it's VMC run,
      `stepsdata[it]` the frames `lm_cvmc` returns for its line and
      `estMins[it]` the minimum `stable_fit` returns for it. */
  method CvmcOptimize(x0: seq<real>, np: nat, forcing: seq<Force>, objective: map<string, real>,
                      tstep: real, npts: nat, runs: seq<RunAverages>, stepsdata: seq<seq<map<string, seq<real>>>>,
                      nconf: nat, estMins: seq<real>) returns (r: Result<(seq<real>, seq<Iteration>)>)
    requires |x0| == np && DistinctKeys(forcing) && |runs| == |stepsdata| == |estMins|
    requires forall it :: 0 <= it < |runs| ==> RunShaped(runs[it], np)
    requires forall it, k :: 0 <= it < |stepsdata| && 0 <= k < |stepsdata[it]| ==> FrameShaped(stepsdata[it][k], nconf)
    ensures r.Ok? <==> forall it :: 0 <= it < |runs| ==>
      IterationOutcome(runs[it], forcing, objective, tstep, npts, stepsdata[it], nconf).None?
    ensures r.Err? ==> exists it :: 0 <= it < |runs| &&
                         IterationOutcome(runs[it], forcing, objective, tstep, npts, stepsdata[it], nconf) == Some(r.error) &&
                         forall j :: 0 <= j < it ==>
                           IterationOutcome(runs[j], forcing, objective, tstep, npts, stepsdata[j], nconf).None?
    ensures r.Ok? ==> |r.value.1| == |runs| && Descends(x0, r.value.1, estMins, r.value.0)
    ensures r.Ok? ==> forall it :: 0 <= it < |runs| ==>
      IterationRecord(runs[it], np, forcing, objective, tstep, npts, stepsdata[it], nconf, r.value.1[it])
  {
    hide Gather, Penalty, PenaltyTerm, Distance, Sub, Covariance, Qdp, Slope, Columns, Derivative, Append, Aligned,
      Recorded, IsObjDeriv, ObjDerivFrom, Accumulated, Column, Moved, SlopeSum, Curvature, Linspace, Taus, LineParams,
      Product, WeightedMean, FrameShaped, StepGather, StepObjective, Collect, StepObjectives, Weights, StepFrame,
      Descends, NextParameters, IterationRecord, RunShaped, DistinctKeys, Scale, Min;
    DescendsStart(x0, estMins);
    var x := x0;
    var history: seq<Iteration> := [];
    var it := 0;
    while it < |runs|
      invariant 0 <= it <= |runs| && |history| == it && |x| == np
      invariant forall j :: 0 <= j < it ==>
        IterationOutcome(runs[j], forcing, objective, tstep, npts, stepsdata[j], nconf).None?
      invariant Descends(x0, history, estMins, x)
      invariant forall j :: 0 <= j < it ==>
        IterationRecord(runs[j], np, forcing, objective, tstep, npts, stepsdata[j], nconf, history[j])
    {
      var grad := GetObjDeriv(runs[it], np, forcing, objective);
      if grad.Err? {
        return Err(grad.error);
      }
      var taus := Taus(tstep, npts);
      if taus.Err? {
        return Err(taus.error);
      }
      var params := LineParams(x, taus.value, grad.value.objderiv);
      var fit := LineSearch(stepsdata[it], nconf, taus.value, forcing, objective);
      if fit.Err? {
        return Err(fit.error);
      }
      var (xfit, yfit) := fit.value;
      IterationRecorded(runs[it], np, forcing, objective, tstep, npts, stepsdata[it], nconf,
                        grad.value, taus.value, xfit, yfit, x);
      var x' := Sub(x, Scale(estMins[it], grad.value.objderiv));
      DescendsStep(x0, history, estMins, x, grad.value, yfit, xfit, x');
      history := history + [Iteration(grad.value, x, yfit, xfit)];
      x := x';
      it := it + 1;
    }
    return Ok((x, history));
  }
}
