/** The descriptor accumulators of `pyqmc/cvmc.py`: `DescriptorFromOBDM`,
    which turns one-body density matrices into descriptors, and the part of
    `PGradDescriptor` that is arithmetic, the nodal regularisation and the
    averages it reports.

    The wave function's gradients, the energy accumulator, the parameter
    derivatives and the density-matrix evaluators are foreign calls; their
    per-configuration results are arguments here. */
module CvmcDescriptors {
  import opened Wrappers
  import opened Analytic
  import opened RealSeq

  /** One term of a descriptor: weight w times the density-matrix element (i, j). */
  datatype Element = Element(w: real, i: nat, j: nat)

  /** Every configuration's density matrix of `ret` (ret[c][i][j]) has the
      elements `ellist` names; there are n configurations. */
  predicate Fits(ret: seq<seq<seq<real>>>, n: nat, ellist: seq<Element>) {
    |ret| == n && forall q :: 0 <= q < |ellist| ==> ElementFits(ret, n, ellist[q])
  }

  predicate ElementFits(ret: seq<seq<seq<real>>>, n: nat, el: Element) {
    |ret| == n && forall c :: 0 <= c < n ==> el.i < |ret[c]| && el.j < |ret[c][el.i]|
  }

  /** norm * w * ret["value"][:, i, j]. */
  function Term(norm: real, el: Element, ret: seq<seq<seq<real>>>, n: nat): (r: seq<real>)
    requires ElementFits(ret, n, el)
    ensures |r| == n
  {
    seq(n, c requires 0 <= c < n => norm * el.w * ret[c][el.i][el.j])
  }

  /** `totsum` after adding the terms of one list, one element at a time. */
  function AddList(acc: seq<real>, norm: real, ellist: seq<Element>, ret: seq<seq<seq<real>>>, n: nat): (r: seq<real>)
    requires |acc| == n && Fits(ret, n, ellist)
    ensures |r| == n
  {
    if |ellist| == 0 then acc
    else
      var m := |ellist| - 1;
      Add(AddList(acc, norm, ellist[..m], ret, n), Term(norm, ellist[m], ret, n))
  }

  /** The first m pairs of `zip(rets, ellists)` may be added. */
  predicate FitsZip(rets: seq<seq<seq<seq<real>>>>, ellists: seq<seq<Element>>, n: nat, m: nat) {
    m <= |rets| && m <= |ellists| &&
    forall p :: 0 <= p < m ==> Fits(rets[p], n, ellists[p])
  }

  /** `totsum` after the first m pairs of `zip(rets, ellists)`. */
  function AddPairs(acc: seq<real>, norm: real, rets: seq<seq<seq<seq<real>>>>, ellists: seq<seq<Element>>,
                    n: nat, m: nat): (r: seq<real>)
    requires |acc| == n && FitsZip(rets, ellists, n, m)
    ensures |r| == n
  {
    if m == 0 then acc
    else AddList(AddPairs(acc, norm, rets, ellists, n, m - 1), norm, ellists[m - 1], rets[m - 1], n)
  }

  /** One descriptor: the terms of every list zipped with its density
      matrix, summed from zero; `zip` stops at the shorter of the two. */
  function Descriptor(norm: real, rets: seq<seq<seq<seq<real>>>>, ellists: seq<seq<Element>>, n: nat): (r: seq<real>)
    requires FitsZip(rets, ellists, n, Min(|rets|, |ellists|))
    ensures |r| == n
  {
    AddPairs(Zeros(n), norm, rets, ellists, n, Min(|rets|, |ellists|))
  }

  function Zeros(n: nat): (r: seq<real>)
    ensures |r| == n && forall c :: 0 <= c < n ==> r[c] == 0.0
  {
    seq(n, _ => 0.0)
  }

  /** Configuration c's share of one list: the sum over its elements of
      norm * w * ret[c][i][j]. */
  function ListValue(norm: real, ellist: seq<Element>, ret: seq<seq<seq<real>>>, n: nat, c: nat): real
    requires Fits(ret, n, ellist) && c < n
  {
    Sum(Terms(norm, ellist, ret, n, c))
  }

  function Terms(norm: real, ellist: seq<Element>, ret: seq<seq<seq<real>>>, n: nat, c: nat): (r: seq<real>)
    requires Fits(ret, n, ellist) && c < n
    ensures |r| == |ellist|
  {
    seq(|ellist|, q requires 0 <= q < |ellist| => norm * ellist[q].w * ret[c][ellist[q].i][ellist[q].j])
  }

  /** Configuration c's share of each of the first m zipped pairs. */
  function ListValues(norm: real, rets: seq<seq<seq<seq<real>>>>, ellists: seq<seq<Element>>,
                      n: nat, m: nat, c: nat): (r: seq<real>)
    requires FitsZip(rets, ellists, n, m) && c < n
    ensures |r| == m
    ensures forall p :: 0 <= p < m ==> r[p] == ListValue(norm, ellists[p], rets[p], n, c)
  {
    seq(m, p requires 0 <= p < m => ListValue(norm, ellists[p], rets[p], n, c))
  }

  /** Adding a list element by element adds, per configuration, the sum of
      its terms; an empty list adds nothing. */
  lemma {:induction false} AddListPointwise(acc: seq<real>, norm: real, ellist: seq<Element>,
                                            ret: seq<seq<seq<real>>>, n: nat, c: nat)
    requires |acc| == n && Fits(ret, n, ellist) && c < n
    ensures AddList(acc, norm, ellist, ret, n)[c] == acc[c] + ListValue(norm, ellist, ret, n, c)
    decreases |ellist|
  {
    if |ellist| > 0 {
      var m := |ellist| - 1;
      AddListPointwise(acc, norm, ellist[..m], ret, n, c);
      var all, front := Terms(norm, ellist, ret, n, c), Terms(norm, ellist[..m], ret, n, c);
      forall q | 0 <= q < m
        ensures all[q] == front[q]
      {
        assert ellist[..m][q] == ellist[q];
      }
      assert all[..m] == front;
    }
  }

  /** Per configuration, a descriptor is the double sum over the zipped
      pairs and their elements of norm * w * value[c][i][j]. */
  lemma {:induction false} AddPairsPointwise(norm: real, rets: seq<seq<seq<seq<real>>>>, ellists: seq<seq<Element>>,
                                             n: nat, m: nat, c: nat)
    requires FitsZip(rets, ellists, n, m) && c < n
    ensures AddPairs(Zeros(n), norm, rets, ellists, n, m)[c] == Sum(ListValues(norm, rets, ellists, n, m, c))
    decreases m
  {
    if m > 0 {
      AddPairsPointwise(norm, rets, ellists, n, m - 1, c);
      AddListPointwise(AddPairs(Zeros(n), norm, rets, ellists, n, m - 1), norm, ellists[m - 1], rets[m - 1], n, c);
      assert ListValues(norm, rets, ellists, n, m, c)[..m - 1] == ListValues(norm, rets, ellists, n, m - 1, c);
    }
  }

  /** Only the first min(|rets|, |ellists|) pairs count: extra density
      matrices or extra lists are ignored. */
  lemma DescriptorTruncates(norm: real, rets: seq<seq<seq<seq<real>>>>, ellists: seq<seq<Element>>, n: nat, c: nat)
    requires FitsZip(rets, ellists, n, Min(|rets|, |ellists|)) && c < n
    ensures Descriptor(norm, rets, ellists, n)[c] == Sum(ListValues(norm, rets, ellists, n, Min(|rets|, |ellists|), c))
  {
    AddPairsPointwise(norm, rets, ellists, n, Min(|rets|, |ellists|), c);
  }

  /** Every list of every descriptor fits the density matrix it is zipped with. */
  predicate MappingFits(mapping: map<string, seq<seq<Element>>>, rets: seq<seq<seq<seq<real>>>>, n: nat) {
    forall k :: k in mapping ==> FitsZip(rets, mapping[k], n, Min(|rets|, |mapping[k]|))
  }

  class DescriptorFromObdm {
    const norm: real
    const mapping: map<string, seq<seq<Element>>>

    constructor (mapping: map<string, seq<seq<Element>>>, norm: real)
      ensures this.mapping == mapping && this.norm == norm
    {
      this.mapping := mapping;
      this.norm := norm;
    }

    /** `__call__`: one descriptor per key of the mapping, each a vector over
        the n = len(rets[0]["value"]) configurations. */
    method Call(rets: seq<seq<seq<seq<real>>>>) returns (avgvals: map<string, seq<real>>)
      requires |mapping| > 0 ==> |rets| > 0
      requires |rets| > 0 ==> MappingFits(mapping, rets, |rets[0]|)
      ensures avgvals.Keys == mapping.Keys
      ensures forall k :: k in mapping ==> avgvals[k] == Descriptor(norm, rets, mapping[k], |rets[0]|)
    {
      avgvals := map[];
      var remaining := mapping.Keys;
      while remaining != {}
        invariant remaining <= mapping.Keys
        invariant avgvals.Keys == mapping.Keys - remaining
        invariant forall k :: k in avgvals ==> avgvals[k] == Descriptor(norm, rets, mapping[k], |rets[0]|)
        decreases remaining
      {
        var k :| k in remaining;
        var totsum := ComputeDescriptor(norm, rets, mapping[k], |rets[0]|);
        avgvals := avgvals[k := totsum];
        remaining := remaining - {k};
      }
    }
  }

  /** The body of `__call__`'s loop for one descriptor: the sum over the
      zipped pairs, list by list. */
  method ComputeDescriptor(norm: real, rets: seq<seq<seq<seq<real>>>>, ellists: seq<seq<Element>>, n: nat)
    returns (totsum: seq<real>)
    requires FitsZip(rets, ellists, n, Min(|rets|, |ellists|))
    ensures totsum == Descriptor(norm, rets, ellists, n)
  {
    totsum := Zeros(n);
    var p := 0;
    while p < |rets| && p < |ellists|
      invariant 0 <= p <= Min(|rets|, |ellists|)
      invariant totsum == AddPairs(Zeros(n), norm, rets, ellists, n, p)
    {
      totsum := AddListTerms(totsum, norm, ellists[p], rets[p], n);
      p := p + 1;
    }
  }

  /** The inner loop: the terms of one list added one element at a time. */
  method AddListTerms(acc: seq<real>, norm: real, ellist: seq<Element>, ret: seq<seq<seq<real>>>, n: nat)
    returns (totsum: seq<real>)
    requires |acc| == n && Fits(ret, n, ellist)
    ensures totsum == AddList(acc, norm, ellist, ret, n)
  {
    totsum := acc;
    var q := 0;
    while q < |ellist|
      invariant 0 <= q <= |ellist|
      invariant totsum == AddList(acc, norm, ellist[..q], ret, n)
    {
      assert ellist[..q + 1][..q] == ellist[..q];
      totsum := Add(totsum, Term(norm, ellist[q], ret, n));
      q := q + 1;
    }
    assert ellist[..q] == ellist;
  }

  /** A cubic without constant term, a*r + b*r^2 + c*r^3. */
  datatype Cubic = Cubic(a: real, b: real, c: real)

  function CubicAt(p: Cubic, r: real): real {
    p.a * r + p.b * r * r + p.c * r * r * r
  }

  /** Its derivative a + 2b*r + 3c*r^2. */
  function CubicSlope(p: Cubic, r: real): real {
    p.a + 2.0 * p.b * r + 3.0 * p.c * r * r
  }

  /** The slope is the derivative: the increment over h is h times the
      slope plus terms of second and third order in h. */
  lemma CubicSlopeIsDerivative(p: Cubic, r: real, h: real)
    ensures CubicAt(p, r + h) == CubicAt(p, r) + h * CubicSlope(p, r) + h * h * (p.b + p.c * (3.0 * r + h))
  {
    assert (r + h) * (r + h) == r * r + 2.0 * r * h + h * h;
    assert (r + h) * (r + h) * (r + h) == r * r * r + 3.0 * r * r * h + 3.0 * r * h * h + h * h * h;
  }

  function Square(x: real): real {
    x * x
  }

  /** A nonzero cutoff has a positive square, so the coefficients are defined. */
  lemma SquarePositive(x: real)
    requires x != 0.0
    ensures Square(x) > 0.0
  {
    var y := if x < 0.0 then -x else x;
    ProductPositive(y, y);
    assert Square(x) == Times(y, y);
  }

  lemma ProductPositive(a: real, b: real)
    requires a > 0.0 && b > 0.0
    ensures Times(a, b) > 0.0
  {
  }

  /** The coefficients of `_node_regr`, 9/c^2, -15/c^4 and 7/c^6, computed
      as powers of the cutoff; a cutoff of 0 divides by zero. */
  function RegularizationCoefficients(cutoff: real): Cubic
    requires cutoff != 0.0
  {
    SquarePositive(cutoff);
    var c2 := Square(cutoff);
    Cubic(9.0 / c2, -15.0 / (c2 * c2), 7.0 / (c2 * c2 * c2))
  }

  /** The nodal regularisation polynomial f(r). */
  function Regularization(cutoff: real, r: real): real
    requires cutoff != 0.0
  {
    CubicAt(RegularizationCoefficients(cutoff), r)
  }

  /** The polynomial is 0 at the node (r = 0), and at the mask boundary
      r = cutoff^2 it is 1 with slope 0, so that it joins the value 1 used
      outside the mask smoothly. */
  lemma RegularizationBoundary(cutoff: real)
    requires cutoff != 0.0
    ensures Regularization(cutoff, 0.0) == 0.0
    ensures Regularization(cutoff, Square(cutoff)) == 1.0
    ensures CubicSlope(RegularizationCoefficients(cutoff), Square(cutoff)) == 0.0
  {
    SquarePositive(cutoff);
    var s := Square(cutoff);
    CubicAtBoundary(s, RegularizationCoefficients(cutoff));
  }

  lemma CubicAtBoundary(s: real, p: Cubic)
    requires s > 0.0 && p == Cubic(9.0 / s, -15.0 / (s * s), 7.0 / (s * s * s))
    ensures CubicAt(p, s) == 1.0 && CubicSlope(p, s) == 0.0
  {
    assert p.a * s == 9.0;
    assert p.b * s * s == -15.0;
    assert p.c * s * s * s == 7.0;
    assert 2.0 * p.b * s == -30.0 / s;
    assert 3.0 * p.c * s * s == 21.0 / s;
  }

  /** d2[c] of `_node_regr`: the squared gradients of the first m electrons
      summed per configuration (grads[e][c] is electron e's gradient in
      configuration c). */
  function SquaredGradients(grads: seq<seq<Vec3>>, nconf: nat, m: nat): (d2: seq<real>)
    requires m <= |grads| && forall e :: 0 <= e < |grads| ==> |grads[e]| == nconf
    ensures |d2| == nconf
  {
    seq(nconf, c requires 0 <= c < nconf =>
      Sum(seq(m, e requires 0 <= e < m => SquaredNorm(grads[e][c]))))
  }

  /** mask[c] of `_node_regr`: r = 1 / d2 is below cutoff^2. Where d2 is 0,
      numpy makes r infinite and the comparison false. */
  predicate NearNode(d2: real, cutoff: real) {
    d2 > 0.0 && 1.0 / d2 < Square(cutoff)
  }

  /** The mask of `_node_regr`: the configurations within the cutoff of a node. */
  function NodeMask(grads: seq<seq<Vec3>>, nconf: nat, cutoff: real): (mask: seq<bool>)
    requires forall e :: 0 <= e < |grads| ==> |grads[e]| == nconf
    ensures |mask| == nconf
  {
    var d2 := SquaredGradients(grads, nconf, |grads|);
    seq(nconf, c requires 0 <= c < nconf => NearNode(d2[c], cutoff))
  }

  /** The regularisation factor of `_node_regr`: the polynomial at r = 1 / d2
      inside the mask, 1 outside. */
  function NodeWeights(grads: seq<seq<Vec3>>, nconf: nat, cutoff: real): (f: seq<real>)
    requires forall e :: 0 <= e < |grads| ==> |grads[e]| == nconf
    requires cutoff != 0.0
    ensures |f| == nconf
  {
    var d2 := SquaredGradients(grads, nconf, |grads|);
    seq(nconf, c requires 0 <= c < nconf =>
      if NearNode(d2[c], cutoff) then Regularization(cutoff, 1.0 / d2[c]) else 1.0)
  }

  /** The factor is 1 outside the mask and, inside it, the polynomial at a
      point strictly between the node and the mask boundary. */
  lemma NodeWeightsRange(grads: seq<seq<Vec3>>, nconf: nat, cutoff: real, c: nat)
    requires forall e :: 0 <= e < |grads| ==> |grads[e]| == nconf
    requires cutoff != 0.0 && c < nconf
    ensures !NodeMask(grads, nconf, cutoff)[c] ==> NodeWeights(grads, nconf, cutoff)[c] == 1.0
    ensures NodeMask(grads, nconf, cutoff)[c] ==>
      exists r :: 0.0 < r < Square(cutoff) && NodeWeights(grads, nconf, cutoff)[c] == Regularization(cutoff, r)
  {
    var d2 := SquaredGradients(grads, nconf, |grads|)[c];
    if NearNode(d2, cutoff) {
      var r := 1.0 / d2;
      assert 0.0 < r < Square(cutoff);
      assert NodeWeights(grads, nconf, cutoff)[c] == Regularization(cutoff, r);
    }
  }

  /** The "avg" statistics, keyed as in the returned dictionary. */
  datatype Stat = Scalar(x: real) | Vector(v: seq<real>) | Matrix(m: seq<seq<real>>)

  /** Every row of a per-configuration matrix has np entries. */
  predicate Rows(dp: seq<seq<real>>, np: nat) {
    forall i :: 0 <= i < |dp| ==> |dp[i]| == np
  }

  /** einsum("i,ij->j", energy, dp * f) / nconf. */
  function EnergyDerivative(energy: seq<real>, dp: seq<seq<real>>, f: seq<real>, np: nat): (r: seq<real>)
    requires |energy| == |dp| == |f| > 0 && Rows(dp, np)
    ensures |r| == np
  {
    seq(np, j requires 0 <= j < np =>
      Sum(seq(|dp|, i requires 0 <= i < |dp| => energy[i] * (dp[i][j] * f[i]))) / (|dp| as real))
  }

  /** mean(dp, axis=0). */
  function MeanRows(dp: seq<seq<real>>, np: nat): (r: seq<real>)
    requires |dp| > 0 && Rows(dp, np)
    ensures |r| == np
  {
    seq(np, j requires 0 <= j < np => Mean(seq(|dp|, i requires 0 <= i < |dp| => dp[i][j])))
  }

  /** einsum("ij,ik->jk", dp, dp * f) / nconf. */
  function DerivativeProducts(dp: seq<seq<real>>, f: seq<real>, np: nat): (r: seq<seq<real>>)
    requires |dp| == |f| > 0 && Rows(dp, np)
    ensures |r| == np && forall j :: 0 <= j < np ==> |r[j]| == np
  {
    seq(np, j requires 0 <= j < np => seq(np, k requires 0 <= k < np =>
      Sum(seq(|dp|, i requires 0 <= i < |dp| => dp[i][j] * (dp[i][k] * f[i]))) / (|dp| as real)))
  }

  /** einsum("ij,i->j", dp * f, desc) / nconf. */
  function DescriptorDerivative(dp: seq<seq<real>>, f: seq<real>, desc: seq<real>, np: nat): (r: seq<real>)
    requires |dp| == |f| == |desc| > 0 && Rows(dp, np)
    ensures |r| == np
  {
    seq(np, j requires 0 <= j < np =>
      Sum(seq(|dp|, i requires 0 <= i < |dp| => dp[i][j] * f[i] * desc[i])) / (|dp| as real))
  }

  /** The names prefix + k for the names k of ks. */
  function Prefixed(prefix: string, ks: set<string>): (r: set<string>)
    ensures forall k :: k in ks ==> prefix + k in r
    ensures forall key :: key in r ==> |key| >= |prefix| && key[..|prefix|] == prefix && key[|prefix|..] in ks
  {
    set k | k in ks :: prefix + k
  }

  /** d["dp" + di]: einsum("ij,i->j", dp * f, desc) / nconf. */
  function DpStat(dp: seq<seq<real>>, f: seq<real>, desc: seq<real>, np: nat): Stat
    requires |dp| == |f| == |desc| > 0 && Rows(dp, np)
  {
    Vector(DescriptorDerivative(dp, f, desc, np))
  }

  /** d["avg" + di]: sum(desc) / nconf. */
  function AvgStat(dp: seq<seq<real>>, desc: seq<real>): Stat
    requires |dp| > 0
  {
    Scalar(Sum(desc) / (|dp| as real))
  }

  /** What `avg` reports for the descriptors: "dp" + name and "avg" + name
      for every name. */
  function DescriptorStats(dp: seq<seq<real>>, f: seq<real>, descript: map<string, seq<real>>, np: nat)
    : (r: map<string, Stat>)
    requires |dp| == |f| > 0 && Rows(dp, np)
    requires forall di :: di in descript ==> |descript[di]| == |dp|
    ensures r.Keys == Prefixed("dp", descript.Keys) + Prefixed("avg", descript.Keys)
  {
    map key | key in Prefixed("dp", descript.Keys) + Prefixed("avg", descript.Keys) ::
      if key in Prefixed("dp", descript.Keys) then DpStat(dp, f, descript[key[2..]], np)
      else AvgStat(dp, descript[key[3..]])
  }

  /** A name of the form prefix + k determines k. */
  lemma PrefixedStem(prefix: string, ks: set<string>, key: string)
    requires key in Prefixed(prefix, ks)
    ensures key == prefix + key[|prefix|..] && key[|prefix|..] in ks
  {
    assert key == key[..|prefix|] + key[|prefix|..];
  }

  /** No "dp" name is an "avg" name. */
  lemma PrefixesDiffer(a: string, b: string)
    ensures "dp" + a != "avg" + b
  {
    assert ("dp" + a)[0] == 'd' && ("avg" + b)[0] == 'a';
  }

  lemma PrefixInjective(prefix: string, a: string, b: string)
    requires prefix + a == prefix + b
    ensures a == b
  {
    assert a == (prefix + a)[|prefix|..];
    assert b == (prefix + b)[|prefix|..];
  }

  class PGradDescriptor {
    const nodalCutoff: real

    constructor (nodalCutoff: real)
      ensures this.nodalCutoff == nodalCutoff
    {
      this.nodalCutoff := nodalCutoff;
    }

    /** `_node_regr`: sum the squared gradients electron by electron, mark
        the configurations within the cutoff of a node and give them the
        regularisation polynomial, 1 elsewhere. With no electrons d2 stays
        the Python float 0.0 and 1.0 / d2 raises; so does a cutoff of 0. */
    method NodeRegr(grads: seq<seq<Vec3>>, nconf: nat) returns (r: Result<(seq<bool>, seq<real>)>)
      requires forall e :: 0 <= e < |grads| ==> |grads[e]| == nconf
      ensures r.Err? <==> |grads| == 0 || nodalCutoff == 0.0
      ensures r.Err? ==> r.error == ZeroDivision
      ensures r.Ok? ==> r.value == (NodeMask(grads, nconf, nodalCutoff), NodeWeights(grads, nconf, nodalCutoff))
    {
      if |grads| == 0 {
        return Err(ZeroDivision);
      }
      var d2 := Zeros(nconf);
      var e := 0;
      while e < |grads|
        invariant 0 <= e <= |grads|
        invariant d2 == SquaredGradients(grads, nconf, e)
      {
        var g := grads[e];
        forall c | 0 <= c < nconf
          ensures SquaredGradients(grads, nconf, e + 1)[c] == d2[c] + SquaredNorm(g[c])
        {
          var terms := seq(e + 1, k requires 0 <= k < e + 1 => SquaredNorm(grads[k][c]));
          assert terms[..e] == seq(e, k requires 0 <= k < e => SquaredNorm(grads[k][c]));
        }
        d2 := seq(nconf, c requires 0 <= c < nconf => d2[c] + SquaredNorm(g[c]));
        e := e + 1;
      }
      var mask := seq(nconf, c requires 0 <= c < nconf => NearNode(d2[c], nodalCutoff));
      if nodalCutoff == 0.0 {
        return Err(ZeroDivision);
      }
      var f := seq(nconf, c requires 0 <= c < nconf =>
                     if mask[c] then Regularization(nodalCutoff, 1.0 / d2[c]) else 1.0);
      assert mask == NodeMask(grads, nconf, nodalCutoff);
      assert f == NodeWeights(grads, nconf, nodalCutoff);
      r := Ok((mask, f));
    }

    /** `__call__` computes the regularised derivative products and then
        always raises. */
    method Call() returns (r: Result<map<string, Stat>>)
      ensures r == Err(NotImplemented("define __call__ for PGradOBDMTransform"))
    {
      r := Err(NotImplemented("define __call__ for PGradOBDMTransform"));
    }

    /** `avg`: the means of the energy accumulator's entries, the
        regularised parameter-derivative averages, the per-descriptor
        derivative and mean, and the number of configurations near a node,
        written into one dictionary in that order (a later entry replaces an
        earlier one of the same name). `den` holds the energy accumulator's
        per-configuration values, whose "total" is the energy (KeyError when
        it is missing, before anything else is computed); `dp` the
        serialized parameter derivatives; `descript` the descriptors. */
    method Avg(den: map<string, seq<real>>, dp: seq<seq<real>>, np: nat,
               descript: map<string, seq<real>>, grads: seq<seq<Vec3>>)
      returns (r: Result<map<string, Stat>>)
      requires |dp| > 0 && Rows(dp, np)
      requires forall k :: k in den ==> |den[k]| == |dp|
      requires forall di :: di in descript ==> |descript[di]| == |dp|
      requires forall e :: 0 <= e < |grads| ==> |grads[e]| == |dp|
      ensures "total" !in den ==> r == Err(KeyError("total"))
      ensures r.Err? <==> "total" !in den || |grads| == 0 || nodalCutoff == 0.0
      ensures r.Ok? ==> "total" in den &&
                        r.value == AvgStats(den, den["total"], dp, np, descript, NodeMask(grads, |dp|, nodalCutoff),
                                            NodeWeights(grads, |dp|, nodalCutoff))
    {
      hide EnergyDerivative, MeanRows, DerivativeProducts, DescriptorStats, NodeMask, NodeWeights, Mean, MeanMap;
      if "total" !in den {
        return Err(KeyError("total"));
      }
      var energy := den["total"];
      var regr := NodeRegr(grads, |dp|);
      if regr.Err? {
        return Err(regr.error);
      }
      var mask, f := regr.value.0, regr.value.1;
      var d := MeanEntries(den);
      d := d["dpH" := Vector(EnergyDerivative(energy, dp, f, np))];
      d := d["dppsi" := Vector(MeanRows(dp, np))];
      d := d["dpidpj" := Matrix(DerivativeProducts(dp, f, np))];
      assert d == BaseStats(den, energy, dp, np, f);
      d := AddDescriptorStats(d, dp, f, descript, np);
      d := d["nodal_cutoff" := Scalar(Count(mask) as real)];
      r := Ok(d);
    }
  }

  /** `d[k] = np.mean(it, axis=0)` for every entry of the energy accumulator. */
  method MeanEntries(den: map<string, seq<real>>) returns (d: map<string, Stat>)
    requires forall k :: k in den ==> |den[k]| > 0
    ensures d == MeanMap(den)
  {
    d := map[];
    var keys := den.Keys;
    while keys != {}
      invariant keys <= den.Keys
      invariant d.Keys == den.Keys - keys
      invariant forall k :: k in d ==> d[k] == Scalar(Mean(den[k]))
      decreases keys
    {
      var k :| k in keys;
      d := d[k := Scalar(Mean(den[k]))];
      keys := keys - {k};
    }
  }

  /** The loop over the descriptors: for each, write "dp" + name and then
      "avg" + name into d. */
  method AddDescriptorStats(d0: map<string, Stat>, dp: seq<seq<real>>, f: seq<real>,
                            descript: map<string, seq<real>>, np: nat) returns (d: map<string, Stat>)
    requires |dp| == |f| > 0 && Rows(dp, np)
    requires forall di :: di in descript ==> |descript[di]| == |dp|
    ensures d == d0 + DescriptorStats(dp, f, descript, np)
  {
    hide DescriptorStats, DpStat, AvgStat;
    d := d0;
    var names := descript.Keys;
    ghost var done := descript - descript.Keys;
    DescriptorStatsEmpty(dp, f, done, np);
    while names != {}
      invariant names <= descript.Keys
      invariant done.Keys == descript.Keys - names
      invariant forall di :: di in done ==> done[di] == descript[di]
      invariant d == d0 + DescriptorStats(dp, f, done, np)
      decreases names
    {
      var di :| di in names;
      var dpEntry, avgEntry := DpStat(dp, f, descript[di], np), AvgStat(dp, descript[di]);
      AddDescriptorStep(d0, dp, f, done, di, descript[di], np, d);
      d := d["dp" + di := dpEntry];
      d := d["avg" + di := avgEntry];
      done := done[di := descript[di]];
      names := names - {di};
    }
    assert done == descript;
  }

  /** One pass of the descriptor loop keeps d equal to d0 and the entries of
      the descriptors written so far. */
  lemma AddDescriptorStep(d0: map<string, Stat>, dp: seq<seq<real>>, f: seq<real>, done: map<string, seq<real>>,
                          di: string, desc: seq<real>, np: nat, d: map<string, Stat>)
    requires |dp| == |f| > 0 && Rows(dp, np) && |desc| == |dp| && di !in done
    requires forall dj :: dj in done ==> |done[dj]| == |dp|
    requires d == d0 + DescriptorStats(dp, f, done, np)
    ensures d["dp" + di := DpStat(dp, f, desc, np)]["avg" + di := AvgStat(dp, desc)] ==
            d0 + DescriptorStats(dp, f, done[di := desc], np)
  {
    hide DescriptorStats, DpStat, AvgStat;
    var stats := DescriptorStats(dp, f, done, np);
    DescriptorStatsInsert(dp, f, done, di, desc, np);
    UnionUpdate(d0, stats, "dp" + di, DpStat(dp, f, desc, np));
    UnionUpdate(d0, stats["dp" + di := DpStat(dp, f, desc, np)], "avg" + di, AvgStat(dp, desc));
  }

  /** Writing into the right operand of a union is writing into the union. */
  lemma UnionUpdate<K, V>(m: map<K, V>, n: map<K, V>, k: K, v: V)
    ensures m + n[k := v] == (m + n)[k := v]
  {
  }

  lemma DescriptorStatsEmpty(dp: seq<seq<real>>, f: seq<real>, none: map<string, seq<real>>, np: nat)
    requires |dp| == |f| > 0 && Rows(dp, np) && none.Keys == {}
    ensures DescriptorStats(dp, f, none, np) == map[]
  {
    assert Prefixed("dp", none.Keys) == {} && Prefixed("avg", none.Keys) == {};
  }

  /** Adding one descriptor adds exactly its two entries: no "dp" name is
      an "avg" name, and distinct descriptors have distinct names. */
  lemma DescriptorStatsInsert(dp: seq<seq<real>>, f: seq<real>, done: map<string, seq<real>>,
                              di: string, desc: seq<real>, np: nat)
    requires |dp| == |f| > 0 && Rows(dp, np) && |desc| == |dp| && di !in done
    requires forall dj :: dj in done ==> |done[dj]| == |dp|
    ensures DescriptorStats(dp, f, done[di := desc], np) ==
            DescriptorStats(dp, f, done, np)["dp" + di := DpStat(dp, f, desc, np)]["avg" + di := AvgStat(dp, desc)]
  {
    hide DescriptorStats, DpStat, AvgStat, Prefixed;
    var done' := done[di := desc];
    var old_ := DescriptorStats(dp, f, done, np);
    var lhs := DescriptorStats(dp, f, done', np);
    var rhs := old_["dp" + di := DpStat(dp, f, desc, np)]["avg" + di := AvgStat(dp, desc)];
    PrefixedInsert("dp", done.Keys, di);
    PrefixedInsert("avg", done.Keys, di);
    assert done'.Keys == done.Keys + {di};
    assert lhs.Keys == rhs.Keys;
    forall key | key in lhs
      ensures lhs[key] == rhs[key]
    {
      DescriptorStatsInsertAt(dp, f, done, di, desc, np, key);
    }
  }

  lemma PrefixedInsert(prefix: string, ks: set<string>, k: string)
    ensures Prefixed(prefix, ks + {k}) == Prefixed(prefix, ks) + {prefix + k}
  {
    forall key | key in Prefixed(prefix, ks + {k})
      ensures key in Prefixed(prefix, ks) + {prefix + k}
    {
      PrefixedStem(prefix, ks + {k}, key);
    }
  }

  /** One entry of DescriptorStatsInsert. */
  lemma DescriptorStatsInsertAt(dp: seq<seq<real>>, f: seq<real>, done: map<string, seq<real>>,
                                di: string, desc: seq<real>, np: nat, key: string)
    requires |dp| == |f| > 0 && Rows(dp, np) && |desc| == |dp| && di !in done
    requires forall dj :: dj in done ==> |done[dj]| == |dp|
    requires key in DescriptorStats(dp, f, done[di := desc], np)
    ensures var rhs := DescriptorStats(dp, f, done, np)["dp" + di := DpStat(dp, f, desc, np)]
                                                         ["avg" + di := AvgStat(dp, desc)];
      key in rhs && DescriptorStats(dp, f, done[di := desc], np)[key] == rhs[key]
  {
    hide DescriptorStats, DpStat, AvgStat, Prefixed;
    var done' := done[di := desc];
    var old_ := DescriptorStats(dp, f, done, np);
    var lhs := DescriptorStats(dp, f, done', np);
    var rhs := old_["dp" + di := DpStat(dp, f, desc, np)]["avg" + di := AvgStat(dp, desc)];
    PrefixesDiffer(di, di);
    var dpKey := key in Prefixed("dp", done'.Keys);
    var prefix := if dpKey then "dp" else "avg";
    PrefixedStem(prefix, done'.Keys, key);
    var k := key[|prefix|..];
    DescriptorEntries(dp, f, done', np, k);
    if k != di {
      DescriptorEntries(dp, f, done, np, k);
      if dpKey {
        assert key != "dp" + di by { if key == "dp" + di { PrefixInjective("dp", k, di); } }
        PrefixesDiffer(k, di);
      } else {
        assert key != "avg" + di by { if key == "avg" + di { PrefixInjective("avg", k, di); } }
        PrefixesDiffer(di, k);
      }
    }
  }

  /** The two entries of one descriptor, as DpStat and AvgStat. */
  lemma DescriptorEntries(dp: seq<seq<real>>, f: seq<real>, descript: map<string, seq<real>>, np: nat, k: string)
    requires |dp| == |f| > 0 && Rows(dp, np)
    requires forall di :: di in descript ==> |descript[di]| == |dp|
    requires k in descript
    ensures var r := DescriptorStats(dp, f, descript, np);
      "dp" + k in r && r["dp" + k] == DpStat(dp, f, descript[k], np) &&
      "avg" + k in r && r["avg" + k] == AvgStat(dp, descript[k])
  {
    hide DpStat, AvgStat;
    var dpName, avgName := "dp" + k, "avg" + k;
    assert dpName in Prefixed("dp", descript.Keys) && avgName in Prefixed("avg", descript.Keys);
    assert dpName[2..] == k && avgName[3..] == k;
    assert avgName !in Prefixed("dp", descript.Keys) by {
      if avgName in Prefixed("dp", descript.Keys) {
        PrefixedStem("dp", descript.Keys, avgName);
        PrefixesDiffer(avgName[2..], k);
      }
    }
  }

  /** The dictionary `avg` returns, given the mask and regularisation of
      `_node_regr`. */
  function AvgStats(den: map<string, seq<real>>, energy: seq<real>, dp: seq<seq<real>>, np: nat,
                    descript: map<string, seq<real>>, mask: seq<bool>, f: seq<real>): map<string, Stat>
    requires |dp| > 0 && |energy| == |dp| == |f| && Rows(dp, np)
    requires forall k :: k in den ==> |den[k]| == |dp|
    requires forall di :: di in descript ==> |descript[di]| == |dp|
  {
    (BaseStats(den, energy, dp, np, f) + DescriptorStats(dp, f, descript, np))
      ["nodal_cutoff" := Scalar(Count(mask) as real)]
  }

  /** The energy means followed by the three derivative averages. */
  function BaseStats(den: map<string, seq<real>>, energy: seq<real>, dp: seq<seq<real>>, np: nat, f: seq<real>)
    : (r: map<string, Stat>)
    requires |dp| > 0 && |energy| == |dp| == |f| && Rows(dp, np)
    requires forall k :: k in den ==> |den[k]| == |dp|
    ensures r.Keys == den.Keys + {"dpH", "dppsi", "dpidpj"}
  {
    MeanMap(den)
      ["dpH" := Vector(EnergyDerivative(energy, dp, f, np))]
      ["dppsi" := Vector(MeanRows(dp, np))]
      ["dpidpj" := Matrix(DerivativeProducts(dp, f, np))]
  }

  /** np.mean of every entry. */
  function MeanMap(den: map<string, seq<real>>): (r: map<string, Stat>)
    requires forall k :: k in den ==> |den[k]| > 0
    ensures r.Keys == den.Keys
    ensures forall k :: k in den ==> r[k] == Scalar(Mean(den[k]))
  {
    map k | k in den :: Scalar(Mean(den[k]))
  }

  /** Every descriptor contributes its two entries, the "avg" one being the
      descriptor's mean over the configurations. */
  lemma DescriptorStatsAt(dp: seq<seq<real>>, f: seq<real>, descript: map<string, seq<real>>, np: nat, di: string)
    requires |dp| == |f| > 0 && Rows(dp, np)
    requires forall dj :: dj in descript ==> |descript[dj]| == |dp|
    requires di in descript
    ensures "dp" + di in DescriptorStats(dp, f, descript, np)
    ensures DescriptorStats(dp, f, descript, np)["dp" + di] == Vector(DescriptorDerivative(dp, f, descript[di], np))
    ensures "avg" + di in DescriptorStats(dp, f, descript, np)
    ensures DescriptorStats(dp, f, descript, np)["avg" + di] == Scalar(Mean(descript[di]))
  {
    var dpKey, avgKey := "dp" + di, "avg" + di;
    assert dpKey in Prefixed("dp", descript.Keys) && dpKey[2..] == di;
    assert avgKey in Prefixed("avg", descript.Keys) && avgKey[3..] == di;
    PrefixesDiffer(di, di);
    assert avgKey !in Prefixed("dp", descript.Keys) by {
      if avgKey in Prefixed("dp", descript.Keys) {
        PrefixedStem("dp", descript.Keys, avgKey);
        PrefixesDiffer(avgKey[2..], di);
      }
    }
  }

  /** The names in the dictionary `avg` returns: the energy entries, the
      three derivative averages, "nodal_cutoff" and the two names of every
      descriptor, and no others. */
  lemma AvgStatsKeys(den: map<string, seq<real>>, energy: seq<real>, dp: seq<seq<real>>, np: nat,
                     descript: map<string, seq<real>>, mask: seq<bool>, f: seq<real>)
    requires |dp| > 0 && |energy| == |dp| == |f| && Rows(dp, np)
    requires forall k :: k in den ==> |den[k]| == |dp|
    requires forall di :: di in descript ==> |descript[di]| == |dp|
    ensures AvgStats(den, energy, dp, np, descript, mask, f).Keys ==
            den.Keys + {"dpH", "dppsi", "dpidpj", "nodal_cutoff"} +
            Prefixed("dp", descript.Keys) + Prefixed("avg", descript.Keys)
  {
    hide BaseStats, DescriptorStats, Count, Prefixed;
    var base := BaseStats(den, energy, dp, np, f);
    var stats := DescriptorStats(dp, f, descript, np);
    assert (base + stats).Keys == base.Keys + stats.Keys;
  }

  /** "nodal_cutoff" counts the configurations near a node, and every
      descriptor's "dp" and "avg" entries are its derivative average and its
      mean: nothing written later replaces them. */
  lemma AvgStatsDescriptors(den: map<string, seq<real>>, energy: seq<real>, dp: seq<seq<real>>, np: nat,
                            descript: map<string, seq<real>>, mask: seq<bool>, f: seq<real>)
    requires |dp| > 0 && |energy| == |dp| == |f| && Rows(dp, np)
    requires forall k :: k in den ==> |den[k]| == |dp|
    requires forall di :: di in descript ==> |descript[di]| == |dp|
    ensures AvgStats(den, energy, dp, np, descript, mask, f)["nodal_cutoff"] == Scalar(Count(mask) as real)
    ensures forall di :: di in descript ==>
      AvgStats(den, energy, dp, np, descript, mask, f)["dp" + di] ==
        Vector(DescriptorDerivative(dp, f, descript[di], np)) &&
      AvgStats(den, energy, dp, np, descript, mask, f)["avg" + di] == Scalar(Mean(descript[di]))
  {
    hide BaseStats, DescriptorStats, DescriptorDerivative, Mean, Count, DpStat, AvgStat, Prefixed;
    forall di | di in descript
      ensures AvgStats(den, energy, dp, np, descript, mask, f)["dp" + di] ==
                Vector(DescriptorDerivative(dp, f, descript[di], np))
      ensures AvgStats(den, energy, dp, np, descript, mask, f)["avg" + di] == Scalar(Mean(descript[di]))
    {
      DescriptorStatsAt(dp, f, descript, np, di);
      assert ("dp" + di)[0] == 'd' && ("avg" + di)[0] == 'a';
    }
  }

  /** The energy entries are their means and "dpH" the regularised energy
      derivative average, unless a later write of the same name replaced
      them; a descriptor named "H" does replace "dpH". */
  lemma AvgStatsEnergy(den: map<string, seq<real>>, energy: seq<real>, dp: seq<seq<real>>, np: nat,
                       descript: map<string, seq<real>>, mask: seq<bool>, f: seq<real>)
    requires |dp| > 0 && |energy| == |dp| == |f| && Rows(dp, np)
    requires forall k :: k in den ==> |den[k]| == |dp|
    requires forall di :: di in descript ==> |descript[di]| == |dp|
    ensures "H" !in descript ==>
      AvgStats(den, energy, dp, np, descript, mask, f)["dpH"] == Vector(EnergyDerivative(energy, dp, f, np))
    ensures forall k :: k in den && k !in {"dpH", "dppsi", "dpidpj", "nodal_cutoff"} &&
                        k !in Prefixed("dp", descript.Keys) && k !in Prefixed("avg", descript.Keys) ==>
      AvgStats(den, energy, dp, np, descript, mask, f)[k] == Scalar(Mean(den[k]))
  {
    hide EnergyDerivative, MeanRows, DerivativeProducts, DescriptorDerivative, Mean, Count, DpStat, AvgStat, Prefixed,
      DescriptorStats;
    var base := BaseStats(den, energy, dp, np, f);
    var stats := DescriptorStats(dp, f, descript, np);
    if "H" !in descript {
      assert "dpH" !in Prefixed("dp", descript.Keys) by {
        if "dpH" in Prefixed("dp", descript.Keys) {
          PrefixedStem("dp", descript.Keys, "dpH");
        }
      }
      assert "dpH" !in Prefixed("avg", descript.Keys) by {
        if "dpH" in Prefixed("avg", descript.Keys) {
          PrefixedStem("avg", descript.Keys, "dpH");
          PrefixesDiffer("H", "dpH"[3..]);
        }
      }
      assert base["dpH"] == Vector(EnergyDerivative(energy, dp, f, np));
    }
    forall k | k in den && k !in {"dpH", "dppsi", "dpidpj", "nodal_cutoff"} &&
               k !in Prefixed("dp", descript.Keys) && k !in Prefixed("avg", descript.Keys)
      ensures AvgStats(den, energy, dp, np, descript, mask, f)[k] == Scalar(Mean(den[k]))
    {
      assert k !in stats;
      assert base[k] == MeanMap(den)[k];
    }
  }
}
