/** The `JAXJastrowSpin` object of `pyqmc/jax/jastrowspin.py`: default
    parameter construction, the per-configuration values it caches between
    calls, the test value of a one-electron move and the removal of the
    moved electron before the derivatives are taken.

    The derivatives themselves come from automatic differentiation
    (`jax.grad`, `jax.hessian` of the partial sums); their values are
    arguments here, and the object combines and stores them as the source
    does. */
module JastrowSpin {
  import opened Wrappers
  import opened Analytic
  import opened RealSeq
  import opened JastrowBasis
  import opened ParameterMaps
  import opened Jastrow

  /** The `ion_cusp` argument: False, True, None (the default) or an explicit
      list of species. */
  datatype IonCusp = NoCusp | EveryCusp | DefaultCusp | CuspList(species: seq<string>)

  /** The species of `keys` that have no effective core potential, in order. */
  function WithoutEcp(keys: seq<string>, ecpKeys: seq<string>): (r: seq<string>)
    ensures |r| <= |keys|
    ensures forall l :: l in r <==> l in keys && l !in ecpKeys
  {
    if |keys| == 0 then []
    else
      var rest := WithoutEcp(keys[..|keys| - 1], ecpKeys);
      var last := keys[|keys| - 1];
      assert keys == keys[..|keys| - 1] + [last];
      if last in ecpKeys then rest else rest + [last]
  }

  /** The species that receive a nuclear cusp: none for False, every species
      of the basis for True, those without a core potential for None, and the
      given list otherwise. */
  function ResolveIonCusp(ic: IonCusp, basisKeys: seq<string>, ecpKeys: seq<string>): (r: seq<string>)
    ensures ic.NoCusp? ==> r == []
    ensures ic.EveryCusp? ==> r == basisKeys
    ensures ic.DefaultCusp? ==> forall l :: l in r <==> l in basisKeys && l !in ecpKeys
    ensures ic.CuspList? ==> r == ic.species
  {
    match ic
    case NoCusp => []
    case EveryCusp => basisKeys
    case DefaultCusp => WithoutEcp(basisKeys, ecpKeys)
    case CuspList(species) => species
  }

  /** The cutoff: the argument when given, otherwise the lattice's value for a
      periodic system (`latticeRcut`, computed from the reciprocal vectors
      outside this model) and 7.5 for a molecule. */
  function DefaultRcut(rcut: Option<real>, latticeRcut: Option<real>): (r: real)
    ensures rcut.Some? ==> r == rcut.value
    ensures rcut.None? && latticeRcut.None? ==> r == 7.5
    ensures rcut.None? && latticeRcut.Some? ==> r == latticeRcut.value
  {
    if rcut.Some? then rcut.value else if latticeRcut.Some? then latticeRcut.value else 7.5
  }

  /** The cusp gamma: the argument when given, otherwise 24. */
  function DefaultGamma(gamma: Option<real>): (r: real)
    ensures gamma.None? ==> r == 24.0
    ensures gamma.Some? ==> r == gamma.value
  {
    if gamma.Some? then gamma.value else 24.0
  }

  /** The nuclear cusp coefficient of one atom: its charge when its species
      receives a cusp, 0 otherwise. */
  function CuspCharge(symbol: string, charge: real, cusp: seq<string>): real {
    if symbol in cusp then charge else 0.0
  }

  /** The coefficients `_init_params` starts from: acoeff of shape
      (natm, na + 1, 2) and bcoeff of shape (nb + 1, 3), all zero except the
      cusp entries acoeff[I, 0, :] and bcoeff[0, :] = (-0.25, -0.5, -0.25). */
  ghost predicate DefaultCoefficients(co: Coefficients, symbols: seq<string>, charges: seq<real>,
                                      cusp: seq<string>, na: nat, nb: nat)
    requires |symbols| == |charges|
  {
    |co.acoeff| == |symbols| &&
    (forall i :: 0 <= i < |symbols| ==>
       |co.acoeff[i]| == na + 1 &&
       (forall k :: 0 <= k <= na ==> |co.acoeff[i][k]| == 2) &&
       (forall s :: 0 <= s < 2 ==> co.acoeff[i][0][s] == CuspCharge(symbols[i], charges[i], cusp)) &&
       (forall k, s :: 1 <= k <= na && 0 <= s < 2 ==> co.acoeff[i][k][s] == 0.0)) &&
    |co.bcoeff| == nb + 1 &&
    co.bcoeff[0] == [-0.25, -0.5, -0.25] &&
    (forall k :: 1 <= k <= nb ==> co.bcoeff[k] == [0.0, 0.0, 0.0])
  }

  function Zeros(n: nat): (r: seq<real>)
    ensures |r| == n && forall i :: 0 <= i < n ==> r[i] == 0.0
  {
    seq(n, _ => 0.0)
  }

  function ZeroGrid(m: nat, n: nat): (r: seq<seq<real>>)
    ensures |r| == m && forall i :: 0 <= i < m ==> r[i] == Zeros(n)
  {
    seq(m, _ => Zeros(n))
  }

  /** `_init_params`: resolve the defaults, then build the coefficient arrays
      from zeros, setting the nuclear cusps (charge where the species is in
      the cusp list, 0 elsewhere) and the electron-electron cusps. The betas
      are the expanded `beta0_a`, `beta0_b` series, one per basis function. */
  method InitParams(symbols: seq<string>, charges: seq<real>, ionCusp: IonCusp,
                    basisKeys: seq<string>, ecpKeys: seq<string>,
                    betaA: seq<real>, betaB: seq<real>,
                    rcut: Option<real>, gamma: Option<real>, latticeRcut: Option<real>)
    returns (bp: BasisParameters, co: Coefficients)
    requires |symbols| == |charges|
    ensures bp == BasisParameters(betaA, betaB, ResolveIonCusp(ionCusp, basisKeys, ecpKeys),
                                  DefaultRcut(rcut, latticeRcut), DefaultGamma(gamma))
    ensures DefaultCoefficients(co, symbols, charges, bp.ionCusp, |betaA|, |betaB|)
    ensures Shaped(bp, co)
  {
    var cusp := ResolveIonCusp(ionCusp, basisKeys, ecpKeys);
    bp := BasisParameters(betaA, betaB, cusp, DefaultRcut(rcut, latticeRcut), DefaultGamma(gamma));
    var na := |betaA|;
    var acoeff := seq(|symbols|, _ => ZeroGrid(na + 1, 2));
    var bcoeff := ZeroGrid(|betaB| + 1, 3);
    if |cusp| > 0 {
      // coefs[mask] = 0 for the atoms whose species has no cusp
      var coefs := charges;
      var i := 0;
      while i < |symbols|
        invariant 0 <= i <= |symbols| && |coefs| == |charges|
        invariant forall j :: 0 <= j < i ==> coefs[j] == CuspCharge(symbols[j], charges[j], cusp)
        invariant forall j :: i <= j < |coefs| ==> coefs[j] == charges[j]
      {
        if symbols[i] !in cusp {
          coefs := coefs[i := 0.0];
        }
        i := i + 1;
      }
      // acoeff[:, 0, :] = coefs[:, None]
      i := 0;
      while i < |symbols|
        invariant 0 <= i <= |symbols| && |acoeff| == |symbols|
        invariant forall j :: 0 <= j < |symbols| ==> |acoeff[j]| == na + 1
        invariant forall j :: 0 <= j < i ==> acoeff[j] == ZeroGrid(na + 1, 2)[0 := [coefs[j], coefs[j]]]
        invariant forall j :: i <= j < |symbols| ==> acoeff[j] == ZeroGrid(na + 1, 2)
      {
        acoeff := acoeff[i := acoeff[i][0 := [coefs[i], coefs[i]]]];
        i := i + 1;
      }
    }
    bcoeff := bcoeff[0 := [-0.25, -0.5, -0.25]];
    co := Coefficients(acoeff, bcoeff);
  }

  /** With the default coefficients the cusp terms meet Kato's cusp
      conditions at coalescence: the one-body term of an atom with a cusp
      falls with slope -Z in the distance to its nucleus, and the two-body
      term rises with slope 1/4 for parallel and 1/2 for antiparallel spins
      (the Pade terms being flat there). */
  lemma DefaultCuspsMeetKato(bp: BasisParameters, co: Coefficients, symbols: seq<string>,
                             charges: seq<real>, atom: nat, spin: nat, beta: real)
    requires |symbols| == |charges| && ValidBasis(bp) && beta > -1.0
    requires DefaultCoefficients(co, symbols, charges, bp.ionCusp, |bp.betaA|, |bp.betaB|)
    requires atom < |symbols| && symbols[atom] in bp.ionCusp && spin < 2
    ensures co.acoeff[atom][0][spin] * CutoffcuspGrad(0.0, bp.gamma, bp.rcut) == -charges[atom]
    ensures co.bcoeff[0][0] * CutoffcuspGrad(0.0, bp.gamma, bp.rcut) == 0.25
    ensures co.bcoeff[0][1] * CutoffcuspGrad(0.0, bp.gamma, bp.rcut) == 0.5
    ensures co.bcoeff[0][2] * CutoffcuspGrad(0.0, bp.gamma, bp.rcut) == 0.25
    ensures PolypadeGrad(0.0, beta, bp.rcut) == 0.0
  {
    GradsAtOrigin(beta, bp.gamma, bp.rcut);
  }

  /** The electron configuration split by `_split_configs`. */
  datatype Split<T> = Split(up: seq<T>, down: seq<T>, spin: nat, epos: T)

  /** `_split_configs` for one configuration: remove electron e with the mask
      `arange(nelec) != e`, then cut what is left after the first
      nUp - (1 - spin) electrons. */
  function SplitConfig<T>(xs: seq<T>, e: nat, nUp: nat): (r: Split<T>)
    requires e < |xs| && nUp <= |xs|
    ensures r.spin == SpinOf(e, nUp) && r.epos == xs[e]
    ensures r.up + r.down == xs[..e] + xs[e + 1..]
    ensures |r.up| == nUp - (1 - r.spin) && |r.down| == |xs| - nUp - r.spin
    ensures |r.up| + |r.down| == |xs| - 1
    ensures r.spin == 0 ==> r.up == xs[..e] + xs[e + 1..nUp] && r.down == xs[nUp..]
    ensures r.spin == 1 ==> r.up == xs[..nUp] && r.down == xs[nUp..e] + xs[e + 1..]
  {
    var spin := SpinOf(e, nUp);
    var mask := seq(|xs|, i => i != e);
    SelectAllBut(xs, mask, e);
    var rest := Select(xs, mask);
    var n := nUp - (1 - spin);
    assert spin == 0 ==> rest[..n] == xs[..e] + xs[e + 1..nUp] && rest[n..] == xs[nUp..];
    assert spin == 1 ==> rest[..n] == xs[..nUp] && rest[n..] == xs[nUp..e] + xs[e + 1..];
    Split(rest[..n], rest[n..], spin, xs[e])
  }

  /** The trace of a 3-by-3 Hessian given by its rows. */
  datatype Hessian = Hessian(dx: Vec3, dy: Vec3, dz: Vec3)

  function Trace(h: Hessian): real {
    h.dx.x + h.dy.y + h.dz.z
  }

  /** The coefficients the evaluators read off the map's device tuple; None
      when the stored arrays do not have the ranks (acoeff of rank 3, bcoeff
      of rank 2) they expect. */
  function CoefficientsOf(jax: seq<Array>): (r: Option<Coefficients>)
    ensures r.Some? <==> |jax| == 2 && jax[0].Cube? && jax[1].Grid?
    ensures r.Some? ==> r.value.acoeff == jax[0].c && r.value.bcoeff == jax[1].m
  {
    if |jax| == 2 && jax[0].Cube? && jax[1].Grid? then Some(Coefficients(jax[0].c, jax[1].m)) else None
  }

  class JaxJastrowSpin {
    const f: Fns
    const atoms: seq<Vec3>                // nuclear positions
    const nUp: nat
    const nElec: nat
    const basis: BasisParameters
    const parameters: ParameterMap
    var configsCurrent: seq<seq<Vec3>>    // per configuration, nElec positions
    var a: seq<real>                      // per configuration
    var b: seq<real>                      // per configuration
    var logj: seq<real>                   // per configuration
    var grad: seq<Vec3>                   // per configuration
    var lap: seq<real>                    // per configuration

    /** The map holds arrays the evaluators can read, of the basis's shape
        and with one acoeff block per nucleus, and every stored configuration
        has nElec electrons. */
    ghost predicate Valid()
      reads this, parameters
    {
      parameters.Valid() &&
      CoefficientsOf(parameters.jaxParameters).Some? &&
      Setup(f, basis, Coeffs(), atoms) &&
      nUp <= nElec &&
      (forall c :: 0 <= c < |configsCurrent| ==> |configsCurrent[c]| == nElec)
    }

    ghost function Coeffs(): Coefficients
      reads this, parameters
      requires CoefficientsOf(parameters.jaxParameters).Some?
    {
      CoefficientsOf(parameters.jaxParameters).value
    }

    /** `__init__`: the default parameters, wrapped in a parameter map (the
        map's constructor as intended; see `NewJastrowMapAsWritten`). The
        caller promises betas above -1, a positive cutoff and gamma above -3,
        which keep the basis denominators positive. */
    constructor (f: Fns, atoms: seq<Vec3>, nUp: nat, nDown: nat,
                 symbols: seq<string>, charges: seq<real>, ionCusp: IonCusp,
                 basisKeys: seq<string>, ecpKeys: seq<string>, betaA: seq<real>, betaB: seq<real>,
                 rcut: Option<real>, gamma: Option<real>, latticeRcut: Option<real>)
      requires |symbols| == |charges| == |atoms| && SqrtLaws(f)
      requires ValidBasis(BasisParameters(betaA, betaB, [], DefaultRcut(rcut, latticeRcut), DefaultGamma(gamma)))
      ensures Valid()
      ensures this.f == f && this.atoms == atoms && this.nUp == nUp && this.nElec == nUp + nDown
      ensures basis == BasisParameters(betaA, betaB, ResolveIonCusp(ionCusp, basisKeys, ecpKeys),
                                       DefaultRcut(rcut, latticeRcut), DefaultGamma(gamma))
      ensures DefaultCoefficients(Coeffs(), symbols, charges, basis.ionCusp, |betaA|, |betaB|)
      ensures configsCurrent == [] && a == [] && b == [] && logj == [] && grad == [] && lap == []
    {
      var bp, co := InitParams(symbols, charges, ionCusp, basisKeys, ecpKeys, betaA, betaB,
                               rcut, gamma, latticeRcut);
      var m := NewJastrowMap([Cube(co.acoeff), Grid(co.bcoeff)]);
      this.f := f;
      this.atoms := atoms;
      this.nUp := nUp;
      this.nElec := nUp + nDown;
      this.basis := bp;
      this.parameters := m;
      configsCurrent, a, b, logj, grad, lap := [], [], [], [], [], [];
    }

    /** `recompute`: store the configurations and each one's (a, b, log J). */
    method Recompute(configs: seq<seq<Vec3>>) returns (l: seq<real>)
      requires parameters.Valid() && CoefficientsOf(parameters.jaxParameters).Some?
      requires Setup(f, basis, Coeffs(), atoms) && nUp <= nElec
      requires forall c :: 0 <= c < |configs| ==> |configs[c]| == nElec
      modifies this
      ensures Valid()
      ensures configsCurrent == configs && l == logj
      ensures |a| == |b| == |logj| == |configs|
      ensures forall c :: 0 <= c < |configs| ==>
        LogJastrow(a[c], b[c], logj[c]) == EvaluateJastrow(f, basis, Coeffs(), atoms, nUp, configs[c])
      ensures grad == old(grad) && lap == old(lap)
    {
      var co := CoefficientsOf(parameters.jaxParameters).value;
      var values := seq(|configs|, c requires 0 <= c < |configs| =>
                          EvaluateJastrow(f, basis, co, atoms, nUp, configs[c]));
      configsCurrent := configs;
      a := seq(|values|, c requires 0 <= c < |values| => values[c].a);
      b := seq(|values|, c requires 0 <= c < |values| => values[c].b);
      logj := seq(|values|, c requires 0 <= c < |values| => values[c].logj);
      l := logj;
    }

    /** `testvalue`: per stored configuration, the ratio J(R') / J(R) for
        electron e moved to that configuration's `epos`. The mask argument
        is ignored: every configuration gets its ratio. An unmoved electron
        gives 1. */
    method TestValue(e: nat, epos: seq<Vec3>, mask: seq<bool>) returns (r: seq<real>)
      requires Valid() && e < nElec && |epos| == |configsCurrent|
      ensures |r| == |configsCurrent|
      ensures forall c :: 0 <= c < |r| ==>
        r[c] == Jastrow.TestValue(f, basis, Coeffs(), atoms, nUp, configsCurrent[c], e, epos[c])
      ensures ExpLaws(f) ==> forall c :: 0 <= c < |r| ==>
        r[c] * f.Exp(EvaluateJastrow(f, basis, Coeffs(), atoms, nUp, configsCurrent[c]).logj) ==
        f.Exp(EvaluateJastrow(f, basis, Coeffs(), atoms, nUp, configsCurrent[c][e := epos[c]]).logj)
      ensures ExpLaws(f) ==> forall c :: 0 <= c < |r| && epos[c] == configsCurrent[c][e] ==> r[c] == 1.0
    {
      hide EvaluateJastrow, Jastrow.TestValue;
      var co := CoefficientsOf(parameters.jaxParameters).value;
      var configs := configsCurrent;
      r := seq(|configs|, c requires 0 <= c < |configs| =>
                 Jastrow.TestValue(f, basis, co, atoms, nUp, configs[c], e, epos[c]));
      if ExpLaws(f) {
        forall c | 0 <= c < |r|
          ensures r[c] * f.Exp(EvaluateJastrow(f, basis, co, atoms, nUp, configs[c]).logj) ==
                  f.Exp(EvaluateJastrow(f, basis, co, atoms, nUp, configs[c][e := epos[c]]).logj)
          ensures epos[c] == configs[c][e] ==> r[c] == 1.0
        {
          TestValueIsRatio(f, basis, co, atoms, nUp, configs[c], e, epos[c], r[c],
                           EvaluateJastrow(f, basis, co, atoms, nUp, configs[c]).logj,
                           EvaluateJastrow(f, basis, co, atoms, nUp, configs[c][e := epos[c]]).logj);
          if epos[c] == configs[c][e] {
            TestValueUnmoved(f, basis, co, atoms, nUp, configs[c], e);
          }
        }
      }
    }

    /** `_split_configs`: every stored configuration with electron e removed
        and split into its up and down blocks, the spin of e and e's
        positions. */
    method SplitConfigs(e: nat) returns (up: seq<seq<Vec3>>, down: seq<seq<Vec3>>, spin: nat, epos: seq<Vec3>)
      requires Valid() && e < nElec
      ensures spin == SpinOf(e, nUp)
      ensures |up| == |down| == |epos| == |configsCurrent|
      ensures forall c :: 0 <= c < |configsCurrent| ==>
        Split(up[c], down[c], spin, epos[c]) == SplitConfig(configsCurrent[c], e, nUp)
    {
      var configs := configsCurrent;
      var splits := seq(|configs|, c requires 0 <= c < |configs| => SplitConfig(configs[c], e, nUp));
      up := seq(|splits|, c requires 0 <= c < |splits| => splits[c].up);
      down := seq(|splits|, c requires 0 <= c < |splits| => splits[c].down);
      epos := seq(|splits|, c requires 0 <= c < |splits| => splits[c].epos);
      spin := SpinOf(e, nUp);
    }

    /** `gradient_laplacian`: given, per configuration, the gradient and the
        Hessian of log J with respect to electron e (the automatic
        derivatives of the split configurations), store the gradient and
        the Laplacian of J over J, trace(Hessian) + |gradient|^2. */
    method GradientLaplacian(e: nat, gradients: seq<Vec3>, hessians: seq<Hessian>)
      returns (g: seq<Vec3>, l: seq<real>)
      requires Valid() && e < nElec && |gradients| == |hessians| == |configsCurrent|
      modifies this
      ensures Valid()
      ensures g == grad == gradients && l == lap && |lap| == |hessians|
      ensures forall c :: 0 <= c < |lap| ==> lap[c] == Trace(hessians[c]) + SquaredNorm(gradients[c])
      ensures forall c :: 0 <= c < |lap| ==> lap[c] >= Trace(hessians[c])
      ensures configsCurrent == old(configsCurrent) && a == old(a) && b == old(b) && logj == old(logj)
    {
      grad := gradients;
      lap := seq(|hessians|, c requires 0 <= c < |hessians| => Trace(hessians[c]) + SquaredNorm(gradients[c]));
      g, l := grad, lap;
    }
  }
}
