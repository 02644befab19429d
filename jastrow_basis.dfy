/** The radial basis functions of the spin-resolved Jastrow factor in
    `pyqmc/jax/jastrowspin.py`: the polynomials z and p on the scaled distance
    r = rij / rcut, the Pade-type function built on z, the cusp function built
    on p, and their derivatives with respect to rij. Every function is cut off
    to 0 beyond rcut. */
module JastrowBasis {
  import opened RealSeq

  /** z(x) = x^2 (6 - 8x + 3x^2). */
  function Z(x: real): real {
    x * x * (6.0 - 8.0 * x + 3.0 * x * x)
  }

  /** p(y) = ((y - 1)^3 + 1) / 3. */
  function P(y: real): real {
    ((y - 1.0) * (y - 1.0) * (y - 1.0) + 1.0) / 3.0
  }

  /** z'(x) = 12x (1 - 2x + x^2). */
  function ZGrad(x: real): real {
    12.0 * x * (1.0 - 2.0 * x + x * x)
  }

  /** p'(y) = (y - 1)^2. */
  function PGrad(y: real): real {
    (y - 1.0) * (y - 1.0)
  }

  /** A square is non-negative. */
  lemma SquareNonNegative(w: real)
    ensures w * w >= 0.0
  {
    if w < 0.0 {
      assert w * w == (-w) * (-w);
    }
  }

  /** a, b >= 0 ==> a b >= 0. */
  lemma MulNonNegative(a: real, b: real)
    requires a >= 0.0 && b >= 0.0
    ensures a * b >= 0.0
  {
  }

  /** 0 <= t <= 1 ==> 0 <= t^3 <= 1. */
  lemma CubeInUnit(t: real)
    requires 0.0 <= t <= 1.0
    ensures 0.0 <= t * t * t <= 1.0
  {
    MulNonNegative(t, t);
    assert t * t <= t;
    MulNonNegative(t * t, t);
    assert t * t * t <= t * t;
  }

  /** r = rij / rcut lies in [0, 1] on the cut-off range. */
  lemma ScaledDistance(rij: real, rcut: real)
    requires 0.0 <= rij <= rcut && rcut > 0.0
    ensures 0.0 <= rij / rcut <= 1.0
    ensures rij == rcut ==> rij / rcut == 1.0
    ensures rij == 0.0 ==> rij / rcut == 0.0
  {
  }

  /** z rises from 0 at 0 to 1 at 1 and stays in [0, 1] in between:
      z(x) == x^2 (3 (x - 4/3)^2 + 2/3) and 1 - z(x) == (1 - x)^3 (1 + 3x). */
  lemma ZRange(x: real)
    requires 0.0 <= x <= 1.0
    ensures 0.0 <= Z(x) <= 1.0
    ensures x == 0.0 ==> Z(x) == 0.0
    ensures x == 1.0 ==> Z(x) == 1.0
  {
    var w := x - 4.0 / 3.0;
    var q := 6.0 - 8.0 * x + 3.0 * x * x;
    assert q == 3.0 * (w * w) + 2.0 / 3.0;
    SquareNonNegative(w);
    MulNonNegative(x, x);
    MulNonNegative(x * x, q);
    var y := 1.0 - x;
    assert 1.0 - Z(x) == y * y * y * (1.0 + 3.0 * x);
    CubeInUnit(y);
    MulNonNegative(y * y * y, 1.0 + 3.0 * x);
  }

  /** p rises from 0 at 0 to 1/3 at 1 and stays in [0, 1/3] in between. */
  lemma PRange(y: real)
    requires 0.0 <= y <= 1.0
    ensures 0.0 <= P(y) <= 1.0 / 3.0
    ensures y == 0.0 ==> P(y) == 0.0
    ensures y == 1.0 ==> P(y) == 1.0 / 3.0
  {
    var t := 1.0 - y;
    assert (y - 1.0) * (y - 1.0) * (y - 1.0) == -(t * t * t);
    CubeInUnit(t);
  }

  /** z' is the derivative of z: the exact expansion
      z(x + h) == z(x) + h z'(x) + h^2 (6 - 24x + 18x^2 + h (12x - 8) + 3h^2). */
  lemma ZGradIsDerivative(x: real, h: real)
    ensures Z(x + h) == Z(x) + h * ZGrad(x) +
      h * h * (6.0 - 24.0 * x + 18.0 * x * x + h * (12.0 * x - 8.0) + 3.0 * h * h)
  {
  }

  /** p' is the derivative of p: p(y + h) == p(y) + h p'(y) + h^2 ((y - 1) + h / 3). */
  lemma PGradIsDerivative(y: real, h: real)
    ensures P(y + h) == P(y) + h * PGrad(y) + h * h * ((y - 1.0) + h / 3.0)
  {
  }

  /** Both derivatives vanish at the cutoff r = 1 (and z' at r = 0). */
  lemma GradsVanishAtOne()
    ensures ZGrad(1.0) == 0.0 && PGrad(1.0) == 0.0 && ZGrad(0.0) == 0.0
  {
  }

  /** The parameters for which the basis functions never divide by zero on
      [0, rcut]: a positive cutoff, every beta above -1 and gamma above -3. */
  predicate ValidRcut(rcut: real) {
    rcut > 0.0
  }

  /** The denominator 1 + beta z(r) is positive on the cut-off range. */
  lemma PadeDenominator(beta: real, x: real)
    requires beta > -1.0 && 0.0 <= x <= 1.0
    ensures 1.0 + beta * Z(x) > 0.0
  {
    ZRange(x);
    var z := Z(x);
    if beta < 0.0 {
      assert beta * z >= beta * 1.0 by {
        assert (-beta) * z <= (-beta) * 1.0;
      }
    } else {
      assert beta * z >= 0.0;
    }
  }

  /** The denominators 1 + gamma p(r) and 3 + gamma are positive on the
      cut-off range. */
  lemma CuspDenominator(gamma: real, y: real)
    requires gamma > -3.0 && 0.0 <= y <= 1.0
    ensures 1.0 + gamma * P(y) > 0.0
  {
    PRange(y);
    var p := P(y);
    if gamma < 0.0 {
      assert gamma * p >= gamma * (1.0 / 3.0) by {
        assert (-gamma) * p <= (-gamma) * (1.0 / 3.0);
      }
    } else {
      assert gamma * p >= 0.0;
    }
  }

  /** The Pade denominator 1 + beta z(r). */
  function PadeDen(beta: real, r: real): (d: real)
    requires beta > -1.0 && 0.0 <= r <= 1.0
    ensures d > 0.0
  {
    PadeDenominator(beta, r);
    1.0 + beta * Z(r)
  }

  /** The cusp denominator 1 + gamma p(r). */
  function CuspDen(gamma: real, r: real): (d: real)
    requires gamma > -3.0 && 0.0 <= r <= 1.0
    ensures d > 0.0
  {
    CuspDenominator(gamma, r);
    1.0 + gamma * P(r)
  }

  /** The Pade form (1 - z(r)) / (1 + beta z(r)) on the scaled distance. */
  function PadeAt(beta: real, r: real): real
    requires beta > -1.0 && 0.0 <= r <= 1.0
  {
    (1.0 - Z(r)) / PadeDen(beta, r)
  }

  /** The cusp form rcut (-p(r) / (1 + gamma p(r)) + 1 / (3 + gamma)). */
  function CuspAt(gamma: real, r: real, rcut: real): real
    requires gamma > -3.0 && 0.0 <= r <= 1.0
  {
    (-P(r) / CuspDen(gamma, r) + 1.0 / (3.0 + gamma)) * rcut
  }

  /** The derivative of the Pade form with respect to rij:
      -(1 + beta) z'(r) / (rcut (1 + beta z(r))^2). */
  function PadeGradAt(beta: real, r: real, rcut: real): real
    requires beta > -1.0 && 0.0 <= r <= 1.0 && ValidRcut(rcut)
  {
    var d := PadeDen(beta, r);
    -(1.0 + beta) * (ZGrad(r) / d / d) / rcut
  }

  /** The derivative of the cusp form with respect to rij: -p'(r) / (1 + gamma p(r))^2. */
  function CuspGradAt(gamma: real, r: real): real
    requires gamma > -3.0 && 0.0 <= r <= 1.0
  {
    var d := CuspDen(gamma, r);
    -PGrad(r) / d / d
  }

  /** `polypade`: the Pade form at r = rij / rcut for rij <= rcut, 0 beyond. */
  function Polypade(rij: real, beta: real, rcut: real): real
    requires rij >= 0.0 && beta > -1.0 && ValidRcut(rcut)
  {
    if rij > rcut then 0.0 else PadeAt(beta, rij / rcut)
  }

  /** `cutoffcusp`: the cusp form at r = rij / rcut for rij <= rcut, 0 beyond. */
  function Cutoffcusp(rij: real, gamma: real, rcut: real): real
    requires rij >= 0.0 && gamma > -3.0 && ValidRcut(rcut)
  {
    if rij > rcut then 0.0 else CuspAt(gamma, rij / rcut, rcut)
  }

  /** `polypade_grad`: the Pade derivative for rij <= rcut, 0 beyond. */
  function PolypadeGrad(rij: real, beta: real, rcut: real): real
    requires rij >= 0.0 && beta > -1.0 && ValidRcut(rcut)
  {
    if rij > rcut then 0.0 else PadeGradAt(beta, rij / rcut, rcut)
  }

  /** `cutoffcusp_grad`: the cusp derivative for rij <= rcut, 0 beyond. */
  function CutoffcuspGrad(rij: real, gamma: real, rcut: real): real
    requires rij >= 0.0 && gamma > -3.0 && ValidRcut(rcut)
  {
    if rij > rcut then 0.0 else CuspGradAt(gamma, rij / rcut)
  }

  /** polypade is 1 at the origin, 0 at the cutoff and beyond, and in [0, 1]
      in between for non-negative beta. */
  lemma PolypadeValues(rij: real, beta: real, rcut: real)
    requires rij >= 0.0 && beta > -1.0 && ValidRcut(rcut)
    ensures rij == 0.0 ==> Polypade(rij, beta, rcut) == 1.0
    ensures rij >= rcut ==> Polypade(rij, beta, rcut) == 0.0
    ensures beta >= 0.0 ==> 0.0 <= Polypade(rij, beta, rcut) <= 1.0
  {
    if rij <= rcut {
      var r := rij / rcut;
      ScaledDistance(rij, rcut);
      ZRange(r);
      PadeDenominator(beta, r);
      var d := 1.0 + beta * Z(r);
      if beta >= 0.0 {
        assert d >= 1.0 && 1.0 - Z(r) <= 1.0;
        assert (1.0 - Z(r)) / d <= 1.0 - Z(r);
      }
    }
  }

  /** cutoffcusp is rcut / (3 + gamma) at the origin, 0 at the cutoff and
      beyond, so the cusp term joins the cut-off region continuously. */
  lemma CutoffcuspValues(rij: real, gamma: real, rcut: real)
    requires rij >= 0.0 && gamma > -3.0 && ValidRcut(rcut)
    ensures rij == 0.0 ==> Cutoffcusp(rij, gamma, rcut) == rcut / (3.0 + gamma)
    ensures rij >= rcut ==> Cutoffcusp(rij, gamma, rcut) == 0.0
  {
    if rij == rcut {
      ScaledDistance(rij, rcut);
      PRange(1.0);
      var g := 3.0 + gamma;
      assert 1.0 + gamma * (1.0 / 3.0) == g / 3.0;
      assert (1.0 / 3.0) / (g / 3.0) == 1.0 / g;
    } else if rij == 0.0 {
      ScaledDistance(rij, rcut);
      PRange(0.0);
    }
  }

  /** At the origin the Pade functions are flat and the cusp function falls
      with slope -1, so a cusp term with coefficient c has slope -c there. */
  lemma GradsAtOrigin(beta: real, gamma: real, rcut: real)
    requires beta > -1.0 && gamma > -3.0 && ValidRcut(rcut)
    ensures PolypadeGrad(0.0, beta, rcut) == 0.0
    ensures CutoffcuspGrad(0.0, gamma, rcut) == -1.0
  {
    assert 0.0 / rcut == 0.0;
    PadeGradAtOrigin(beta, rcut);
    CuspGradAtOrigin(gamma);
  }

  lemma PadeGradAtOrigin(beta: real, rcut: real)
    requires beta > -1.0 && ValidRcut(rcut)
    ensures PadeGradAt(beta, 0.0, rcut) == 0.0
  {
    GradsVanishAtOne();
    PadeGradFlat(beta, 0.0, rcut);
  }

  /** Where z is flat the Pade derivative is 0. */
  lemma PadeGradFlat(beta: real, r: real, rcut: real)
    requires beta > -1.0 && 0.0 <= r <= 1.0 && ValidRcut(rcut) && ZGrad(r) == 0.0
    ensures PadeGradAt(beta, r, rcut) == 0.0
  {
    PadeDenominator(beta, r);
    var d := 1.0 + beta * Z(r);
    var n := -(1.0 + beta) * ZGrad(r);
    assert n == 0.0;
    assert PadeGradAt(beta, r, rcut) == n / rcut / d / d;
  }

  lemma CuspGradAtOrigin(gamma: real)
    requires gamma > -3.0
    ensures CuspGradAt(gamma, 0.0) == -1.0
  {
    assert P(0.0) == 0.0 && PGrad(0.0) == 1.0;
    var d := 1.0 + gamma * P(0.0);
    assert d == 1.0;
  }

  /** Both gradients are 0 at the cutoff and beyond. */
  lemma GradsVanishAtCutoff(rij: real, beta: real, gamma: real, rcut: real)
    requires rij >= rcut && beta > -1.0 && gamma > -3.0 && ValidRcut(rcut)
    ensures PolypadeGrad(rij, beta, rcut) == 0.0
    ensures CutoffcuspGrad(rij, gamma, rcut) == 0.0
  {
    if rij == rcut {
      ScaledDistance(rij, rcut);
      GradsVanishAtOne();
      PadeDenominator(beta, 1.0);
      CuspDenominator(gamma, 1.0);
      var dz, dp := 1.0 + beta * Z(1.0), 1.0 + gamma * P(1.0);
      var nz := -(1.0 + beta) * ZGrad(1.0);
      assert nz == 0.0;
      assert PadeGradAt(beta, 1.0, rcut) == nz / rcut / dz / dz;
      assert CuspGradAt(gamma, 1.0) == -PGrad(1.0) / dp / dp;
    }
  }

  /** a / d1 - b / d0 == c / d0 / d1 whenever a d0 - b d1 == c. */
  lemma QuotientDifference(a: real, b: real, d0: real, d1: real, c: real)
    requires d0 != 0.0 && d1 != 0.0
    requires a * d0 - b * d1 == c
    ensures a / d1 - b / d0 == c / d0 / d1
  {
    var u := a / d1;
    var v := b / d0;
    var w := c / d0 / d1;
    assert u * d1 == a && v * d0 == b;
    assert w * d1 * d0 == c;
    assert (u - v - w) * (d0 * d1) == 0.0;
    assert d0 * d1 != 0.0;
  }

  /** The h^2 coefficient of z(x + h) around x: z(x + h) == z(x) + h (z'(x) + h ZRemainder(x, h)). */
  function ZRemainder(x: real, h: real): real {
    6.0 - 24.0 * x + 18.0 * x * x + h * (12.0 * x - 8.0) + 3.0 * h * h
  }

  /** The h^2 coefficient of p(y + h) around y: p(y + h) == p(y) + h (p'(y) + h PRemainder(y, h)). */
  function PRemainder(y: real, h: real): real {
    (y - 1.0) + h / 3.0
  }

  /** The point x0 + h (g + h q): a step h from x0 with slope g and
      second-order coefficient q. */
  function Path(x0: real, g: real, q: real, h: real): real {
    x0 + h * (g + h * q)
  }

  /** z moves along `Path` with slope z'(x). */
  lemma ZStep(x: real, h: real)
    ensures Z(x + h) == Path(Z(x), ZGrad(x), ZRemainder(x, h), h)
  {
    ZGradIsDerivative(x, h);
  }

  /** p moves along `Path` with slope p'(y). */
  lemma PStep(y: real, h: real)
    ensures P(y + h) == Path(P(y), PGrad(y), PRemainder(y, h), h)
  {
    PGradIsDerivative(y, h);
  }

  /** 1 + beta x: the denominator of both basis forms. */
  function Den(beta: real, x: real): real {
    1.0 + beta * x
  }

  /** The fractional-linear form (a + b x) / (1 + beta x). The Pade form is
      a = 1, b = -1 on z(r); the cusp form, up to its constant and the factor
      rcut, is a = 0, b = -1 on p(r). */
  function Mobius(a: real, b: real, beta: real, x: real): real
    requires Den(beta, x) != 0.0
  {
    (a + b * x) / Den(beta, x)
  }

  /** The first-order term of `Mobius` along a path through x0 with velocity g:
      (b - a beta) g / (1 + beta x0)^2. */
  function MobiusSlope(a: real, b: real, beta: real, x0: real, g: real): real
    requires Den(beta, x0) != 0.0
  {
    (b - a * beta) * (g / Den(beta, x0) / Den(beta, x0))
  }

  /** The exact second-order remainder of `Mobius` along the path
      x(h) == x0 + h (g + h q). */
  function MobiusRemainder(a: real, b: real, beta: real, x0: real, g: real, q: real, h: real): real
    requires Den(beta, x0) != 0.0 && Den(beta, Path(x0, g, q, h)) != 0.0
  {
    var d0, d1 := Den(beta, x0), Den(beta, Path(x0, g, q, h));
    (b - a * beta) * (q / d0 / d1 - beta * g * (g + h * q) / d0 / d0 / d1)
  }

  /** Two values of the form differ by (b - a beta) (x1 - x0) / (d0 d1). */
  lemma MobiusDifference(a: real, b: real, beta: real, x0: real, x1: real)
    requires Den(beta, x0) != 0.0 && Den(beta, x1) != 0.0
    ensures Mobius(a, b, beta, x1) - Mobius(a, b, beta, x0) ==
            (b - a * beta) * ((x1 - x0) / Den(beta, x0) / Den(beta, x1))
  {
    var d0, d1 := Den(beta, x0), Den(beta, x1);
    var u, v := a + b * x1, a + b * x0;
    var c := b - a * beta;
    assert u * d0 == a + a * beta * x0 + b * x1 + b * beta * x1 * x0;
    assert v * d1 == a + a * beta * x1 + b * x0 + b * beta * x0 * x1;
    assert u * d0 - v * d1 == c * (x1 - x0);
    QuotientDifference(u, v, d0, d1, c * (x1 - x0));
    DivScale(c, x1 - x0, d0, d1, (x1 - x0) / d0 / d1);
  }

  /** c x / a / b == c (x / a / b). */
  lemma DivScale(c: real, x: real, a: real, b: real, quotient: real)
    requires a != 0.0 && b != 0.0 && quotient == x / a / b
    ensures c * x / a / b == c * quotient
  {
  }

  /** Moving x0 to x1 == x0 + h (g + h q) moves the denominator by beta (x1 - x0). */
  lemma DenStep(beta: real, x0: real, g: real, q: real, h: real)
    ensures Den(beta, Path(x0, g, q, h)) == Den(beta, x0) + beta * (Path(x0, g, q, h) - x0)
    ensures Path(x0, g, q, h) - x0 == h * g + h * h * q
  {
  }

  /** The form has slope `MobiusSlope` along x(h) == x0 + h (g + h q): the
      exact expansion with remainder `MobiusRemainder`. */
  lemma MobiusExpansion(a: real, b: real, beta: real, x0: real, g: real, q: real, h: real)
    requires Den(beta, x0) != 0.0 && Den(beta, Path(x0, g, q, h)) != 0.0
    ensures Mobius(a, b, beta, Path(x0, g, q, h)) ==
            Mobius(a, b, beta, x0) + h * MobiusSlope(a, b, beta, x0, g) + h * h * MobiusRemainder(a, b, beta, x0, g, q, h)
  {
    hide *;
    var x1 := Path(x0, g, q, h);
    var d0, d1 := Den(beta, x0), Den(beta, x1);
    var k := x1 - x0;
    var c := b - a * beta;
    DenStep(beta, x0, g, q, h);
    MobiusDifference(a, b, beta, x0, x1);
    var A, B, W := g / d0 / d0, q / d0 / d1, beta * g * (g + h * q) / d0 / d0 / d1;
    var L := k / d0 / d1;
    StepAlgebra(beta, d0, d1, k, h, g, q, A, B, W, L);
    MobiusSlopePart(a, b, beta, x0, g);
    MobiusRemainderPart(a, b, beta, x0, g, q, h);
    MulEq(c, L, h * A + h * h * (B - W));
    Distribute(c, h, A, B - W);
    MulEq(h, MobiusSlope(a, b, beta, x0, g), c * A);
    MulEq(h * h, MobiusRemainder(a, b, beta, x0, g, q, h), c * (B - W));
  }

  /** `MobiusSlope` is (b - a beta) times the quotient A of `StepAlgebra`. */
  lemma MobiusSlopePart(a: real, b: real, beta: real, x0: real, g: real)
    requires Den(beta, x0) != 0.0
    ensures MobiusSlope(a, b, beta, x0, g) == (b - a * beta) * (g / Den(beta, x0) / Den(beta, x0))
  {
  }

  /** `MobiusRemainder` is (b - a beta) times the quotient difference B - W of `StepAlgebra`. */
  lemma MobiusRemainderPart(a: real, b: real, beta: real, x0: real, g: real, q: real, h: real)
    requires Den(beta, x0) != 0.0 && Den(beta, Path(x0, g, q, h)) != 0.0
    ensures MobiusRemainder(a, b, beta, x0, g, q, h) ==
            (b - a * beta) * (q / Den(beta, x0) / Den(beta, Path(x0, g, q, h)) -
                              beta * g * (g + h * q) / Den(beta, x0) / Den(beta, x0) / Den(beta, Path(x0, g, q, h)))
  {
  }

  lemma Distribute(c: real, h: real, A: real, E: real)
    ensures c * (h * A + h * h * E) == h * (c * A) + h * h * (c * E)
  {
  }

  /** The algebra shared by both bases: with d1 == d0 + beta k and
      k == s g + s^2 q, the quotient L == k / (d0 d1) is s A, A == g / d0^2,
      plus s^2 times the remainder B - W. */
  lemma StepAlgebra(beta: real, d0: real, d1: real, k: real, s: real, g: real, q: real,
                    A: real, B: real, W: real, L: real)
    requires d0 != 0.0 && d1 != 0.0
    requires d1 == d0 + beta * k && k == s * g + s * s * q
    requires A == g / d0 / d0 && B == q / d0 / d1 && W == beta * g * (g + s * q) / d0 / d0 / d1 && L == k / d0 / d1
    ensures L == s * A + s * s * (B - W)
  {
    var D := d0 * d0 * d1;
    ProductNonZero3(d0, d0, d1, D);
    Cleared2(g, d0, d0, d1, A, D);
    Cleared2(q, d0, d1, d0, B, D);
    Cleared3(beta * g * (g + s * q), d0, d0, d1, W, D);
    Cleared2(k, d0, d1, d0, L, D);
    var X, Y, T := g * d1, q * d0, k * d0;
    StepPolynomial(beta, d0, d1, k, s, g, q, beta * g * (g + s * q), X, Y, T);
    ClearedCombination(s, A, B, W, L, D, X, Y, beta * g * (g + s * q), T);
  }

  /** Once every quotient times D is known, the combination is known. */
  lemma ClearedCombination(s: real, A: real, B: real, W: real, L: real, D: real,
                           X: real, Y: real, Z: real, T: real)
    requires D != 0.0
    requires A * D == X && B * D == Y && W * D == Z && L * D == T
    requires s * X + s * s * (Y - Z) == T
    ensures L == s * A + s * s * (B - W)
  {
    var R := s * A + s * s * (B - W);
    MulEq(s, A * D, X);
    MulEq(s * s, B * D, Y);
    MulEq(s * s, W * D, Z);
    assert R * D == s * (A * D) + s * s * (B * D) - s * s * (W * D);
    assert R * D == T;
    MulCancel(L, R, D);
  }

  /** The identity of `StepAlgebra` with the denominators cleared. */
  lemma StepPolynomial(beta: real, d0: real, d1: real, k: real, s: real, g: real, q: real, w: real,
                       X: real, Y: real, T: real)
    requires d1 == d0 + beta * k && k == s * g + s * s * q && w == beta * g * (g + s * q)
    requires X == g * d1 && Y == q * d0 && T == k * d0
    ensures s * X + s * s * (Y - w) == T
  {
    MulEq(s, X, g * d1);
    MulEq(s * s, Y, q * d0);
    MulEq(s * s, w, beta * g * (g + s * q));
    MulEq(d0, k, s * g + s * s * q);
    assert s * (g + s * q) == k;
    calc {
      s * X + s * s * (Y - w);
      s * (g * d1) + s * s * (q * d0) - s * s * (beta * g * (g + s * q));
      s * g * (d0 + beta * k) + s * s * q * d0 - beta * g * s * (s * (g + s * q));
      { MulEq(beta * g * s, s * (g + s * q), k); }
      s * g * (d0 + beta * k) + s * s * q * d0 - beta * g * s * k;
      d0 * (s * g + s * s * q);
      T;
    }
  }

  lemma ProductNonZero(a: real, b: real)
    requires a != 0.0 && b != 0.0
    ensures a * b != 0.0
  {
    assert (a * b) / a == b;
  }

  lemma ProductNonZero3(a: real, b: real, e: real, product: real)
    requires a != 0.0 && b != 0.0 && e != 0.0 && product == a * b * e
    ensures product != 0.0
  {
    var ab := a * b;
    ProductNonZero(a, b);
    ProductNonZero(ab, e);
  }

  /** x / a / b times a b e is x e (in any order of the three factors). */
  lemma Cleared2(x: real, a: real, b: real, e: real, quotient: real, product: real)
    requires a != 0.0 && b != 0.0
    requires quotient == x / a / b && (product == a * b * e || product == a * e * b)
    ensures quotient * product == x * e
  {
    DivTimes(x, a);
    DivTimes(x / a, b);
    assert quotient * product == ((x / a / b) * b) * a * e;
  }

  /** x / a / b / e times a b e is x. */
  lemma Cleared3(x: real, a: real, b: real, e: real, quotient: real, product: real)
    requires a != 0.0 && b != 0.0 && e != 0.0
    requires quotient == x / a / b / e && product == a * b * e
    ensures quotient * product == x
  {
    DivTimes(x / a / b, e);
    Cleared2(x, a, b, 1.0, x / a / b, a * b * 1.0);
    assert quotient * product == ((x / a / b / e) * e) * (a * b * 1.0);
  }

  lemma MulEq(m: real, x: real, y: real)
    requires x == y
    ensures m * x == m * y
  {
  }

  /** (x / d) * d == x. */
  lemma DivTimes(x: real, d: real)
    requires d != 0.0
    ensures (x / d) * d == x
  {
  }

  /** A non-zero factor cancels. */
  lemma MulCancel(x: real, y: real, d: real)
    requires d != 0.0 && x * d == y * d
    ensures x == y
  {
    assert (x - y) * d == 0.0;
  }


  /** `MobiusExpansion` with its products named by `Times`. */
  lemma MobiusStep(a: real, b: real, beta: real, x0: real, g: real, q: real, h: real)
    requires Den(beta, x0) != 0.0 && Den(beta, Path(x0, g, q, h)) != 0.0
    ensures Mobius(a, b, beta, Path(x0, g, q, h)) ==
            Mobius(a, b, beta, x0) + Times(h, MobiusSlope(a, b, beta, x0, g)) +
            Times(Times(h, h), MobiusRemainder(a, b, beta, x0, g, q, h))
  {
    MobiusExpansion(a, b, beta, x0, g, q, h);
  }

  /** The Pade form is the fractional-linear form with a = 1, b = -1 on z(r). */
  lemma PadeAsMobius(beta: real, r: real)
    requires beta > -1.0 && 0.0 <= r <= 1.0
    ensures Den(beta, Z(r)) == PadeDen(beta, r) && Den(beta, Z(r)) != 0.0
    ensures PadeAt(beta, r) == Mobius(1.0, -1.0, beta, Z(r))
  {
  }

  /** rcut times the rij-derivative of the Pade form is the slope of the
      fractional-linear form along z. */
  lemma PadeGradAsSlope(beta: real, r: real, rcut: real)
    requires beta > -1.0 && 0.0 <= r <= 1.0 && ValidRcut(rcut)
    ensures Den(beta, Z(r)) != 0.0
    ensures Times(PadeGradAt(beta, r, rcut), rcut) == MobiusSlope(1.0, -1.0, beta, Z(r), ZGrad(r))
  {
    var d := PadeDen(beta, r);
    var y := ZGrad(r) / d / d;
    assert PadeGradAt(beta, r, rcut) == -(1.0 + beta) * y / rcut;
    assert MobiusSlope(1.0, -1.0, beta, Z(r), ZGrad(r)) == (-1.0 - 1.0 * beta) * y;
  }

  /** The cusp form is rcut times the fractional-linear form with a = 0,
      b = -1 on p(r), plus the constant rcut / (3 + gamma); its rij-derivative
      is that form's slope along p. */
  lemma CuspAsMobius(gamma: real, r: real, rcut: real)
    requires gamma > -3.0 && 0.0 <= r <= 1.0
    ensures Den(gamma, P(r)) == CuspDen(gamma, r) && Den(gamma, P(r)) != 0.0
    ensures CuspAt(gamma, r, rcut) == Times(Mobius(0.0, -1.0, gamma, P(r)) + 1.0 / (3.0 + gamma), rcut)
    ensures CuspGradAt(gamma, r) == MobiusSlope(0.0, -1.0, gamma, P(r), PGrad(r))
  {
    var d := CuspDen(gamma, r);
    var g := PGrad(r);
    assert CuspGradAt(gamma, r) == -g / d / d;
    assert MobiusSlope(0.0, -1.0, gamma, P(r), g) == (-1.0 - 0.0 * gamma) * (g / d / d);
    DivScale(-1.0, g, d, d, g / d / d);
  }

  /** The h^2 coefficient of the Pade form's expansion around r, for steps s in r. */
  function PadeRemainder(beta: real, r: real, s: real): real
    requires beta > -1.0 && 0.0 <= r <= 1.0 && 0.0 <= r + s <= 1.0
  {
    PadeAsMobius(beta, r);
    PadeAsMobius(beta, r + s);
    ZStep(r, s);
    MobiusRemainder(1.0, -1.0, beta, Z(r), ZGrad(r), ZRemainder(r, s), s)
  }

  /** The h^2 coefficient of the cusp's fractional-linear part around r, for steps s in r. */
  function CuspRemainder(gamma: real, r: real, s: real): real
    requires gamma > -3.0 && 0.0 <= r <= 1.0 && 0.0 <= r + s <= 1.0
  {
    CuspAsMobius(gamma, r, 1.0);
    CuspAsMobius(gamma, r + s, 1.0);
    PStep(r, s);
    MobiusRemainder(0.0, -1.0, gamma, P(r), PGrad(r), PRemainder(r, s), s)
  }

  /** The exact expansion of the Pade form in r: slope `MobiusSlope` along z,
      remainder `PadeRemainder`. */
  lemma PadeExpansion(beta: real, r: real, s: real)
    requires beta > -1.0 && 0.0 <= r <= 1.0 && 0.0 <= r + s <= 1.0
    ensures Den(beta, Z(r)) != 0.0
    ensures PadeAt(beta, r + s) == PadeAt(beta, r) + Times(s, MobiusSlope(1.0, -1.0, beta, Z(r), ZGrad(r))) +
                                   Times(Times(s, s), PadeRemainder(beta, r, s))
  {
    hide Times, Mobius, MobiusSlope, MobiusRemainder, Den, Path, Z, ZGrad, ZRemainder, PadeAt, PadeDen;
    PadeAsMobius(beta, r);
    PadeAsMobius(beta, r + s);
    ZStep(r, s);
    MobiusStep(1.0, -1.0, beta, Z(r), ZGrad(r), ZRemainder(r, s), s);
  }

  /** The exact expansion of the cusp's fractional-linear part in r. */
  lemma CuspExpansion(gamma: real, r: real, s: real)
    requires gamma > -3.0 && 0.0 <= r <= 1.0 && 0.0 <= r + s <= 1.0
    ensures Den(gamma, P(r)) != 0.0 && Den(gamma, P(r + s)) != 0.0
    ensures Mobius(0.0, -1.0, gamma, P(r + s)) ==
            Mobius(0.0, -1.0, gamma, P(r)) + Times(s, MobiusSlope(0.0, -1.0, gamma, P(r), PGrad(r))) +
            Times(Times(s, s), CuspRemainder(gamma, r, s))
  {
    hide Times, Mobius, MobiusSlope, MobiusRemainder, Den, Path, P, PGrad, PRemainder, CuspAt, CuspDen;
    CuspAsMobius(gamma, r, 1.0);
    CuspAsMobius(gamma, r + s, 1.0);
    PStep(r, s);
    MobiusStep(0.0, -1.0, gamma, P(r), PGrad(r), PRemainder(r, s), s);
  }

  /** (rij + h) / rcut == rij / rcut + h / rcut. */
  lemma ScaledStepArg(rij: real, h: real, rcut: real)
    requires rcut != 0.0
    ensures (rij + h) / rcut == rij / rcut + h / rcut
  {
  }

  /** Dividing by rcut and multiplying back. */
  lemma ScaleBack(x: real, rcut: real, q: real)
    requires rcut != 0.0 && q == x / rcut
    ensures Times(q, rcut) == x
  {
  }

  /** The chain rule for the first-order term: with s rcut == h and G rcut == S, s S == h G. */
  lemma SlopeChain(h: real, rcut: real, s: real, S: real, G: real)
    requires Times(s, rcut) == h && Times(G, rcut) == S
    ensures Times(s, S) == Times(h, G)
  {
    assert s * (G * rcut) == (s * rcut) * G;
  }

  /** The chain rule for the second-order term: with s rcut == h and E rcut^2 == R, s^2 R == h^2 E. */
  lemma CurvatureChain(h: real, rcut: real, s: real, R: real, E: real)
    requires Times(s, rcut) == h && Times(Times(E, rcut), rcut) == R
    ensures Times(Times(s, s), R) == Times(Times(h, h), E)
  {
    assert (s * s) * ((E * rcut) * rcut) == ((s * rcut) * (s * rcut)) * E;
  }

  /** The cusp form's expansion, scaled by rcut: with m1 == m0 + s S + s^2 R,
      s rcut == h and E rcut == R, (m1 + k) rcut == (m0 + k) rcut + h S + h^2 E. */
  lemma CuspChain(h: real, rcut: real, s: real, m0: real, m1: real, k: real, S: real, R: real, E: real)
    requires Times(s, rcut) == h && Times(E, rcut) == R
    requires m1 == m0 + Times(s, S) + Times(Times(s, s), R)
    ensures Times(m1 + k, rcut) == Times(m0 + k, rcut) + Times(h, S) + Times(Times(h, h), E)
  {
    assert (m1 + k) * rcut == (m0 + k) * rcut + (s * rcut) * S + ((s * rcut) * (s * rcut)) * E;
  }

  /** The h^2 coefficient of polypade's expansion around rij, within the cutoff. */
  function PolypadeRemainder(rij: real, h: real, beta: real, rcut: real): real
    requires 0.0 <= rij <= rcut && 0.0 <= rij + h <= rcut && beta > -1.0 && ValidRcut(rcut)
  {
    ScaledDistance(rij, rcut);
    ScaledDistance(rij + h, rcut);
    ScaledStepArg(rij, h, rcut);
    PadeRemainder(beta, rij / rcut, h / rcut) / rcut / rcut
  }

  /** The h^2 coefficient of cutoffcusp's expansion around rij, within the cutoff. */
  function CutoffcuspRemainder(rij: real, h: real, gamma: real, rcut: real): real
    requires 0.0 <= rij <= rcut && 0.0 <= rij + h <= rcut && gamma > -3.0 && ValidRcut(rcut)
  {
    ScaledDistance(rij, rcut);
    ScaledDistance(rij + h, rcut);
    ScaledStepArg(rij, h, rcut);
    CuspRemainder(gamma, rij / rcut, h / rcut) / rcut
  }

  /** `polypade_grad` is the derivative of `polypade` with respect to rij: for
      rij and rij + h within the cutoff,
      polypade(rij + h) == polypade(rij) + h polypade_grad(rij) + h^2 R,
      with the explicit remainder R == `PolypadeRemainder`, finite for every h. */
  lemma PolypadeGradIsDerivative(rij: real, h: real, beta: real, rcut: real)
    requires 0.0 <= rij <= rcut && 0.0 <= rij + h <= rcut && beta > -1.0 && ValidRcut(rcut)
    ensures Polypade(rij + h, beta, rcut) ==
            Polypade(rij, beta, rcut) + h * PolypadeGrad(rij, beta, rcut) + h * h * PolypadeRemainder(rij, h, beta, rcut)
  {
    hide PadeAt, PadeGradAt, PadeRemainder, Mobius, MobiusSlope, MobiusRemainder, Den, Z, ZGrad, ZRemainder, PadeDen, Path;
    var r, s := rij / rcut, h / rcut;
    ScaledDistance(rij, rcut);
    ScaledDistance(rij + h, rcut);
    ScaledStepArg(rij, h, rcut);
    PadeExpansion(beta, r, s);
    PadeGradAsSlope(beta, r, rcut);
    var S := MobiusSlope(1.0, -1.0, beta, Z(r), ZGrad(r));
    var R := PadeRemainder(beta, r, s);
    var G, E := PolypadeGrad(rij, beta, rcut), PolypadeRemainder(rij, h, beta, rcut);
    ScaleBack(h, rcut, s);
    ScaleBack(R / rcut, rcut, E);
    ScaleBack(R, rcut, R / rcut);
    SlopeChain(h, rcut, s, S, G);
    CurvatureChain(h, rcut, s, R, E);
  }

  /** `cutoffcusp_grad` is the derivative of `cutoffcusp` with respect to rij:
      for rij and rij + h within the cutoff,
      cutoffcusp(rij + h) == cutoffcusp(rij) + h cutoffcusp_grad(rij) + h^2 R,
      with the explicit remainder R == `CutoffcuspRemainder`. */
  lemma CutoffcuspGradIsDerivative(rij: real, h: real, gamma: real, rcut: real)
    requires 0.0 <= rij <= rcut && 0.0 <= rij + h <= rcut && gamma > -3.0 && ValidRcut(rcut)
    ensures Cutoffcusp(rij + h, gamma, rcut) ==
            Cutoffcusp(rij, gamma, rcut) + h * CutoffcuspGrad(rij, gamma, rcut) + h * h * CutoffcuspRemainder(rij, h, gamma, rcut)
  {
    hide CuspAt, CuspGradAt, CuspRemainder, Mobius, MobiusSlope, MobiusRemainder, Den, P, PGrad, PRemainder, CuspDen, Path;
    var r, s := rij / rcut, h / rcut;
    ScaledDistance(rij, rcut);
    ScaledDistance(rij + h, rcut);
    ScaledStepArg(rij, h, rcut);
    CuspExpansion(gamma, r, s);
    CuspAsMobius(gamma, r, rcut);
    CuspAsMobius(gamma, r + s, rcut);
    var m0, m1 := Mobius(0.0, -1.0, gamma, P(r)), Mobius(0.0, -1.0, gamma, P(r + s));
    var S := MobiusSlope(0.0, -1.0, gamma, P(r), PGrad(r));
    var R := CuspRemainder(gamma, r, s);
    var E := CutoffcuspRemainder(rij, h, gamma, rcut);
    ScaleBack(h, rcut, s);
    ScaleBack(R, rcut, E);
    CuspChain(h, rcut, s, m0, m1, 1.0 / (3.0 + gamma), S, R, E);
  }
}
