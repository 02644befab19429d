/** The transcendental functions the wave-function code takes from numpy/jax
    (`exp`, `log`, `sqrt`) and the geometry built on them.

    Dafny's reals have no exponential, so the three functions are carried as the
    fields of a `Fns` value that every member using them takes as a parameter.
    Nothing is assumed about them in general: a lemma that depends on one of
    their algebraic laws states that law as a precondition (`ExpLaws`,
    `LogLaws`, `SqrtLaws`), and the real `exp`, `log` and `sqrt` satisfy all three. */
module Analytic {

  datatype Fns = Fns(Exp: real -> real, Log: real -> real, Sqrt: real -> real)

  /* Each law is quantified over a predicate at one point (`ExpSumLaw`,
     `ExpPositiveAt`, ...), so that a proof uses it only where it asks for it
     through the lemma of the same name below, never on every exponential in
     sight. */

  /** exp(a + b) == exp(a) * exp(b) at one pair of arguments. */
  ghost predicate ExpSumLaw(f: Fns, a: real, b: real) {
    f.Exp(a + b) == f.Exp(a) * f.Exp(b)
  }

  ghost predicate ExpPositiveAt(f: Fns, a: real) {
    f.Exp(a) > 0.0
  }

  /** exp is a positive homomorphism from (+) to (*). */
  ghost predicate ExpLaws(f: Fns) {
    (forall a: real, b: real :: ExpSumLaw(f, a, b)) &&
    (forall a: real :: ExpPositiveAt(f, a))
  }

  ghost predicate ExpOfLogAt(f: Fns, x: real) {
    x > 0.0 ==> f.Exp(f.Log(x)) == x
  }

  /** log inverts exp on the positive reals. */
  ghost predicate LogLaws(f: Fns) {
    (forall x: real :: ExpOfLogAt(f, x)) &&
    f.Log(1.0) == 0.0
  }

  ghost predicate SqrtAt(f: Fns, x: real) {
    x >= 0.0 ==> f.Sqrt(x) >= 0.0 && f.Sqrt(x) * f.Sqrt(x) == x
  }

  /** sqrt is the non-negative square root on the non-negative reals
      (`Sqrt(0) == 0` is the case `x == 0` of the first law, stated apart). */
  ghost predicate SqrtLaws(f: Fns) {
    (forall x: real :: SqrtAt(f, x)) &&
    f.Sqrt(0.0) == 0.0
  }

  lemma ExpPositive(f: Fns, a: real)
    requires ExpLaws(f)
    ensures f.Exp(a) > 0.0
  {
    assert ExpPositiveAt(f, a);
  }

  lemma ExpOfLog(f: Fns, x: real)
    requires LogLaws(f) && x > 0.0
    ensures f.Exp(f.Log(x)) == x
  {
    assert ExpOfLogAt(f, x);
  }

  lemma SqrtSquare(f: Fns, x: real)
    requires SqrtLaws(f) && x >= 0.0
    ensures f.Sqrt(x) >= 0.0 && f.Sqrt(x) * f.Sqrt(x) == x
  {
    assert SqrtAt(f, x);
  }

  function Abs(x: real): (r: real)
    ensures r >= 0.0 && (r == x || r == -x)
  {
    if x < 0.0 then -x else x
  }

  /** `jnp.sign`: -1, 0 or 1, and 0 exactly at 0. */
  function Sign(x: real): (s: real)
    ensures s == -1.0 || s == 0.0 || s == 1.0
    ensures s == 0.0 <==> x == 0.0
    ensures s == 1.0 <==> x > 0.0
  {
    if x > 0.0 then 1.0 else if x < 0.0 then -1.0 else 0.0
  }

  /** A number is its sign times its magnitude. */
  lemma SignTimesAbs(x: real)
    ensures Sign(x) * Abs(x) == x
  {
  }

  lemma ExpZero(f: Fns)
    requires ExpLaws(f)
    ensures f.Exp(0.0) == 1.0
  {
    var z: real := 0.0;
    assert ExpSumLaw(f, z, z);
    assert z + z == z;
    ExpPositive(f, z);
    var e := f.Exp(z);
    // e * e == e with e > 0 leaves only e == 1
    calc {
      e;
      (e * e) / e;
      e / e;
      1.0;
    }
  }

  /** exp(a - r) * exp(r) == exp(a): what makes the reference shift exact. */
  lemma ExpShift(f: Fns, a: real, r: real)
    requires ExpLaws(f)
    ensures f.Exp(a - r) * f.Exp(r) == f.Exp(a)
  {
    assert ExpSumLaw(f, a - r, r);
    assert (a - r) + r == a;
  }

  /** A ratio t = exp(delta), with delta the difference of two exponents,
      takes exp(before) to exp(after). */
  lemma ExpRatio(f: Fns, t: real, delta: real, before: real, after: real)
    requires ExpLaws(f) && t == f.Exp(delta) && delta == after - before
    ensures t * f.Exp(before) == f.Exp(after)
  {
    ExpShift(f, after, before);
  }

  lemma ExpAdd(f: Fns, a: real, b: real)
    requires ExpLaws(f)
    ensures f.Exp(a + b) == f.Exp(a) * f.Exp(b)
  {
    assert ExpSumLaw(f, a, b);
  }

  /** A point of space (an electron or nuclear position). */
  datatype Vec3 = Vec3(x: real, y: real, z: real)

  function SquaredNorm(v: Vec3): (r: real)
    ensures r >= 0.0
  {
    v.x * v.x + v.y * v.y + v.z * v.z
  }

  function Minus(p: Vec3, q: Vec3): Vec3 {
    Vec3(p.x - q.x, p.y - q.y, p.z - q.z)
  }

  /** `jnp.linalg.norm(p - q)`. */
  function Distance(f: Fns, p: Vec3, q: Vec3): real {
    f.Sqrt(SquaredNorm(Minus(p, q)))
  }

  lemma DistanceSymmetric(f: Fns, p: Vec3, q: Vec3)
    ensures Distance(f, p, q) == Distance(f, q, p)
  {
    assert SquaredNorm(Minus(p, q)) == SquaredNorm(Minus(q, p));
  }

  lemma DistanceSelf(f: Fns, p: Vec3)
    requires SqrtLaws(f)
    ensures Distance(f, p, p) == 0.0
  {
    assert Minus(p, p) == Vec3(0.0, 0.0, 0.0);
  }
}
