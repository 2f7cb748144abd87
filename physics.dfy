/** Constants of the Thrustable and Tweakscalable interfaces and the numeric helpers shared by both part models. */
module Physics {
  /** Thrustable.KERBIN_GRAVITY, in m/s^2. */
  const KERBIN_GRAVITY: real := 9.80977664671
  /** Tweakscalable.MASS_EXPONENT. */
  const MASS_EXPONENT: real := 2.5
  /** Tweakscalable.THRUST_EXPONENT. */
  const THRUST_EXPONENT: real := 2.6

  /** Math.log and Math.pow, left uninterpreted: every member that uses them takes them as a parameter. */
  datatype MathLib = MathLib(ln: real -> real, pow: (real, real) -> real)

  /**
   * Java double division a / b.  Where b is 0 Java yields an infinity or NaN;
   * the model has no such values and yields 0 there.
   */
  function Div(a: real, b: real): real
  {
    if b == 0.0 then 0.0 else a / b
  }

  /** Over a non-zero divisor, Div is the inverse of multiplication. */
  lemma DivMul(a: real, b: real)
    requires b != 0.0
    ensures Div(a, b) * b == a
  {
  }

  /** Multiplication, named so that lemmas about rescaled sums can state it without exposing a product of unknowns. */
  function Times(x: real, s: real): real
  {
    x * s
  }

  /** Dividing by a divisor that is f / s multiplies the quotient by s. */
  lemma DivRescaled(t: real, f: real, f': real, s: real)
    requires s != 0.0 && Times(f', s) == f
    ensures Div(t, f') == s * Div(t, f)
  {
    if f != 0.0 {
      var h, h' := Div(t, f), Div(t, f');
      assert f' != 0.0;
      DivMul(t, f);
      DivMul(t, f');
      assert h' * f' == t;
      assert h * f == t;
      assert h * (f' * s) == t;
      assert (h * s) * f' == t;
      assert (h * s - h') * f' == 0.0;
    } else {
      assert f' == 0.0;
    }
  }

  /** A quotient whose divisor times c gives back the dividend is c. */
  lemma DivOfTimes(t: real, f: real, c: real)
    requires f != 0.0 && Times(f, c) == t
    ensures Div(t, f) == c
  {
    DivMul(t, f);
    assert (Div(t, f) - c) * f == 0.0;
  }

  /** Scaling dividend and divisor by the same non-zero factor leaves the quotient alone. */
  lemma DivCancel(a: real, b: real, p: real)
    requires p != 0.0
    ensures Div(a * p, b * p) == Div(a, b)
  {
    if b != 0.0 {
      DivMul(a, b);
      DivMul(a * p, b * p);
      var q, q' := Div(a, b), Div(a * p, b * p);
      assert q' * (b * p) == a * p;
      assert (q' * b) * p == a * p;
      assert q' * b == a;
      assert (q' - q) * b == 0.0;
    }
  }

  /** A quotient of products is the product of the quotients, once the second divisor is non-zero. */
  lemma DivProduct(t: real, q: real, a: real, p: real)
    requires p != 0.0
    ensures Div(t * q, a * p) == Div(t, a) * Div(q, p)
  {
    if a != 0.0 {
      DivMul(t, a);
      DivMul(q, p);
      DivMul(t * q, a * p);
      var x, y, z := Div(t, a), Div(q, p), Div(t * q, a * p);
      assert (x * y) * (a * p) == (x * a) * (y * p);
      assert (x * y) * (a * p) == t * q;
      assert (z - x * y) * (a * p) == 0.0;
    }
  }

  /** Pulling a leading factor out of a left-nested product. */
  lemma MulAssoc4(s: real, a: real, l: real, g: real)
    ensures ((s * a) * l) * g == s * ((a * l) * g)
  {
  }

  /** If y * b == x * a with 0 < a < b and y positive, then y < x. */
  lemma CrossMulLt(x: real, y: real, a: real, b: real)
    requires 0.0 < a < b && 0.0 < y && y * b == x * a
    ensures y < x
  {
    assert y * a < y * b;
    assert (x - y) * a > 0.0;
  }

  /** Math.max(m, lo) followed by Math.min(_, hi): the setMass of every part with a current mass. */
  function Clamp(m: real, lo: real, hi: real): (r: real)
    ensures r <= hi
    ensures lo <= hi ==> lo <= r
    ensures lo <= m <= hi ==> r == m
    ensures m < lo && lo <= hi ==> r == lo
    ensures hi < m ==> r == hi
  {
    var raised := if m < lo then lo else m;
    if hi < raised then hi else raised
  }

  /**
   * How many more steps of size inc a quantity t can take before it passes bound: a natural number
   * that drops with every step taken while t is at most bound, so a search stepping t ends.
   */
  function StepsLeft(t: real, bound: real, inc: real): nat
    requires inc > 0.0
  {
    if t <= bound then ((bound - t) / inc).Floor + 1 else 0
  }

  /** A step taken while t is at most bound uses one of the steps left. */
  lemma StepsLeftDecrease(t: real, bound: real, inc: real)
    requires inc > 0.0 && t <= bound
    ensures StepsLeft(t + inc, bound, inc) < StepsLeft(t, bound, inc)
  {
    var x, x' := (bound - t) / inc, (bound - (t + inc)) / inc;
    assert x * inc == bound - t && x' * inc == bound - t - inc;
    var d := x' - (x - 1.0);
    assert d * inc == 0.0;
    assert d > 0.0 ==> d * inc > 0.0;
    assert d < 0.0 ==> d * inc < 0.0;
    var f, f' := x.Floor, (x - 1.0).Floor;
    assert f' + 1 == f;
  }

  /** Math.ceil on a real, as an integer. */
  function Ceil(x: real): (c: int)
    ensures x <= c as real < x + 1.0
  {
    -((-x).Floor)
  }
}
