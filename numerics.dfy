/**
  The numeric library the optics code calls into (numpy and scipy).
  Real numbers stand for floating-point values.  The transcendental and
  special functions are not defined here: a `Library` value carries them,
  and the lemmas that need a law about one of them say so in `requires`.
*/
module Numerics {

  /** numpy's value of pi, as a real. */
  const Pi: real := 3.141592653589793

  datatype Complex = Complex(re: real, im: real)

  const Zero: Complex := Complex(0.0, 0.0)

  /** Complex product. */
  function Mul(a: Complex, b: Complex): Complex
  {
    Complex(a.re * b.re - a.im * b.im, a.re * b.im + a.im * b.re)
  }

  /** Product of a real and a complex number (numpy promotes the real). */
  function Scale(s: real, a: Complex): Complex
  {
    Complex(s * a.re, s * a.im)
  }

  function Conj(a: Complex): Complex
  {
    Complex(a.re, -a.im)
  }

  /** Squared modulus. */
  function Norm2(a: Complex): (r: real)
    ensures r >= 0.0
  {
    a.re * a.re + a.im * a.im
  }

  /** The functions of numpy and scipy.special used by the optics code:
      `sqrt`, `arctan2(y, x)`, real `exp`, `cos` and `sin` (which make up
      `exp(1j * t)`), and the Bessel functions `jv(order, x)`, `iv(order, x)`. */
  datatype Library = Library(
    sqrt: real -> real,
    arctan2: (real, real) -> real,
    exp: real -> real,
    cos: real -> real,
    sin: real -> real,
    jv: (real, real) -> real,
    iv: (real, real) -> real)

  /** `exp(1j * t)` for a real `t`. */
  function Expi(lib: Library, t: real): Complex
  {
    Complex(lib.cos(t), lib.sin(t))
  }

  /** `sqrt` returns the non-negative square root of a non-negative argument. */
  ghost predicate SqrtLaws(lib: Library)
  {
    forall x :: 0.0 <= x ==> 0.0 <= lib.sqrt(x) && lib.sqrt(x) * lib.sqrt(x) == x
  }

  /** `cos(t)^2 + sin(t)^2 == 1`, so `exp(1j * t)` lies on the unit circle. */
  ghost predicate UnitCircle(lib: Library)
  {
    forall t :: lib.cos(t) * lib.cos(t) + lib.sin(t) * lib.sin(t) == 1.0
  }

  /** For non-negative reals, squaring preserves and reflects order. */
  lemma SquareOrder(x: real, y: real)
    requires 0.0 <= x && 0.0 <= y
    ensures x <= y ==> x * x <= y * y
    ensures y < x ==> y * y < x * x
  {
    var d, t := x - y, x + y;
    assert x * x - y * y == d * t;
    assert 0.0 <= t;
    if y < x {
      assert 0.0 < d && 0.0 < t;
      assert d * t > 0.0;
    } else {
      assert 0.0 <= -d;
      assert (-d) * t >= 0.0;
    }
  }

  lemma SqrtOfOne(lib: Library)
    requires SqrtLaws(lib)
    ensures lib.sqrt(1.0) == 1.0
  {
    var s := lib.sqrt(1.0);
    assert 0.0 <= s && s * s == 1.0 * 1.0;
    SquareOrder(s, 1.0);
    SquareOrder(1.0, s);
  }

  lemma SqrtOfZero(lib: Library)
    requires SqrtLaws(lib)
    ensures lib.sqrt(0.0) == 0.0
  {
    var s := lib.sqrt(0.0);
    assert 0.0 <= s && s * s == 0.0;
    SquareOrder(s, 0.0);
  }

  lemma SqrtMonotone(lib: Library, a: real, b: real)
    requires SqrtLaws(lib)
    requires 0.0 <= a <= b
    ensures lib.sqrt(a) <= lib.sqrt(b)
  {
    var sa, sb := lib.sqrt(a), lib.sqrt(b);
    assert 0.0 <= sa && sa * sa == a;
    assert 0.0 <= sb && sb * sb == b;
    SquareOrder(sa, sb);
  }

  /** The squared modulus of a product is the product of the squared moduli. */
  lemma Norm2OfMul(a: Complex, b: Complex)
    ensures Norm2(Mul(a, b)) == Norm2(a) * Norm2(b)
  {
    var p, q, r, s := a.re, a.im, b.re, b.im;
    calc {
      Norm2(Mul(a, b));
      (p * r - q * s) * (p * r - q * s) + (p * s + q * r) * (p * s + q * r);
      p * p * r * r + q * q * s * s + p * p * s * s + q * q * r * r;
      (p * p + q * q) * (r * r + s * s);
    }
  }

  lemma Norm2OfScale(c: real, a: Complex)
    ensures Norm2(Scale(c, a)) == c * c * Norm2(a)
  {
  }

  lemma Norm2OfExpi(lib: Library, t: real)
    requires UnitCircle(lib)
    ensures Norm2(Expi(lib, t)) == 1.0
  {
  }

  // ---------------------------------------------------------------------
  // Order facts about reals

  function Abs(a: real): (r: real)
    ensures r >= 0.0 && (r == a || r == -a)
  {
    if a < 0.0 then -a else a
  }

  /** `(a / b) ** 2 == (|a| / |b|) ** 2`. */
  lemma AbsQuotient(a: real, b: real)
    requires b != 0.0
    ensures (a / b) * (a / b) == (Abs(a) / Abs(b)) * (Abs(a) / Abs(b))
  {
    var q := a / b;
    assert Abs(a) / Abs(b) == q || Abs(a) / Abs(b) == -q;
  }

  lemma ProductPositive(a: real, b: real)
    requires a > 0.0 && b > 0.0
    ensures a * b > 0.0
  {
    ScaleMonotone(a, 0.0, b);
  }

  /** `c * a <= c * b` for `c >= 0` and `a <= b`. */
  lemma ScaleMonotone(c: real, a: real, b: real)
    requires 0.0 <= c && a <= b
    ensures c * a <= c * b
  {
    assert c * b - c * a == c * (b - a);
  }

  /** Dividing by a positive number preserves order. */
  lemma DivideMonotone(p: real, q: real, c: real)
    requires c > 0.0 && p <= q
    ensures p / c <= q / c
  {
    var ic := 1.0 / c;
    assert ic * c == 1.0;
    assert ic > 0.0;
    assert p / c == p * ic && q / c == q * ic;
    ScaleMonotone(ic, p, q);
  }

  /** Replacing a factor by an equal one. */
  lemma MulCongruence(a: real, b: real, c: real)
    requires b == c
    ensures a * b == a * c
  {
  }

  /** `|a| ** 2 == a ** 2`. */
  lemma SquareOfAbs(a: real)
    ensures Abs(a) * Abs(a) == a * a
  {
    assert (-a) * (-a) == a * a;
  }
}
