/** Vocabulary shared by the bottom-effect-correction (BEC) providers:
    the error they raise, the result they return and the mathematical
    primitives their series are written in. */
module BecCommon {

  /** The six coefficient providers, used to say which one refused a call. */
  datatype Provider =
    | DimitriadisBonded
    | DimitriadisNotBonded
    | GavaraCone
    | ManaguliCone
    | GarciaGarcia
    | KontomarisSphere

  /** The exception a provider raises, before producing any output, when
      it is called with a geometry tag it is not suitable for. */
  datatype Error = UnsuitableGeometry(provider: Provider, tag: string)

  /** A provider either returns its coefficients or raises. */
  datatype Result<T> = Ok(value: T) | Err(error: Error)

  datatype Option<T> = None | Some(value: T)

  /** The double-precision value of pi used by the library, as the exact
      rational it denotes (3.14159265358979311599...). */
  const Pi: real := 884279719003555.0 / 281474976710656.0

  /** What the model knows of the square root it is given: on the
      non-negative reals it is the non-negative square root. Its value on
      negative arguments (NaN in the library) is left open. The root of 0
      being 0 follows from the rest but is stated for the solver's sake. */
  ghost predicate IsSqrt(sqrt: real -> real)
  {
    && sqrt(0.0) == 0.0
    && forall x: real :: 0.0 <= x ==> 0.0 <= sqrt(x) && sqrt(x) * sqrt(x) == x
  }

  lemma PiSquarePositive()
    ensures Pi * Pi > 0.0
  {
  }

  /** Sign of a product of non-negative reals. */
  lemma MulNonNeg(a: real, b: real)
    requires 0.0 <= a && 0.0 <= b
    ensures 0.0 <= a * b
    ensures a * b == 0.0 <==> a == 0.0 || b == 0.0
  {
  }

  /** Sign of a quotient of a non-negative real by a positive one. */
  lemma DivNonNeg(a: real, b: real)
    requires 0.0 <= a && 0.0 < b
    ensures 0.0 <= a / b
    ensures a / b == 0.0 <==> a == 0.0
  {
  }

  lemma SquarePositive(x: real)
    requires x != 0.0
    ensures 0.0 < x * x
  {
  }

  /** Powers of one base multiply by adding exponents. */
  lemma {:induction false} PowAdd(x: real, m: nat, n: nat)
    ensures Pow(x, m + n) == Pow(x, m) * Pow(x, n)
  {
    if m > 0 {
      PowAdd(x, m - 1, n);
      var a, b := Pow(x, m - 1), Pow(x, n);
      assert Pow(x, m + n) == x * (a * b);
      assert x * (a * b) == (x * a) * b;
    }
  }

  /** Squaring is strictly increasing on the non-negative reals. */
  lemma SquareOrder(a: real, b: real)
    requires 0.0 <= a && 0.0 <= b
    ensures a * a < b * b ==> a < b
  {
    if b <= a {
      assert b * b <= a * b;
      assert a * b <= a * a;
    }
  }

  lemma SqrtOfPositive(sqrt: real -> real, x: real)
    requires IsSqrt(sqrt) && 0.0 < x
    ensures 0.0 < sqrt(x)
  {
    var s := sqrt(x);
    assert 0.0 <= s && s * s == x;
  }

  /** x raised to the natural power n (Python's x ** n for a small
      literal n). A positive base gives a positive power and a zero base a
      zero power (except the empty product). */
  function Pow(x: real, n: nat): (r: real)
    ensures 0.0 < x ==> 0.0 < r
    ensures x == 0.0 && n > 0 ==> r == 0.0
  {
    if n == 0 then 1.0 else x * Pow(x, n - 1)
  }

  /** Powers of a quotient are quotients of powers. */
  lemma {:induction false} PowOfQuotient(x: real, y: real, n: nat)
    requires y != 0.0
    ensures Pow(y, n) != 0.0
    ensures Pow(x / y, n) == Pow(x, n) / Pow(y, n)
  {
    if n > 0 {
      PowOfQuotient(x, y, n - 1);
      var a, b := Pow(x, n - 1), Pow(y, n - 1);
      QuotientProduct(x, y, a, b);
      assert Pow(x / y, n) == (x / y) * (a / b);
      assert Pow(x, n) == x * a && Pow(y, n) == y * b;
    }
  }

  lemma QuotientProduct(x: real, y: real, a: real, b: real)
    requires y != 0.0 && b != 0.0
    ensures y * b != 0.0
    ensures (x / y) * (a / b) == (x * a) / (y * b)
  {
    var q1, q2 := x / y, a / b;
    assert x == q1 * y && a == q2 * b;
    assert x * a == (q1 * q2) * (y * b);
  }

  /** Powers of a product are products of powers. */
  lemma {:induction false} PowOfProduct(x: real, y: real, n: nat)
    ensures Pow(x * y, n) == Pow(x, n) * Pow(y, n)
  {
    if n > 0 {
      PowOfProduct(x, y, n - 1);
      var a, b := Pow(x, n - 1), Pow(y, n - 1);
      assert Pow(x * y, n) == (x * y) * (a * b);
      assert (x * y) * (a * b) == (x * a) * (y * b);
    }
  }
}
