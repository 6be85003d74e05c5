/** Dimitriadis et al. (2002) bottom-effect correction for a paraboloid
    indenter: a fourth-degree polynomial in X = sqrt(d R) / h, with one set
    of constants for a sample bonded to its substrate (equation 12) and one
    for a sample that is not (equation 11). */
module Dimitriadis {
  import opened BecCommon

  datatype Substrate = Bonded | NotBonded

  /** The constants a1..a4 of the series 1 + a1 X + a2 X^2 + a3 X^3 + a4 X^4. */
  datatype Series = Series(a1: real, a2: real, a3: real, a4: real)

  function Constants(substrate: Substrate): (r: Series)
  {
    match substrate
    case Bonded => Series(1.133, 1.283, 0.769, 0.0975)
    case NotBonded => Series(0.884, 0.781, 0.386, 0.0048)
  }

  function ProviderOf(substrate: Substrate): (r: Provider)
  {
    match substrate
    case Bonded => DimitriadisBonded
    case NotBonded => DimitriadisNotBonded
  }

  /** The polynomial 1 + a1 X + a2 X^2 + a3 X^3 + a4 X^4. */
  function Polynomial(c: Series, x: real): (r: real)
  {
    1.0 + (c.a1 * x + c.a2 * (x * x)) + (c.a3 * (x * x * x) + c.a4 * (x * x * x * x))
  }

  /** The coefficient of one sample of depth d: no correction without a
      positive sample height, the series in X = sqrt(d R) / h otherwise. */
  function Coefficient(substrate: Substrate, sqrt: real -> real, h: real, d: real, R: real): (r: real)
  {
    if h > 0.0 then Polynomial(Constants(substrate), sqrt(d * R) / h) else 1.0
  }

  /** Both providers: reject every geometry but "paraboloid", then emit one
      coefficient per indentation sample, in order. */
  method Bec(substrate: Substrate, sqrt: real -> real, h: real, indentation: seq<real>, shape: string, R: real)
    returns (r: Result<seq<real>>)
    ensures r.Err? <==> shape != "paraboloid"
    ensures r.Err? ==> r.error == UnsuitableGeometry(ProviderOf(substrate), shape)
    ensures r.Ok? ==> |r.value| == |indentation|
    ensures r.Ok? ==> forall i :: 0 <= i < |indentation| ==>
              r.value[i] == Coefficient(substrate, sqrt, h, indentation[i], R)
  {
    if shape != "paraboloid" {
      return Err(UnsuitableGeometry(ProviderOf(substrate), shape));
    }
    var c := Constants(substrate);
    var coefficients: seq<real> := [];
    for i := 0 to |indentation|
      invariant |coefficients| == i
      invariant forall k :: 0 <= k < i ==> coefficients[k] == Coefficient(substrate, sqrt, h, indentation[k], R)
    {
      var coeff := 1.0;
      if h > 0.0 {
        var x := sqrt(indentation[i] * R) / h;
        coeff := Polynomial(c, x);
      }
      coefficients := coefficients + [coeff];
    }
    return Ok(coefficients);
  }

  /** Without a positive sample height no correction is applied. */
  lemma IdentityWithoutHeight(substrate: Substrate, sqrt: real -> real, h: real, d: real, R: real)
    requires h <= 0.0
    ensures Coefficient(substrate, sqrt, h, d, R) == 1.0
  {
  }

  /** The series never lowers the modulus when X >= 0, and leaves it
      unchanged exactly when X == 0. */
  lemma {:induction false} PolynomialAtLeastOne(substrate: Substrate, x: real)
    requires 0.0 <= x
    ensures Polynomial(Constants(substrate), x) >= 1.0
    ensures Polynomial(Constants(substrate), x) == 1.0 <==> x == 0.0
  {
    var c := Constants(substrate);
    assert 0.0 <= x * x;
    assert 0.0 <= x * x * x;
    assert 0.0 <= x * x * x * x;
    if x > 0.0 {
      assert c.a1 * x > 0.0;
    }
  }

  /** With a positive height and a non-negative product d R, the
      coefficient is at least 1, and it is exactly 1 iff d R == 0 (in
      particular at zero indentation). */
  lemma {:induction false} AtLeastOne(substrate: Substrate, sqrt: real -> real, h: real, d: real, R: real)
    requires IsSqrt(sqrt)
    requires h > 0.0 && d * R >= 0.0
    ensures Coefficient(substrate, sqrt, h, d, R) >= 1.0
    ensures Coefficient(substrate, sqrt, h, d, R) == 1.0 <==> d * R == 0.0
  {
    var s := sqrt(d * R);
    assert 0.0 <= s && s * s == d * R;
    assert s / h >= 0.0;
    assert s / h == 0.0 <==> s == 0.0;
    PolynomialAtLeastOne(substrate, s / h);
  }

  /** Zero indentation gives no correction, whatever R is. */
  lemma NeutralAtZeroDepth(substrate: Substrate, sqrt: real -> real, h: real, R: real)
    requires IsSqrt(sqrt)
    ensures Coefficient(substrate, sqrt, h, 0.0, R) == 1.0
  {
    assert 0.0 * R == 0.0;
  }

  /** Every constant of the bonded series exceeds the not-bonded one, so a
      bonded sample is always corrected more, for the same X > 0. */
  lemma BondedCorrectsMore(x: real)
    requires x > 0.0
    ensures Polynomial(Constants(Bonded), x) > Polynomial(Constants(NotBonded), x)
  {
  }

  /** A worked case: h = 2, d = 0.5, R = 5 on a bonded sample gives
      X = sqrt(2.5) / 2, about 0.7906, and a coefficient of about 3.1156. */
  lemma BondedWorkedCase(sqrt: real -> real)
    requires IsSqrt(sqrt)
    ensures 3.115 < Coefficient(Bonded, sqrt, 2.0, 0.5, 5.0) < 3.116
  {
    var s := sqrt(0.5 * 5.0);
    assert 0.0 <= s && s * s == 2.5;
    SquareOrder(1.581, s);
    SquareOrder(s, 1.5812);
    var x := s / 2.0;
    assert 0.7905 < x < 0.7906;
    PolynomialBetween(x);
  }

  lemma PolynomialBetween(x: real)
    requires 0.7905 < x < 0.7906
    ensures 3.115 < Polynomial(Constants(Bonded), x) < 3.116
  {
    var x2 := x * x;
    assert 0.62489025 < x2 < 0.62504836;
    var x3 := x2 * x;
    assert 0.493975 < x3 < 0.494164;
    var x4 := x3 * x;
    assert 0.390487 < x4 < 0.390687;
  }
}
