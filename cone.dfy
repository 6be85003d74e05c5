/** The two second-order bottom-effect corrections for a conical indenter
    of half-opening angle theta: Gavara and Chadwick (2012) and Managuli et
    al. (2018), both quadratic in d / h with t = tan(theta). */
module ConeModels {
  import opened BecCommon

  /** Gavara's series 1 + 1.7795 (2 t / pi^2) X + 16 (1.7795)^2 t^2 X^2 in
      X = d / h, with t = tan(theta). */
  function GavaraSeries(t: real, x: real): (r: real)
  {
    1.0 + 1.7795 * (2.0 * t / (Pi * Pi)) * x + 16.0 * (1.7795 * 1.7795) * (t * t) * (x * x)
  }

  /** Gavara's coefficient for one sample: no correction without a positive
      sample height. */
  function GavaraCoefficient(tan: real -> real, h: real, d: real, theta: real): (r: real)
  {
    if h > 0.0 then GavaraSeries(tan(theta), d / h) else 1.0
  }

  /** Managuli's constant C = 1.7795 t / pi^2. */
  function ManaguliC(t: real): (r: real)
  {
    (1.7795 * t) / (Pi * Pi)
  }

  /** Managuli's series 1 + 4 C d / h + 20 C^2 d^2 / h^2. */
  function ManaguliSeries(c: real, d: real, h: real): (r: real)
    requires h != 0.0
  {
    1.0 + 4.0 * c * d / h + 20.0 * (c * c) * (d * d) / (h * h)
  }

  /** Managuli's coefficient for one sample: no correction without a
      positive sample height. */
  function ManaguliCoefficient(tan: real -> real, h: real, d: real, theta: real): (r: real)
  {
    if h > 0.0 then ManaguliSeries(ManaguliC(tan(theta)), d, h) else 1.0
  }

  /** Gavara's provider: reject every geometry but "cone", then emit one
      coefficient per indentation sample, in order. */
  method BecGavara(tan: real -> real, h: real, indentation: seq<real>, shape: string, theta: real)
    returns (r: Result<seq<real>>)
    ensures r.Err? <==> shape != "cone"
    ensures r.Err? ==> r.error == UnsuitableGeometry(GavaraCone, shape)
    ensures r.Ok? ==> |r.value| == |indentation|
    ensures r.Ok? ==> forall i :: 0 <= i < |indentation| ==>
              r.value[i] == GavaraCoefficient(tan, h, indentation[i], theta)
  {
    if shape != "cone" {
      return Err(UnsuitableGeometry(GavaraCone, shape));
    }
    var coefficients: seq<real> := [];
    for i := 0 to |indentation|
      invariant |coefficients| == i
      invariant forall k :: 0 <= k < i ==> coefficients[k] == GavaraCoefficient(tan, h, indentation[k], theta)
    {
      var coeff := 1.0;
      if h > 0.0 {
        var x := indentation[i] / h;
        var t := tan(theta);
        coeff := GavaraSeries(t, x);
      }
      coefficients := coefficients + [coeff];
    }
    return Ok(coefficients);
  }

  /** Managuli's provider: reject every geometry but "cone", then emit one
      coefficient per indentation sample, in order. */
  method BecManaguli(tan: real -> real, h: real, indentation: seq<real>, shape: string, theta: real)
    returns (r: Result<seq<real>>)
    ensures r.Err? <==> shape != "cone"
    ensures r.Err? ==> r.error == UnsuitableGeometry(ManaguliCone, shape)
    ensures r.Ok? ==> |r.value| == |indentation|
    ensures r.Ok? ==> forall i :: 0 <= i < |indentation| ==>
              r.value[i] == ManaguliCoefficient(tan, h, indentation[i], theta)
  {
    if shape != "cone" {
      return Err(UnsuitableGeometry(ManaguliCone, shape));
    }
    var coefficients: seq<real> := [];
    for i := 0 to |indentation|
      invariant |coefficients| == i
      invariant forall k :: 0 <= k < i ==> coefficients[k] == ManaguliCoefficient(tan, h, indentation[k], theta)
    {
      var coeff := 1.0;
      if h > 0.0 {
        var c := ManaguliC(tan(theta));
        coeff := ManaguliSeries(c, indentation[i], h);
      }
      coefficients := coefficients + [coeff];
    }
    return Ok(coefficients);
  }

  /** Without a positive sample height neither cone model corrects. */
  lemma IdentityWithoutHeight(tan: real -> real, h: real, d: real, theta: real)
    requires h <= 0.0
    ensures GavaraCoefficient(tan, h, d, theta) == 1.0
    ensures ManaguliCoefficient(tan, h, d, theta) == 1.0
  {
  }

  /** Zero indentation makes every term vanish in both cone models. */
  lemma NeutralAtZeroDepth(tan: real -> real, h: real, theta: real)
    ensures GavaraCoefficient(tan, h, 0.0, theta) == 1.0
    ensures ManaguliCoefficient(tan, h, 0.0, theta) == 1.0
  {
  }

  /** For a positive height, a non-negative depth and a non-negative
      tangent (half-opening angles in [0, pi/2)), Gavara's correction is at
      least 1, and exactly 1 iff the depth or the tangent is 0. */
  lemma {:induction false} GavaraAtLeastOne(tan: real -> real, h: real, d: real, theta: real)
    requires h > 0.0 && d >= 0.0 && tan(theta) >= 0.0
    ensures GavaraCoefficient(tan, h, d, theta) >= 1.0
    ensures GavaraCoefficient(tan, h, d, theta) == 1.0 <==> d == 0.0 || tan(theta) == 0.0
  {
    var t, x := tan(theta), d / h;
    DivNonNeg(d, h);
    PiSquarePositive();
    DivNonNeg(2.0 * t, Pi * Pi);
    MulNonNeg(1.7795 * (2.0 * t / (Pi * Pi)), x);
    MulNonNeg(t, t);
    MulNonNeg(x, x);
    MulNonNeg(16.0 * (1.7795 * 1.7795) * (t * t), x * x);
  }

  /** The same bounds for Managuli's correction. */
  lemma {:induction false} ManaguliAtLeastOne(tan: real -> real, h: real, d: real, theta: real)
    requires h > 0.0 && d >= 0.0 && tan(theta) >= 0.0
    ensures ManaguliCoefficient(tan, h, d, theta) >= 1.0
    ensures ManaguliCoefficient(tan, h, d, theta) == 1.0 <==> d == 0.0 || tan(theta) == 0.0
  {
    var c := ManaguliC(tan(theta));
    PiSquarePositive();
    DivNonNeg(1.7795 * tan(theta), Pi * Pi);
    MulNonNeg(4.0 * c, d);
    DivNonNeg(4.0 * c * d, h);
    MulNonNeg(c, c);
    MulNonNeg(d, d);
    MulNonNeg(h, h);
    MulNonNeg(20.0 * (c * c), d * d);
    DivNonNeg(20.0 * (c * c) * (d * d), h * h);
  }
}
