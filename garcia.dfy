/** Garcia and Garcia (2018) generalised bottom-effect correction: a
    geometry-keyed table of four term functions per geometry, of which the
    first `order` are added to 1. */
module GarciaGarcia {
  import opened BecCommon

  /** The keys of the geometry table. */
  datatype Geometry = Paraboloid | Conical | FlatPunch

  /** Every geometry's table holds four terms (orders 1 to 4). */
  const TableLength: nat := 4

  /** Looking a tag up in the geometry table: only "paraboloid", "conical"
      and "flat_punch" are keys. */
  function Lookup(tag: string): (r: Option<Geometry>)
  {
    if tag == "paraboloid" then Some(Paraboloid)
    else if tag == "conical" then Some(Conical)
    else if tag == "flat_punch" then Some(FlatPunch)
    else None
  }

  /** The literature constants of the four terms of each geometry. */
  const ParaboloidConstants: seq<real> := [1.133, 1.497, 1.469, 0.755]
  const ConicalConstants: seq<real> := [0.721, 0.650, 0.491, 0.225]
  const FlatPunchConstants: seq<real> := [1.133, 1.283, 0.598, 0.291]

  /** Term j (order j + 1) of the paraboloid table at height h, depth d
      and tip radius R. */
  function ParaboloidTerm(sqrt: real -> real, j: nat, h: real, d: real, R: real): (r: real)
    requires j < TableLength && h > 0.0
  {
    var c := ParaboloidConstants;
    if j == 0 then (c[0] * sqrt(d * R)) / h
    else if j == 1 then (c[1] * d * R) / Pow(h, 2)
    else if j == 2 then (c[2] * d * R * sqrt(d * R)) / Pow(h, 3)
    else (c[3] * Pow(d, 2) * Pow(R, 2)) / Pow(h, 4)
  }

  /** Term j of the conical table at height h and depth d, for the
      tangent t of the half-opening angle; the four terms share the shape
      c_k d^k t^k / h^k with k = j + 1. */
  function ConicalTerm(j: nat, h: real, d: real, t: real): (r: real)
    requires j < TableLength && h > 0.0
  {
    (ConicalConstants[j] * Pow(d, j + 1) * Pow(t, j + 1)) / Pow(h, j + 1)
  }

  /** Term j of the flat-punch table at height h and punch radius R; the
      depth plays no part, and the order-4 term is subtracted. */
  function FlatPunchTerm(j: nat, h: real, R: real): (r: real)
    requires j < TableLength && h > 0.0
  {
    var c := FlatPunchConstants;
    if j == 0 then (c[0] * R) / h
    else if j == 1 then (c[1] * Pow(R, 2)) / Pow(h, 2)
    else if j == 2 then (c[2] * Pow(R, 3)) / Pow(h, 3)
    else -(c[3] * Pow(R, 4)) / Pow(h, 4)
  }

  /** Term j (order j + 1) of geometry g's table, evaluated at height h,
      depth d and tip parameter p: the radius for the paraboloid and the
      flat punch, the half-opening angle for the cone. */
  function Term(sqrt: real -> real, tan: real -> real, g: Geometry, j: nat, h: real, d: real, p: real): (r: real)
    requires j < TableLength && h > 0.0
  {
    match g
    case Paraboloid => ParaboloidTerm(sqrt, j, h, d, p)
    case Conical => ConicalTerm(j, h, d, tan(p))
    case FlatPunch => FlatPunchTerm(j, h, p)
  }

  /** The sum of the first n terms of geometry g's table. */
  function PartialSum(sqrt: real -> real, tan: real -> real, g: Geometry, n: nat, h: real, d: real, p: real): (r: real)
    requires n <= TableLength && h > 0.0
  {
    if n == 0 then 0.0
    else PartialSum(sqrt, tan, g, n - 1, h, d, p) + Term(sqrt, tan, g, n - 1, h, d, p)
  }

  /** The coefficient of one sample: no correction without a positive
      height; 1 plus the first `order` terms when the table has them (a
      negative order selects none); and, when it does not, the fallback
      value 1 that replaces a sample whose evaluation raised. */
  function Coefficient(sqrt: real -> real, tan: real -> real, g: Geometry, h: real, d: real, p: real, order: int): (r: real)
  {
    if h <= 0.0 then 1.0
    else if order > TableLength then 1.0
    else 1.0 + PartialSum(sqrt, tan, g, if order < 0 then 0 else order, h, d, p)
  }

  /** The body of the try block for one sample: start from 1 and add the
      terms of orders 1 to `order`; asking the table for a term it does not
      have raises, which is None here. */
  method Sample(sqrt: real -> real, tan: real -> real, g: Geometry, h: real, d: real, p: real, order: int)
    returns (s: Option<real>)
    ensures h <= 0.0 ==> s == Some(1.0)
    ensures h > 0.0 && order > TableLength ==> s == None
    ensures h > 0.0 && order <= TableLength ==>
              s == Some(1.0 + PartialSum(sqrt, tan, g, if order < 0 then 0 else order, h, d, p))
  {
    var coeff := 1.0;
    if h > 0.0 {
      var j := 0;
      while j < order
        invariant 0 <= j <= TableLength
        invariant j == 0 || j <= order
        invariant coeff == 1.0 + PartialSum(sqrt, tan, g, j, h, d, p)
      {
        if j >= TableLength {
          return None;
        }
        coeff := coeff + Term(sqrt, tan, g, j, h, d, p);
        j := j + 1;
      }
    }
    return Some(coeff);
  }

  /** The provider: reject a tag that is not a key of the table, then emit
      one coefficient per indentation sample, in order, a sample whose
      evaluation raised contributing 1. */
  method Bec(sqrt: real -> real, tan: real -> real, h: real, indentation: seq<real>, shape: string, tip: real, order: int := 4)
    returns (r: Result<seq<real>>)
    ensures r.Err? <==> shape != "paraboloid" && shape != "conical" && shape != "flat_punch"
    ensures r.Err? ==> r.error == UnsuitableGeometry(GarciaGarcia, shape)
    ensures r.Ok? ==> Lookup(shape).Some? && |r.value| == |indentation|
    ensures r.Ok? ==> forall i :: 0 <= i < |indentation| ==>
              r.value[i] == Coefficient(sqrt, tan, Lookup(shape).value, h, indentation[i], tip, order)
  {
    var factors := Lookup(shape);
    if factors.None? {
      return Err(UnsuitableGeometry(GarciaGarcia, shape));
    }
    var g := factors.value;
    var coefficients: seq<real> := [];
    for i := 0 to |indentation|
      invariant |coefficients| == i
      invariant forall k :: 0 <= k < i ==> coefficients[k] == Coefficient(sqrt, tan, g, h, indentation[k], tip, order)
    {
      var s := Sample(sqrt, tan, g, h, indentation[i], tip, order);
      var coeff := if s.Some? then s.value else 1.0;
      coefficients := coefficients + [coeff];
    }
    return Ok(coefficients);
  }

  /** Without a positive sample height no correction is applied, whatever
      the order. */
  lemma IdentityWithoutHeight(sqrt: real -> real, tan: real -> real, g: Geometry, h: real, d: real, p: real, order: int)
    requires h <= 0.0
    ensures Coefficient(sqrt, tan, g, h, d, p, order) == 1.0
  {
  }

  /** An order of 0 or less selects no term. */
  lemma NoTermSelected(sqrt: real -> real, tan: real -> real, g: Geometry, h: real, d: real, p: real, order: int)
    requires order <= 0
    ensures Coefficient(sqrt, tan, g, h, d, p, order) == 1.0
  {
  }

  /** An order beyond the table makes every sample fall back to 1. */
  lemma OrderBeyondTable(sqrt: real -> real, tan: real -> real, g: Geometry, h: real, d: real, p: real, order: int)
    requires order > TableLength
    ensures Coefficient(sqrt, tan, g, h, d, p, order) == 1.0
  {
  }

  /** Raising the order by one within the table adds exactly the next term. */
  lemma OrderStep(sqrt: real -> real, tan: real -> real, g: Geometry, h: real, d: real, p: real, k: nat)
    requires h > 0.0 && k < TableLength
    ensures Coefficient(sqrt, tan, g, h, d, p, k + 1)
         == Coefficient(sqrt, tan, g, h, d, p, k) + Term(sqrt, tan, g, k, h, d, p)
  {
  }

  /** The flat-punch terms do not depend on the depth, so one call gives
      every sample the same coefficient. */
  lemma {:induction false} FlatPunchUniform(sqrt: real -> real, tan: real -> real, h: real, d1: real, d2: real, p: real, order: int)
    ensures Coefficient(sqrt, tan, FlatPunch, h, d1, p, order) == Coefficient(sqrt, tan, FlatPunch, h, d2, p, order)
  {
    if h > 0.0 && order <= TableLength {
      FlatPunchSumUniform(sqrt, tan, h, d1, d2, p, if order < 0 then 0 else order);
    }
  }

  lemma {:induction false} FlatPunchSumUniform(sqrt: real -> real, tan: real -> real, h: real, d1: real, d2: real, p: real, n: nat)
    requires h > 0.0 && n <= TableLength
    ensures PartialSum(sqrt, tan, FlatPunch, n, h, d1, p) == PartialSum(sqrt, tan, FlatPunch, n, h, d2, p)
  {
    if n > 0 {
      FlatPunchSumUniform(sqrt, tan, h, d1, d2, p, n - 1);
    }
  }

  /** The order-4 flat-punch term is the one negative term: it lowers the
      coefficient for any non-zero radius. */
  lemma FlatPunchLastTermNegative(h: real, p: real)
    requires h > 0.0 && p != 0.0
    ensures FlatPunchTerm(3, h, p) < 0.0
  {
    PowAdd(p, 2, 2);
    PowOfProduct(p, p, 2);
    SquarePositive(p);
    var c, p4 := FlatPunchConstants[3], Pow(p, 4);
    assert p4 == Pow(p * p, 2);
    assert c == 0.291;
    MulNonNeg(c, p4);
    DivNonNeg(c * p4, Pow(h, 4));
    NegatedQuotient(c * p4, Pow(h, 4));
  }

  /** The conical term of order k is c_k (d t / h)^k: a power series in
      d tan(theta) / h. */
  lemma {:induction false} ConicalTermIsPower(j: nat, h: real, d: real, t: real)
    requires j < TableLength && h > 0.0
    ensures ConicalTerm(j, h, d, t) == ConicalConstants[j] * Pow(d * t / h, j + 1)
  {
    PowerOfRatio(ConicalConstants[j], d, t, h, j + 1);
  }

  /** c d^n t^n / h^n == c (d t / h)^n */
  lemma {:induction false} PowerOfRatio(c: real, d: real, t: real, h: real, n: nat)
    requires h > 0.0
    ensures (c * Pow(d, n) * Pow(t, n)) / Pow(h, n) == c * Pow(d * t / h, n)
  {
    PowOfQuotient(d * t, h, n);
    PowOfProduct(d, t, n);
    ScaleQuotient(c, Pow(d, n), Pow(t, n), Pow(h, n));
  }

  lemma NegatedQuotient(a: real, b: real)
    requires b != 0.0
    ensures (-a) / b == -(a / b)
  {
  }

  lemma ScaleQuotient(c: real, a: real, b: real, e: real)
    requires e != 0.0
    ensures c * ((a * b) / e) == (c * a * b) / e
  {
  }

  /** With a positive height, a zero indentation makes every paraboloid and
      conical term vanish, whatever the order. */
  lemma {:induction false} NeutralAtZeroDepth(sqrt: real -> real, tan: real -> real, g: Geometry, h: real, p: real, order: int)
    requires IsSqrt(sqrt) && g != FlatPunch
    ensures Coefficient(sqrt, tan, g, h, 0.0, p, order) == 1.0
  {
    if h > 0.0 && order <= TableLength {
      ZeroDepthSum(sqrt, tan, g, h, p, if order < 0 then 0 else order);
    }
  }

  lemma {:induction false} ZeroDepthSum(sqrt: real -> real, tan: real -> real, g: Geometry, h: real, p: real, n: nat)
    requires IsSqrt(sqrt) && g != FlatPunch
    requires h > 0.0 && n <= TableLength
    ensures PartialSum(sqrt, tan, g, n, h, 0.0, p) == 0.0
  {
    if n > 0 {
      ZeroDepthSum(sqrt, tan, g, h, p, n - 1);
      assert 0.0 * p == 0.0;
    }
  }
}
