/** Kontomaris (2021) approximation of the spherical indenter by a series
    of six terms in the depth d and the sphere radius R (equation 17 of the
    paper). Unlike the other providers it returns the sum of the selected
    terms, scaled by 3/2 sqrt(R), without adding 1, and it ignores the
    sample height. */
module Kontomaris {
  import opened BecCommon

  /** The table holds six terms (orders 1 to 6). */
  const TableLength: nat := 6

  /** The constants c1..c6 of equation 17. */
  const Constants: seq<real> := [1.01, -0.07303, -0.1357, 0.03598, -0.004024, 0.0001653]

  /** The terms have a real value: the radius is positive and its root
      is non-zero (at R = 0 the library divides by zero and produces an
      infinity, and for R < 0 its square root is NaN). */
  ghost predicate Defined(sqrt: real -> real, R: real)
  {
    R > 0.0 && sqrt(R) != 0.0
  }

  /** Term j (order j + 1) of the table at depth d and radius R. */
  function Term(sqrt: real -> real, j: nat, d: real, R: real): (r: real)
    requires j < TableLength && Defined(sqrt, R)
  {
    var c := Constants;
    if j == 0 then 2.0 / 3.0 * c[0] / sqrt(R)
    else if j == 1 then 1.0 / 2.0 * c[1] * sqrt(d) / R
    else if j == 2 then 1.0 / 3.0 * c[2] * d * sqrt(d) / Pow(R, 2)
    else if j == 3 then 1.0 / 4.0 * c[3] * Pow(d, 2) * sqrt(d) / Pow(R, 3)
    else if j == 4 then 1.0 / 5.0 * c[4] * Pow(d, 3) * sqrt(d) / Pow(R, 4)
    else 1.0 / 6.0 * c[5] * Pow(d, 4) * sqrt(d) / Pow(R, 5)
  }

  /** What term j adds to the coefficient: the term scaled by 3/2 sqrt(R). */
  function Contribution(sqrt: real -> real, j: nat, d: real, R: real): (r: real)
    requires j < TableLength && Defined(sqrt, R)
  {
    3.0 / 2.0 * sqrt(R) * Term(sqrt, j, d, R)
  }

  /** The sum of the contributions of the first n terms. */
  function PartialSum(sqrt: real -> real, n: nat, d: real, R: real): (r: real)
    requires n <= TableLength && (n > 0 ==> Defined(sqrt, R))
  {
    if n == 0 then 0.0
    else PartialSum(sqrt, n - 1, d, R) + Contribution(sqrt, n - 1, d, R)
  }

  /** The coefficient of one sample: the contributions of the first
      `order` terms when the table has them (a negative order selects
      none); and, when it does not, the fallback value 1 that replaces a
      sample whose evaluation raised. */
  function Coefficient(sqrt: real -> real, d: real, R: real, order: int): (r: real)
    requires 1 <= order <= TableLength ==> Defined(sqrt, R)
  {
    if order > TableLength then 1.0
    else PartialSum(sqrt, if order < 0 then 0 else order, d, R)
  }

  /** The body of the try block for one sample: start from 0 and add the
      contributions of orders 1 to `order`; asking the table for a term it
      does not have raises, which is None here. */
  method Sample(sqrt: real -> real, d: real, R: real, order: int) returns (s: Option<real>)
    requires 1 <= order ==> Defined(sqrt, R)
    ensures order > TableLength ==> s == None
    ensures order <= TableLength ==> s == Some(PartialSum(sqrt, if order < 0 then 0 else order, d, R))
  {
    var coeff := 0.0;
    var j := 0;
    while j < order
      invariant 0 <= j <= TableLength
      invariant j == 0 || j <= order
      invariant coeff == PartialSum(sqrt, j, d, R)
    {
      if j >= TableLength {
        return None;
      }
      coeff := coeff + 3.0 / 2.0 * sqrt(R) * Term(sqrt, j, d, R);
      j := j + 1;
    }
    return Some(coeff);
  }

  /** The provider: reject every geometry but "paraboloid", then emit one
      coefficient per indentation sample, in order, a sample whose
      evaluation raised contributing 1. The height h is accepted and
      ignored. */
  method Bec(sqrt: real -> real, h: real, indentation: seq<real>, shape: string, R: real, order: int := 6)
    returns (r: Result<seq<real>>)
    requires 1 <= order ==> Defined(sqrt, R)
    ensures r.Err? <==> shape != "paraboloid"
    ensures r.Err? ==> r.error == UnsuitableGeometry(KontomarisSphere, shape)
    ensures r.Ok? ==> |r.value| == |indentation|
    ensures r.Ok? ==> forall i :: 0 <= i < |indentation| ==>
              r.value[i] == Coefficient(sqrt, indentation[i], R, order)
  {
    if shape != "paraboloid" {
      return Err(UnsuitableGeometry(KontomarisSphere, shape));
    }
    var coefficients: seq<real> := [];
    for i := 0 to |indentation|
      invariant |coefficients| == i
      invariant forall k :: 0 <= k < i ==> coefficients[k] == Coefficient(sqrt, indentation[k], R, order)
    {
      var s := Sample(sqrt, indentation[i], R, order);
      var coeff := if s.Some? then s.value else 1.0;
      coefficients := coefficients + [coeff];
    }
    return Ok(coefficients);
  }

  /** An order of 0 or less selects no term, and the coefficient is 0. */
  lemma NoTermSelected(sqrt: real -> real, d: real, R: real, order: int)
    requires order <= 0
    ensures Coefficient(sqrt, d, R, order) == 0.0
  {
  }

  /** An order beyond the table makes every sample fall back to 1,
      whatever the radius. */
  lemma OrderBeyondTable(sqrt: real -> real, d: real, R: real, order: int)
    requires order > TableLength
    ensures Coefficient(sqrt, d, R, order) == 1.0
  {
  }

  /** Raising the order by one within the table adds exactly the next
      contribution. */
  lemma OrderStep(sqrt: real -> real, d: real, R: real, k: nat)
    requires k < TableLength && Defined(sqrt, R)
    ensures Coefficient(sqrt, d, R, k + 1) == Coefficient(sqrt, d, R, k) + Contribution(sqrt, k, d, R)
  {
  }

  /** The first contribution is the constant c1 = 1.01, whatever the depth
      and the (positive) radius. */
  lemma LeadingContribution(sqrt: real -> real, d: real, R: real)
    requires IsSqrt(sqrt) && R > 0.0
    ensures Defined(sqrt, R)
    ensures Contribution(sqrt, 0, d, R) == 1.01
  {
    SqrtOfPositive(sqrt, R);
    CancelRoot(sqrt(R), Constants[0]);
  }

  lemma CancelRoot(s: real, a: real)
    requires s != 0.0
    ensures 3.0 / 2.0 * s * (2.0 / 3.0 * a / s) == a
  {
    var q := 2.0 / 3.0 * a / s;
    assert q * s == 2.0 / 3.0 * a;
  }

  /** Every term past the first carries a factor sqrt(d), so it vanishes at
      zero depth. */
  lemma HigherTermVanishes(sqrt: real -> real, j: nat, R: real)
    requires IsSqrt(sqrt) && 1 <= j < TableLength && Defined(sqrt, R)
    ensures Term(sqrt, j, 0.0, R) == 0.0
  {
  }

  /** At zero depth, any order from 1 to 6 gives exactly c1 = 1.01. */
  lemma {:induction false} ZeroDepth(sqrt: real -> real, R: real, order: int)
    requires IsSqrt(sqrt) && R > 0.0 && 1 <= order <= TableLength
    ensures Defined(sqrt, R)
    ensures Coefficient(sqrt, 0.0, R, order) == 1.01
  {
    LeadingContribution(sqrt, 0.0, R);
    ZeroDepthSum(sqrt, R, order);
  }

  lemma {:induction false} ZeroDepthSum(sqrt: real -> real, R: real, n: nat)
    requires IsSqrt(sqrt) && R > 0.0 && 1 <= n <= TableLength
    ensures Defined(sqrt, R)
    ensures PartialSum(sqrt, n, 0.0, R) == 1.01
  {
    LeadingContribution(sqrt, 0.0, R);
    if n > 1 {
      ZeroDepthSum(sqrt, R, n - 1);
      HigherTermVanishes(sqrt, n - 1, R);
    }
  }

  /** To first order the approximation is the constant 1.01 at every
      depth. */
  lemma FirstOrderConstant(sqrt: real -> real, d: real, R: real)
    requires IsSqrt(sqrt) && R > 0.0
    ensures Defined(sqrt, R)
    ensures Coefficient(sqrt, d, R, 1) == 1.01
  {
    LeadingContribution(sqrt, d, R);
    assert PartialSum(sqrt, 1, d, R) == 0.0 + Contribution(sqrt, 0, d, R);
  }
}
