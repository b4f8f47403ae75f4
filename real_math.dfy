/** Real arithmetic in place of IEEE doubles.
    The transcendental functions the source takes from <cmath> and numpy are
    constants of arrow type with no definition: Dafny knows nothing about them
    except what a lemma assumes through one of the law predicates below. */
module RealMath {

  type PosReal = x: real | x > 0.0 witness 1.0

  const Pi: PosReal

  /** The library functions themselves: values the model knows nothing about. */
  const sqrt: real -> real
  const sin: real -> real
  const cos: real -> real
  const tan: real -> real
  const arccos: real -> real
  const arctan: real -> real

  /** The value an IEEE division by zero produces (an infinity or NaN). */
  const nonFinite: real -> real

  function Sqrt(x: real): real { sqrt(x) }
  function Sin(x: real): real { sin(x) }
  function Cos(x: real): real { cos(x) }
  function Tan(x: real): real { tan(x) }
  function Arccos(x: real): real { arccos(x) }
  function Arctan(x: real): real { arctan(x) }
  function NonFinite(x: real): real { nonFinite(x) }

  /** Floating-point division, total: a quotient by zero is left unspecified. */
  function Div(a: real, b: real): real
  {
    if b != 0.0 then a / b else NonFinite(a)
  }

  function Abs(x: real): real
  {
    if x < 0.0 then -x else x
  }

  /** The identity, kept as a function of its own: x * Same(x) is a product
      of two terms that the solver does not merge into a power. */
  function Same(x: real): real { x }

  /** x squared (the source's pow(x, 2) and x * x). */
  function Sq(x: real): real { x * Same(x) }

  /** sqrt returns the non-negative root of a non-negative argument. */
  ghost predicate SqrtAt(x: real)
  {
    0.0 <= x ==> 0.0 <= Sqrt(x) && Sq(Sqrt(x)) == x
  }

  /** The law holds everywhere; a proof uses it at a point by mentioning
      SqrtAt at that point. */
  ghost predicate SqrtLaw()
  {
    forall x :: SqrtAt(x)
  }

  ghost predicate PythagoreanAt(x: real)
  {
    Sq(Sin(x)) + Sq(Cos(x)) == 1.0
  }

  ghost predicate PythagoreanLaw()
  {
    forall x :: PythagoreanAt(x)
  }

  ghost predicate CofunctionLaw()
  {
    forall x :: Sin(Pi / 2.0 - x) == Cos(x)
  }

  ghost predicate ZeroAngleLaw()
  {
    Sin(0.0) == 0.0 && Cos(0.0) == 1.0
  }

  lemma SqPositive(a: real)
    requires a != 0.0
    ensures 0.0 < Sq(a)
  {
  }

  lemma SqNonNegative(a: real)
    ensures 0.0 <= Sq(a)
  {
  }

  /** Squaring is strictly increasing on the non-negative reals. */
  lemma SqMonotone(a: real, b: real)
    requires 0.0 <= a < b
    ensures Sq(a) < Sq(b)
  {
    assert Sq(b) - Sq(a) == (b - a) * (b + a);
    MulPositive(b - a, b + a);
  }

  lemma MulPositive(u: real, v: real)
    requires 0.0 < u && 0.0 < v
    ensures 0.0 < u * v
  {
  }

  /** The square root is the unique non-negative root. */
  lemma SqrtOfSquare(a: real)
    requires SqrtLaw() && 0.0 <= a
    ensures Sqrt(Sq(a)) == a
  {
    assert SqrtAt(Sq(a));
    var s := Sqrt(Sq(a));
    if s < a {
      SqMonotone(s, a);
    } else if a < s {
      SqMonotone(a, s);
    }
  }

  /** A square root exceeds every number whose square lies below its argument. */
  lemma SqrtAbove(a: real, x: real)
    requires SqrtLaw() && Sq(a) < x
    ensures a < Sqrt(x)
  {
    SqNonNegative(a);
    assert SqrtAt(x);
    if 0.0 <= a && Sqrt(x) <= a {
      if Sqrt(x) < a {
        SqMonotone(Sqrt(x), a);
      }
    }
  }

  lemma SqrtPositive(x: real)
    requires SqrtLaw() && 0.0 < x
    ensures 0.0 < Sqrt(x)
  {
    SqrtAbove(0.0, x);
  }

  lemma SqrtZeroIff(x: real)
    requires SqrtLaw() && 0.0 <= x
    ensures Sqrt(x) == 0.0 <==> x == 0.0
  {
    assert SqrtAt(x);
    if x == 0.0 {
      SqrtOfSquare(0.0);
    }
  }

  lemma SqrtOneIff(y: real)
    requires SqrtLaw() && 0.0 <= y
    ensures Sqrt(y) == 1.0 <==> y == 1.0
  {
    assert SqrtAt(y);
    if y == 1.0 {
      SqrtOfSquare(1.0);
    }
  }

  lemma SqrtAtLeastOne(y: real)
    requires SqrtLaw() && 1.0 <= y
    ensures 1.0 <= Sqrt(y)
  {
    if y == 1.0 {
      SqrtOfSquare(1.0);
    } else {
      SqrtAbove(1.0, y);
    }
  }

  /** sqrt(1 + x^2): a Lorentz factor written in terms of x = |p| / (m c). */
  function MomentumLorentzFactor(x: real): real
  {
    Sqrt(1.0 + Sq(x))
  }

  /** A Lorentz factor is at least 1. */
  lemma MomentumLorentzFactorAtLeastOne(x: real)
    requires SqrtLaw()
    ensures 1.0 <= MomentumLorentzFactor(x)
  {
    SqNonNegative(x);
    SqrtAtLeastOne(1.0 + Sq(x));
  }

  lemma CosOfComplement(x: real)
    requires CofunctionLaw()
    ensures Cos(Pi / 2.0 - x) == Sin(x)
  {
    assert Sin(Pi / 2.0 - (Pi / 2.0 - x)) == Cos(Pi / 2.0 - x);
    assert Pi / 2.0 - (Pi / 2.0 - x) == x;
  }

  /** sin(pi/2) = 1 and cos(pi/2) = 0 follow from the cofunction identity at 0. */
  lemma RightAngle()
    requires CofunctionLaw() && ZeroAngleLaw()
    ensures Sin(Pi / 2.0) == 1.0 && Cos(Pi / 2.0) == 0.0
  {
    assert Sin(Pi / 2.0 - 0.0) == Cos(0.0);
    CosOfComplement(0.0);
  }
}
