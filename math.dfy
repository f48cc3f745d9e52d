/** Scalar helpers of the library (math.hpp): integer absolute value, square,
    the zero test that guards the vector and matrix divisions, and the C++ meaning of `/` on
    integers, which every integer division in the library uses. */
module Math {

  /** An argument of the zero test: the test has one branch for floating
      element types and one for integer element types. A floating value is an
      exact real; `single` marks the single-precision (`float`) instantiation. */
  datatype Scalar = Integer(i: int) | Floating(f: real, single: bool)

  /** EPSILON<T>: 1e-6 for `float`, 1e-15 for every other floating type. */
  function Epsilon(single: bool): (e: real)
    ensures 0.0 < e < 0.00001
    ensures single ==> e == 0.000001
    ensures !single ==> e == 0.000000000000001
  {
    if single then 0.000001 else 0.000000000000001
  }

  /** Math::abs on an integer element type. `signed` selects the branch: a
      signed type flips a negative value, an unsigned type (whose values are
      never negative) returns the value as it is. */
  function Abs(val: int, signed: bool): (r: int)
    requires !signed ==> val >= 0
    ensures r >= 0 && (r == val || r == -val)
    ensures !signed ==> r == val
  {
    if signed then (if val < 0 then -val else val) else val
  }

  /** Taking the absolute value twice changes nothing. */
  lemma AbsIdempotent(val: int, signed: bool)
    requires !signed ==> val >= 0
    ensures Abs(Abs(val, signed), signed) == Abs(val, signed)
  {
  }

  /** The magnitude of a float or double, which is what clearing the sign
      bit yields for every value that is not a NaN. */
  function Magnitude(f: real): (r: real)
    ensures r >= 0.0 && (r == f || r == -f)
  {
    if f < 0.0 then -f else f
  }

  /** Math::square. */
  function Square(val: int): (r: int)
    ensures r >= 0
    ensures r == 0 <==> val == 0
    ensures r == Abs(val, true) * Abs(val, true)
  {
    if val < 0 then assert val * val == (-val) * (-val); val * val else val * val
  }

  /** Math::isZero: an epsilon test for floating types, `== 0` for integers;
      a floating value passes exactly when it lies within EPSILON of zero. */
  predicate IsZero(val: Scalar): (r: bool)
    ensures val.Integer? ==> (r <==> val.i == 0)
    ensures val.Floating? ==> (r <==> -Epsilon(val.single) <= val.f <= Epsilon(val.single))
  {
    match val
    case Floating(f, single) => Magnitude(f) <= Epsilon(single)
    case Integer(i) => i == 0
  }

  /** On integers the test is exact. */
  lemma IsZeroInteger(i: int)
    ensures IsZero(Integer(i)) <==> i == 0
  {
  }

  /** On floating values the test accepts exactly the closed interval
      [-EPSILON, EPSILON]: it holds at the threshold and fails just above it. */
  lemma IsZeroFloating(f: real, single: bool, above: real)
    requires above > 0.0
    ensures IsZero(Floating(f, single)) <==> -Epsilon(single) <= f <= Epsilon(single)
    ensures IsZero(Floating(0.0, single)) && IsZero(Floating(Epsilon(single), single))
    ensures !IsZero(Floating(Epsilon(single) + above, single))
  {
  }

  /** C++ `/` on integers (the quotient is truncated toward zero; Dafny's own
      `/` is Euclidean): the remainder `a - q * b` is smaller than the divisor
      in magnitude and is zero or has the sign of the dividend. */
  function TruncDiv(a: int, b: int): (q: int)
    requires b != 0
    ensures Abs(a - q * b, true) < Abs(b, true)
    ensures a - q * b == 0 || (a - q * b < 0 <==> a < 0)
  {
    if a >= 0 && b > 0 then a / b
    else if a >= 0 then -(a / -b)
    else if b > 0 then -((-a) / b)
    else (-a) / (-b)
  }

  /** A nonzero multiple of a positive `d` is at least `d` away from zero. */
  lemma MultipleAwayFromZero(m: int, d: int)
    requires d > 0
    ensures m >= 1 ==> m * d >= d
    ensures m <= -1 ==> m * d <= -d
  {
  }

  /** Dafny's `/` undoes multiplication on a non-negative multiple of a
      positive divisor: the remainder (k - q) * d lies in [0, d), so the
      quotient q is k. */
  lemma MulDivCancel(k: int, d: int)
    requires k >= 0 && d > 0
    ensures (k * d) / d == k
  {
    var q, r := (k * d) / d, (k * d) % d;
    assert (k - q) * d == r;
    MultipleAwayFromZero(k - q, d);
  }

  /** Truncating division undoes multiplication: `(k * d) / d == k`. Each
      sign case of TruncDiv reduces to MulDivCancel on the magnitudes. */
  lemma TruncDivExact(k: int, d: int)
    requires d != 0
    ensures TruncDiv(k * d, d) == k
  {
    if k == 0 {
      assert k * d == 0;
    } else if k > 0 && d > 0 {
      MulDivCancel(k, d);
    } else if k > 0 {
      assert k * d == -(k * -d) && k * d < 0;
      MulDivCancel(k, -d);
    } else if d > 0 {
      assert k * d == -((-k) * d) && k * d < 0;
      MulDivCancel(-k, d);
    } else {
      assert k * d == (-k) * (-d) && k * d > 0;
      MulDivCancel(-k, -d);
    }
  }
}
