/** Complex<T> (complex.hpp) with T = int. The value of a complex number is
    the datatype Cx; `+ - * /` and `conjugate` are functions on it. The C++
    object, whose assignment, compound operators and setters overwrite its
    two fields, is the class Complex. */
module ComplexNumbers {
  import Math

  datatype Cx = Cx(re: int, im: int)

  /** The value of a default-constructed complex number. */
  const Zero := Cx(0, 0)

  /** operator+ : parts added; subtracting `b` again gives `a` back. */
  function Add(a: Cx, b: Cx): (r: Cx)
    ensures r.re == a.re + b.re && r.im == a.im + b.im
    ensures Sub(r, b) == a
  {
    Cx(a.re + b.re, a.im + b.im)
  }

  /** operator- : parts subtracted. */
  function Sub(a: Cx, b: Cx): (r: Cx)
    ensures r.re == a.re - b.re && r.im == a.im - b.im
  {
    Cx(a.re - b.re, a.im - b.im)
  }

  /** operator* : (ac - bd, ad + bc). One is neutral, and a number times
      its conjugate is the real number re² + im². */
  function Mul(a: Cx, b: Cx): (r: Cx)
    ensures b == Cx(1, 0) ==> r == a
    ensures b == Conjugate(a) ==> r == Cx(NormSquare(a), 0)
  {
    Cx(a.re * b.re - a.im * b.im, a.re * b.im + a.im * b.re)
  }

  /** re² + im², the denominator of a division by `z`: never negative, and
      zero only for zero. */
  function NormSquare(z: Cx): (r: int)
    ensures r >= 0
    ensures r == 0 <==> z == Zero
  {
    Math.Square(z.re) + Math.Square(z.im)
  }

  /** operator/ : multiplies by the conjugate of `b` and divides both parts
      by re² + im² of `b` with C++ integer division. There is no guard: a
      zero divisor divides by zero, which callers must not do. */
  function Div(a: Cx, b: Cx): (r: Cx)
    requires NormSquare(b) != 0
    ensures r.re == Math.TruncDiv(Mul(a, Conjugate(b)).re, NormSquare(b))
    ensures r.im == Math.TruncDiv(Mul(a, Conjugate(b)).im, NormSquare(b))
  {
    var denominator := NormSquare(b);
    ConjugateProduct(a, b);
    Cx(Math.TruncDiv(a.re * b.re + a.im * b.im, denominator),
       Math.TruncDiv(a.im * b.re - a.re * b.im, denominator))
  }

  /** The parts of a times the conjugate of b: the numerators of a / b. */
  lemma ConjugateProduct(a: Cx, b: Cx)
    ensures Mul(a, Conjugate(b)) == Cx(a.re * b.re + a.im * b.im, a.im * b.re - a.re * b.im)
  {
    assert Conjugate(b) == Cx(b.re, -b.im);
  }

  /** conjugate(): the imaginary part negated; the magnitude is kept. */
  function Conjugate(z: Cx): (r: Cx)
    ensures r.re == z.re && r.im == -z.im
    ensures NormSquare(r) == NormSquare(z)
  {
    Cx(z.re, -z.im)
  }

  /** (a + b) - b == a. */
  lemma AddSubCancel(a: Cx, b: Cx)
    ensures Sub(Add(a, b), b) == a
  {
  }

  lemma MulCommutative(a: Cx, b: Cx)
    ensures Mul(a, b) == Mul(b, a)
  {
  }

  /** Conjugation negates the imaginary part only, and undoes itself. */
  lemma ConjugateInvolution(z: Cx)
    ensures Conjugate(z).re == z.re && Conjugate(z).im == -z.im
    ensures Conjugate(Conjugate(z)) == z
  {
  }

  /** A number times its conjugate is the real number re² + im². */
  lemma MulConjugateIsReal(z: Cx)
    ensures Mul(z, Conjugate(z)) == Cx(NormSquare(z), 0)
  {
  }

  /** (1 + i)(1 - i) == 2. */
  lemma MulConjugateExample()
    ensures Mul(Cx(1, 1), Cx(1, -1)) == Cx(2, 0)
  {
  }

  /** The two numerators of (c * b) / b are c.re and c.im times re² + im²
      of b, written on plain integers. */
  lemma ProductNumerators(cr: int, ci: int, br: int, bi: int)
    ensures (cr * br - ci * bi) * br + (cr * bi + ci * br) * bi == cr * (br * br + bi * bi)
    ensures (cr * bi + ci * br) * br - (cr * br - ci * bi) * bi == ci * (br * br + bi * bi)
  {
  }

  /** Integer division undoes multiplication by a nonzero divisor:
      (c * b) / b == c. */
  lemma DivUndoesMul(c: Cx, b: Cx)
    requires b != Zero
    ensures Div(Mul(c, b), b) == c
  {
    var p := Mul(c, b);
    var d := NormSquare(b);
    assert p == Cx(c.re * b.re - c.im * b.im, c.re * b.im + c.im * b.re);
    assert d == b.re * b.re + b.im * b.im;
    ProductNumerators(c.re, c.im, b.re, b.im);
    Math.TruncDivExact(c.re, d);
    Math.TruncDivExact(c.im, d);
    assert Div(p, b) == Cx(Math.TruncDiv(c.re * d, d), Math.TruncDiv(c.im * d, d));
  }

  /** Complex<T> as an object: the real and imaginary fields. */
  class Complex {
    var mReal: int
    var mImaginary: int

    function Value(): Cx
      reads this
    {
      Cx(mReal, mImaginary)
    }

    /** The default constructor: both parts zero. */
    constructor ()
      ensures Value() == Zero
    {
      mReal, mImaginary := 0, 0;
    }

    /** Complex(real, imaginary). */
    constructor Of(re: int, im: int)
      ensures Value() == Cx(re, im)
    {
      mReal, mImaginary := re, im;
    }

    /** The copy constructor, through copy assignment. */
    constructor CopyOf(other: Complex)
      ensures Value() == other.Value()
    {
      mReal, mImaginary := 0, 0;
      new;
      Assign(other);
    }

    /** The move constructor, through move assignment: the source ends zeroed. */
    constructor MoveFrom(other: Complex)
      modifies other
      ensures Value() == old(other.Value())
      ensures other.Value() == Zero
    {
      mReal, mImaginary := 0, 0;
      new;
      MoveAssign(other);
    }

    /** Copy assignment: takes both parts and leaves the source as it was. */
    method Assign(other: Complex)
      modifies this
      ensures Value() == old(other.Value())
      ensures other.Value() == old(other.Value())
    {
      mReal := other.mReal;
      mImaginary := other.mImaginary;
    }

    /** Move assignment: takes both parts, then resets the source to zero.
        Moving an object into itself therefore leaves it zero. */
    method MoveAssign(other: Complex)
      modifies this, other
      ensures other != this ==> Value() == old(other.Value())
      ensures other.Value() == Zero
    {
      mReal := other.mReal;
      mImaginary := other.mImaginary;
      other.mReal := 0;
      other.mImaginary := 0;
    }

    /** operator+= : *this = *this + other. */
    method AddAssign(other: Complex)
      modifies this
      ensures Value() == Add(old(Value()), old(other.Value()))
    {
      var r := Add(Value(), other.Value());
      mReal, mImaginary := r.re, r.im;
    }

    /** operator-= : *this = *this - other. */
    method SubAssign(other: Complex)
      modifies this
      ensures Value() == Sub(old(Value()), old(other.Value()))
    {
      var r := Sub(Value(), other.Value());
      mReal, mImaginary := r.re, r.im;
    }

    /** operator*= : *this = *this * other; the product is formed before
        either part is overwritten, so `z *= z` squares z. */
    method MulAssign(other: Complex)
      modifies this
      ensures Value() == Mul(old(Value()), old(other.Value()))
    {
      var r := Mul(Value(), other.Value());
      mReal, mImaginary := r.re, r.im;
    }

    /** operator/= : *this = *this / other; the divisor must not be zero. */
    method DivAssign(other: Complex)
      requires NormSquare(other.Value()) != 0
      modifies this
      ensures Value() == Div(old(Value()), old(other.Value()))
    {
      var r := Div(Value(), other.Value());
      mReal, mImaginary := r.re, r.im;
    }

    /** The real() getter. */
    function Real(): int
      reads this
    {
      mReal
    }

    /** The imaginary() getter. */
    function Imaginary(): int
      reads this
    {
      mImaginary
    }

    /** The real(x) setter: changes the real part only. */
    method SetReal(re: int)
      modifies this
      ensures Real() == re && Imaginary() == old(Imaginary())
    {
      mReal := re;
    }

    /** The imaginary(x) setter: changes the imaginary part only. */
    method SetImaginary(im: int)
      modifies this
      ensures Imaginary() == im && Real() == old(Real())
    {
      mImaginary := im;
    }
  }
}

/** Complex<T> for a floating T: the same Cx, Mul, NormSquare and Div as
    in ComplexNumbers, instantiated with T = real. This idealises float and
    double as exact reals: here division is the field division and undoes
    multiplication exactly. */
module ComplexField {

  datatype Cx = Cx(re: real, im: real)

  /** operator* : (ac - bd, ad + bc); one is neutral on the right. */
  function Mul(a: Cx, b: Cx): (r: Cx)
    ensures b == Cx(1.0, 0.0) ==> r == a
  {
    Cx(a.re * b.re - a.im * b.im, a.re * b.im + a.im * b.re)
  }

  /** re² + im²: the real number a value times its conjugate gives. */
  function NormSquare(z: Cx): (r: real)
    ensures Mul(z, Cx(z.re, -z.im)) == Cx(r, 0.0)
  {
    z.re * z.re + z.im * z.im
  }

  /** operator/ : multiply by the conjugate of `b`, divide by re² + im² of
      `b`. The divisor must not be zero; the quotient times `b` is exactly
      `a`, so division undoes multiplication. */
  function Div(a: Cx, b: Cx): (r: Cx)
    requires NormSquare(b) != 0.0
    ensures Mul(r, b) == a
  {
    var denominator := NormSquare(b);
    Cx((a.re * b.re + a.im * b.im) / denominator,
       (a.im * b.re - a.re * b.im) / denominator)
  }
}
