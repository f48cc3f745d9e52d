/** The four-component vector Vec<T, 4> (vector/vec4.hpp) with T = int; it is
    also the row type of the 4x4 matrix. The value of a vector is the datatype
    V4; the binary operators, `dot` and `lengthSquare` are functions on it.
    The C++ object, whose assignment, call and compound operators overwrite
    its fields, is the class Vec4. */
module Vector4 {
  import Math

  datatype V4 = V4(x: int, y: int, z: int, w: int)

  /** The value of a default-constructed vector. */
  const Zero := V4(0, 0, 0, 0)

  /** Reading through operator[]: indices 0, 1, 2, 3 are x, y, z, w. */
  function Get(v: V4, idx: nat): int
    requires idx < 4
  {
    if idx == 0 then v.x else if idx == 1 then v.y else if idx == 2 then v.z else v.w
  }

  /** The value after writing `val` through operator[](idx). */
  function With(v: V4, idx: nat, val: int): V4
    requires idx < 4
  {
    if idx == 0 then v.(x := val)
    else if idx == 1 then v.(y := val)
    else if idx == 2 then v.(z := val)
    else v.(w := val)
  }

  /** A write through operator[] is read back at its own index and leaves the
      other components alone. */
  lemma GetWith(v: V4, i: nat, j: nat, val: int)
    requires i < 4 && j < 4
    ensures Get(With(v, i, val), j) == if i == j then val else Get(v, j)
  {
  }

  /** Two vectors that agree at every index are equal. */
  lemma EqualByComponents(v: V4, u: V4)
    requires forall i :: 0 <= i < 4 ==> Get(v, i) == Get(u, i)
    ensures v == u
  {
    assert Get(v, 0) == Get(u, 0) && Get(v, 1) == Get(u, 1);
    assert Get(v, 2) == Get(u, 2) && Get(v, 3) == Get(u, 3);
  }

  /** operator+ : componentwise sum; subtracting `u` again gives `v` back. */
  function Add(v: V4, u: V4): (r: V4)
    ensures forall i :: 0 <= i < 4 ==> Get(r, i) == Get(v, i) + Get(u, i)
    ensures Sub(r, u) == v
  {
    V4(v.x + u.x, v.y + u.y, v.z + u.z, v.w + u.w)
  }

  /** operator- : componentwise difference. */
  function Sub(v: V4, u: V4): (r: V4)
    ensures forall i :: 0 <= i < 4 ==> Get(r, i) == Get(v, i) - Get(u, i)
  {
    V4(v.x - u.x, v.y - u.y, v.z - u.z, v.w - u.w)
  }

  /** operator+(val): adds the scalar to every component. */
  function AddScalar(v: V4, val: int): (r: V4)
    ensures forall i :: 0 <= i < 4 ==> Get(r, i) == Get(v, i) + val
  {
    V4(v.x + val, v.y + val, v.z + val, v.w + val)
  }

  /** operator-(val): subtracts the scalar from every component. */
  function SubScalar(v: V4, val: int): (r: V4)
    ensures forall i :: 0 <= i < 4 ==> Get(r, i) == Get(v, i) - val
  {
    V4(v.x - val, v.y - val, v.z - val, v.w - val)
  }

  /** operator*(val): every component times the scalar. */
  function Scale(v: V4, val: int): (r: V4)
    ensures forall i :: 0 <= i < 4 ==> Get(r, i) == Get(v, i) * val
  {
    V4(v.x * val, v.y * val, v.z * val, v.w * val)
  }

  /** operator/ : asserts that the divisor is not zero, then divides every
      component with C++ integer division. */
  function Div(v: V4, val: int): (r: V4)
    requires !Math.IsZero(Math.Integer(val))
    ensures forall i :: 0 <= i < 4 ==> Get(r, i) == Math.TruncDiv(Get(v, i), val)
  {
    V4(Math.TruncDiv(v.x, val), Math.TruncDiv(v.y, val),
       Math.TruncDiv(v.z, val), Math.TruncDiv(v.w, val))
  }

  /** The dot product; of a vector with itself it is never negative and
      is zero only for the zero vector. */
  function Dot(v: V4, u: V4): (r: int)
    ensures v == u ==> r >= 0
    ensures v == u ==> (r == 0 <==> v == Zero)
  {
    v.x * u.x + v.y * u.y + v.z * u.z + v.w * u.w
  }

  /** The sum of the squared components: never negative, and zero only for
      the zero vector. */
  function LengthSquare(v: V4): (r: int)
    ensures r >= 0
    ensures r == 0 <==> v == Zero
  {
    Math.Square(v.x) + Math.Square(v.y) + Math.Square(v.z) + Math.Square(v.w)
  }

  /** (v + u) - u == v. */
  lemma AddSubCancel(v: V4, u: V4)
    ensures Sub(Add(v, u), u) == v
  {
  }

  /** (v + c) - c == v for a scalar c. */
  lemma AddScalarSubScalarCancel(v: V4, c: int)
    ensures SubScalar(AddScalar(v, c), c) == v
  {
  }

  lemma ScaleOne(v: V4)
    ensures Scale(v, 1) == v
  {
  }

  /** Dividing by the factor just multiplied in gives back the vector. */
  lemma DivUndoesScale(v: V4, val: int)
    requires val != 0
    ensures Div(Scale(v, val), val) == v
  {
    Math.TruncDivExact(v.x, val);
    Math.TruncDivExact(v.y, val);
    Math.TruncDivExact(v.z, val);
    Math.TruncDivExact(v.w, val);
  }

  lemma DotSymmetric(v: V4, u: V4)
    ensures Dot(v, u) == Dot(u, v)
  {
  }

  lemma LengthSquareIsSelfDot(v: V4)
    ensures LengthSquare(v) == Dot(v, v)
  {
  }

  /** Vec<T, 4> as an object: four fields that its operators overwrite. */
  class Vec4 {
    var x: int
    var y: int
    var z: int
    var w: int

    function Value(): V4
      reads this
    {
      V4(x, y, z, w)
    }

    /** The default constructor: every component zero. */
    constructor ()
      ensures Value() == Zero
    {
      x, y, z, w := 0, 0, 0, 0;
    }

    /** Vec(x): sets x through operator(); the rest stay zero. */
    constructor OfX(x0: int)
      ensures Value() == V4(x0, 0, 0, 0)
    {
      x, y, z, w := 0, 0, 0, 0;
      new;
      SetX(x0);
    }

    /** Vec(x, y): sets x and y through operator(); z and w stay zero. */
    constructor OfXY(x0: int, y0: int)
      ensures Value() == V4(x0, y0, 0, 0)
    {
      x, y, z, w := 0, 0, 0, 0;
      new;
      SetXY(x0, y0);
    }

    /** Vec(x, y, z): sets x, y and z through operator(); w stays zero. */
    constructor OfXYZ(x0: int, y0: int, z0: int)
      ensures Value() == V4(x0, y0, z0, 0)
    {
      x, y, z, w := 0, 0, 0, 0;
      new;
      SetXYZ(x0, y0, z0);
    }

    /** Vec(x, y, z, w), through operator(). */
    constructor OfXYZW(x0: int, y0: int, z0: int, w0: int)
      ensures Value() == V4(x0, y0, z0, w0)
    {
      x, y, z, w := 0, 0, 0, 0;
      new;
      SetXYZW(x0, y0, z0, w0);
    }

    /** The copy constructor, through copy assignment. */
    constructor CopyOf(other: Vec4)
      ensures Value() == other.Value()
    {
      x, y, z, w := 0, 0, 0, 0;
      new;
      Assign(other);
    }

    /** The move constructor, through move assignment: the source ends zeroed. */
    constructor MoveFrom(other: Vec4)
      modifies other
      ensures Value() == old(other.Value())
      ensures other.Value() == Zero
    {
      x, y, z, w := 0, 0, 0, 0;
      new;
      MoveAssign(other);
    }

    /** Copy assignment: takes the source's value and leaves the source as it was. */
    method Assign(other: Vec4)
      modifies this
      ensures Value() == old(other.Value())
      ensures other.Value() == old(other.Value())
    {
      x := other.x;
      y := other.y;
      z := other.z;
      w := other.w;
    }

    /** Move assignment: takes the source's value, then resets the source to
        zero. Moving an object into itself therefore leaves it zero. */
    method MoveAssign(other: Vec4)
      modifies this, other
      ensures other != this ==> Value() == old(other.Value())
      ensures other.Value() == Zero
    {
      x := other.x;
      y := other.y;
      z := other.z;
      w := other.w;
      other.x := 0;
      other.y := 0;
      other.z := 0;
      other.w := 0;
    }

    /** operator()(Vec): the same as copy assignment. */
    method SetFrom(other: Vec4)
      modifies this
      ensures Value() == old(other.Value())
      ensures other.Value() == old(other.Value())
    {
      Assign(other);
    }

    /** operator()(x): sets x only. */
    method SetX(x0: int)
      modifies this
      ensures x == x0 && y == old(y) && z == old(z) && w == old(w)
    {
      x := x0;
    }

    /** operator()(x, y): sets x and y, leaves z and w. */
    method SetXY(x0: int, y0: int)
      modifies this
      ensures x == x0 && y == y0 && z == old(z) && w == old(w)
    {
      x := x0;
      y := y0;
    }

    /** operator()(x, y, z): sets x, y and z, leaves w. */
    method SetXYZ(x0: int, y0: int, z0: int)
      modifies this
      ensures x == x0 && y == y0 && z == z0 && w == old(w)
    {
      x := x0;
      y := y0;
      z := z0;
    }

    /** operator()(x, y, z, w). */
    method SetXYZW(x0: int, y0: int, z0: int, w0: int)
      modifies this
      ensures x == x0 && y == y0 && z == z0 && w == w0
    {
      x := x0;
      y := y0;
      z := z0;
      w := w0;
    }

    /** Reading through operator[]; the index must be below 4. */
    function At(idx: nat): int
      reads this
      requires idx < 4
    {
      Get(Value(), idx)
    }

    /** Writing through operator[]; the index must be below 4. */
    method Put(idx: nat, val: int)
      requires idx < 4
      modifies this
      ensures Value() == With(old(Value()), idx, val)
      ensures At(idx) == val
    {
      if idx == 0 {
        x := val;
      } else if idx == 1 {
        y := val;
      } else if idx == 2 {
        z := val;
      } else {
        w := val;
      }
    }

    /** operator+=(Vec): the componentwise sum, in place. */
    method AddAssign(other: Vec4)
      modifies this
      ensures Value() == Add(old(Value()), old(other.Value()))
    {
      x := x + other.x;
      y := y + other.y;
      z := z + other.z;
      w := w + other.w;
    }

    /** operator-=(Vec): the componentwise difference, in place. */
    method SubAssign(other: Vec4)
      modifies this
      ensures Value() == Sub(old(Value()), old(other.Value()))
    {
      x := x - other.x;
      y := y - other.y;
      z := z - other.z;
      w := w - other.w;
    }

    /** operator+=(val): adds the scalar to every component, in place. */
    method AddScalarAssign(val: int)
      modifies this
      ensures Value() == AddScalar(old(Value()), val)
    {
      x := x + val;
      y := y + val;
      z := z + val;
      w := w + val;
    }

    /** operator-=(val): subtracts the scalar from every component, in place. */
    method SubScalarAssign(val: int)
      modifies this
      ensures Value() == SubScalar(old(Value()), val)
    {
      x := x - val;
      y := y - val;
      z := z - val;
      w := w - val;
    }

    /** operator*= : scales every component, in place. */
    method ScaleAssign(val: int)
      modifies this
      ensures Value() == Scale(old(Value()), val)
    {
      x := x * val;
      y := y * val;
      z := z * val;
      w := w * val;
    }

    /** operator/= : asserts that the divisor is not zero, then divides every
        component in place. */
    method DivAssign(val: int)
      requires !Math.IsZero(Math.Integer(val))
      modifies this
      ensures Value() == Div(old(Value()), val)
    {
      x := Math.TruncDiv(x, val);
      y := Math.TruncDiv(y, val);
      z := Math.TruncDiv(z, val);
      w := Math.TruncDiv(w, val);
    }
  }
}
