/** The two-component vector Vec<T, 2> (vector/vec2.hpp) with T = int.
    The value of a vector is the datatype V2; the binary operators, `dot`,
    `cross` and `lengthSquare` are functions on it. The C++ object, whose
    assignment, call and compound operators overwrite its fields, is the
    class Vec2. */
module Vector2 {
  import Math

  datatype V2 = V2(x: int, y: int)

  /** The value of a default-constructed vector. */
  const Zero := V2(0, 0)

  /** Reading through operator[]: index 0 is x, index 1 is y. */
  function Get(v: V2, idx: nat): int
    requires idx < 2
  {
    if idx == 0 then v.x else v.y
  }

  /** The value after writing `val` through operator[](idx). */
  function With(v: V2, idx: nat, val: int): V2
    requires idx < 2
  {
    if idx == 0 then v.(x := val) else v.(y := val)
  }

  /** A write through operator[] is read back at its own index and leaves the
      other component alone. */
  lemma GetWith(v: V2, i: nat, j: nat, val: int)
    requires i < 2 && j < 2
    ensures Get(With(v, i, val), j) == if i == j then val else Get(v, j)
  {
  }

  /** operator+ : componentwise sum; subtracting `w` again gives `v` back. */
  function Add(v: V2, w: V2): (r: V2)
    ensures forall i :: 0 <= i < 2 ==> Get(r, i) == Get(v, i) + Get(w, i)
    ensures Sub(r, w) == v
  {
    V2(v.x + w.x, v.y + w.y)
  }

  /** operator- : componentwise difference. */
  function Sub(v: V2, w: V2): (r: V2)
    ensures forall i :: 0 <= i < 2 ==> Get(r, i) == Get(v, i) - Get(w, i)
  {
    V2(v.x - w.x, v.y - w.y)
  }

  /** operator*(val): every component times the scalar. */
  function Scale(v: V2, val: int): (r: V2)
    ensures forall i :: 0 <= i < 2 ==> Get(r, i) == Get(v, i) * val
  {
    V2(v.x * val, v.y * val)
  }

  /** operator/ : asserts that the divisor is not zero, then divides each
      component with C++ integer division. */
  function Div(v: V2, val: int): (r: V2)
    requires !Math.IsZero(Math.Integer(val))
    ensures forall i :: 0 <= i < 2 ==> Get(r, i) == Math.TruncDiv(Get(v, i), val)
  {
    V2(Math.TruncDiv(v.x, val), Math.TruncDiv(v.y, val))
  }

  /** The dot product; of a vector with itself it is never negative and
      is zero only for the zero vector. */
  function Dot(v: V2, w: V2): (r: int)
    ensures v == w ==> r >= 0
    ensures v == w ==> (r == 0 <==> v == Zero)
  {
    v.x * w.x + v.y * w.y
  }

  /** The z-component of the 3-D cross product of the two vectors embedded in
      the plane. */
  function Cross(v: V2, w: V2): (r: int)
    ensures v == w ==> r == 0
  {
    v.x * w.y - v.y * w.x
  }

  /** The sum of the squared components: never negative, and zero only for
      the zero vector. */
  function LengthSquare(v: V2): (r: int)
    ensures r >= 0
    ensures r == 0 <==> v == Zero
  {
    Math.Square(v.x) + Math.Square(v.y)
  }

  /** Subtracting what was added gives back the original: (v + w) - w == v. */
  lemma AddSubCancel(v: V2, w: V2)
    ensures Sub(Add(v, w), w) == v
  {
  }

  /** Scaling by one changes nothing. */
  lemma ScaleOne(v: V2)
    ensures Scale(v, 1) == v
  {
  }

  /** Dividing by the factor just multiplied in gives back the vector. */
  lemma DivUndoesScale(v: V2, val: int)
    requires val != 0
    ensures Div(Scale(v, val), val) == v
  {
    Math.TruncDivExact(v.x, val);
    Math.TruncDivExact(v.y, val);
  }

  lemma DotSymmetric(v: V2, w: V2)
    ensures Dot(v, w) == Dot(w, v)
  {
  }

  /** The planar cross product is antisymmetric and vanishes on equal
      operands. */
  lemma CrossAntisymmetric(v: V2, w: V2)
    ensures Cross(v, w) == -Cross(w, v)
    ensures Cross(v, v) == 0
  {
  }

  lemma LengthSquareIsSelfDot(v: V2)
    ensures LengthSquare(v) == Dot(v, v)
  {
  }

  /** Vec<T, 2> as an object: two fields that its operators overwrite. */
  class Vec2 {
    var x: int
    var y: int

    function Value(): V2
      reads this
    {
      V2(x, y)
    }

    /** The default constructor: both components zero. */
    constructor ()
      ensures Value() == Zero
    {
      x, y := 0, 0;
    }

    /** Vec(x): sets x through operator() and leaves y at its zero default. */
    constructor OfX(x0: int)
      ensures Value() == V2(x0, 0)
    {
      x, y := 0, 0;
      new;
      SetX(x0);
    }

    /** Vec(x, y), through operator(). */
    constructor OfXY(x0: int, y0: int)
      ensures Value() == V2(x0, y0)
    {
      x, y := 0, 0;
      new;
      SetXY(x0, y0);
    }

    /** The copy constructor, through copy assignment. */
    constructor CopyOf(other: Vec2)
      ensures Value() == other.Value()
    {
      x, y := 0, 0;
      new;
      Assign(other);
    }

    /** The move constructor, through move assignment: the source ends zeroed. */
    constructor MoveFrom(other: Vec2)
      modifies other
      ensures Value() == old(other.Value())
      ensures other.Value() == Zero
    {
      x, y := 0, 0;
      new;
      MoveAssign(other);
    }

    /** Copy assignment: takes the source's value and leaves the source as it was. */
    method Assign(other: Vec2)
      modifies this
      ensures Value() == old(other.Value())
      ensures other.Value() == old(other.Value())
    {
      x := other.x;
      y := other.y;
    }

    /** Move assignment: takes the source's value, then resets the source to
        zero. Moving an object into itself therefore leaves it zero. */
    method MoveAssign(other: Vec2)
      modifies this, other
      ensures other != this ==> Value() == old(other.Value())
      ensures other.Value() == Zero
    {
      x := other.x;
      y := other.y;
      other.x := 0;
      other.y := 0;
    }

    /** operator()(Vec): the same as copy assignment. */
    method SetFrom(other: Vec2)
      modifies this
      ensures Value() == old(other.Value())
      ensures other.Value() == old(other.Value())
    {
      Assign(other);
    }

    /** operator()(x): sets x only. */
    method SetX(x0: int)
      modifies this
      ensures x == x0 && y == old(y)
    {
      x := x0;
    }

    /** operator()(x, y). */
    method SetXY(x0: int, y0: int)
      modifies this
      ensures x == x0 && y == y0
    {
      x := x0;
      y := y0;
    }

    /** Reading through operator[]; the index must be below 2. */
    function At(idx: nat): int
      reads this
      requires idx < 2
    {
      Get(Value(), idx)
    }

    /** Writing through operator[]; the index must be below 2. */
    method Put(idx: nat, val: int)
      requires idx < 2
      modifies this
      ensures Value() == With(old(Value()), idx, val)
      ensures At(idx) == val
    {
      if idx == 0 {
        x := val;
      } else {
        y := val;
      }
    }

    /** operator+= : the componentwise sum, in place. */
    method AddAssign(other: Vec2)
      modifies this
      ensures Value() == Add(old(Value()), old(other.Value()))
    {
      x := x + other.x;
      y := y + other.y;
    }

    /** operator-= : the componentwise difference, in place. */
    method SubAssign(other: Vec2)
      modifies this
      ensures Value() == Sub(old(Value()), old(other.Value()))
    {
      x := x - other.x;
      y := y - other.y;
    }

    /** operator*= : scales both components, in place. */
    method ScaleAssign(val: int)
      modifies this
      ensures Value() == Scale(old(Value()), val)
    {
      x := x * val;
      y := y * val;
    }

    /** operator/= : asserts that the divisor is not zero, then divides both
        components in place. */
    method DivAssign(val: int)
      requires !Math.IsZero(Math.Integer(val))
      modifies this
      ensures Value() == Div(old(Value()), val)
    {
      x := Math.TruncDiv(x, val);
      y := Math.TruncDiv(y, val);
    }
  }
}
