/** The three-component vector Vec<T, 3> (vector/vec3.hpp) with T = int.
    The value of a vector is the datatype V3; the binary operators, `dot`,
    `cross` and `lengthSquare` are functions on it. The C++ object, whose
    assignment, call and compound operators overwrite its fields, is the
    class Vec3. */
module Vector3 {
  import Math

  datatype V3 = V3(x: int, y: int, z: int)

  /** The value of a default-constructed vector. */
  const Zero := V3(0, 0, 0)

  /** Reading through operator[]: indices 0, 1, 2 are x, y, z. */
  function Get(v: V3, idx: nat): int
    requires idx < 3
  {
    if idx == 0 then v.x else if idx == 1 then v.y else v.z
  }

  /** The value after writing `val` through operator[](idx). */
  function With(v: V3, idx: nat, val: int): V3
    requires idx < 3
  {
    if idx == 0 then v.(x := val) else if idx == 1 then v.(y := val) else v.(z := val)
  }

  /** A write through operator[] is read back at its own index and leaves the
      other components alone. */
  lemma GetWith(v: V3, i: nat, j: nat, val: int)
    requires i < 3 && j < 3
    ensures Get(With(v, i, val), j) == if i == j then val else Get(v, j)
  {
  }

  /** operator+ : componentwise sum; subtracting `w` again gives `v` back. */
  function Add(v: V3, w: V3): (r: V3)
    ensures forall i :: 0 <= i < 3 ==> Get(r, i) == Get(v, i) + Get(w, i)
    ensures Sub(r, w) == v
  {
    V3(v.x + w.x, v.y + w.y, v.z + w.z)
  }

  /** operator- : componentwise difference. */
  function Sub(v: V3, w: V3): (r: V3)
    ensures forall i :: 0 <= i < 3 ==> Get(r, i) == Get(v, i) - Get(w, i)
  {
    V3(v.x - w.x, v.y - w.y, v.z - w.z)
  }

  /** operator*(val): every component times the scalar. */
  function Scale(v: V3, val: int): (r: V3)
    ensures forall i :: 0 <= i < 3 ==> Get(r, i) == Get(v, i) * val
  {
    V3(v.x * val, v.y * val, v.z * val)
  }

  /** operator/ : asserts that the divisor is not zero, then divides every
      component with C++ integer division. */
  function Div(v: V3, val: int): (r: V3)
    requires !Math.IsZero(Math.Integer(val))
    ensures forall i :: 0 <= i < 3 ==> Get(r, i) == Math.TruncDiv(Get(v, i), val)
  {
    V3(Math.TruncDiv(v.x, val), Math.TruncDiv(v.y, val), Math.TruncDiv(v.z, val))
  }

  /** The dot product; of a vector with itself it is never negative and
      is zero only for the zero vector. */
  function Dot(v: V3, w: V3): (r: int)
    ensures v == w ==> r >= 0
    ensures v == w ==> (r == 0 <==> v == Zero)
  {
    v.x * w.x + v.y * w.y + v.z * w.z
  }

  /** The cross product; a vector crossed with itself is zero. */
  function Cross(v: V3, w: V3): (r: V3)
    ensures v == w ==> r == Zero
  {
    V3(v.y * w.z - v.z * w.y,
       v.z * w.x - v.x * w.z,
       v.x * w.y - v.y * w.x)
  }

  /** The sum of the squared components: never negative, and zero only for
      the zero vector. */
  function LengthSquare(v: V3): (r: int)
    ensures r >= 0
    ensures r == 0 <==> v == Zero
  {
    Math.Square(v.x) + Math.Square(v.y) + Math.Square(v.z)
  }

  /** (v + w) - w == v. */
  lemma AddSubCancel(v: V3, w: V3)
    ensures Sub(Add(v, w), w) == v
  {
  }

  lemma ScaleOne(v: V3)
    ensures Scale(v, 1) == v
  {
  }

  /** Dividing by the factor just multiplied in gives back the vector. */
  lemma DivUndoesScale(v: V3, val: int)
    requires val != 0
    ensures Div(Scale(v, val), val) == v
  {
    Math.TruncDivExact(v.x, val);
    Math.TruncDivExact(v.y, val);
    Math.TruncDivExact(v.z, val);
  }

  lemma DotSymmetric(v: V3, w: V3)
    ensures Dot(v, w) == Dot(w, v)
  {
  }

  lemma LengthSquareIsSelfDot(v: V3)
    ensures LengthSquare(v) == Dot(v, v)
  {
  }

  /** The cross product is anticommutative: v × w == (w × v) * -1. */
  lemma CrossAnticommutative(v: V3, w: V3)
    ensures Cross(v, w) == Scale(Cross(w, v), -1)
    ensures Cross(v, v) == Zero
  {
  }

  /** The cross product is orthogonal to both of its operands. */
  lemma CrossOrthogonal(v: V3, w: V3)
    ensures Dot(v, Cross(v, w)) == 0
    ensures Dot(w, Cross(v, w)) == 0
  {
  }

  /** Vectors along the x and y axes have a cross product along the z axis,
      whose length is the product of theirs. */
  lemma CrossOfAxes(s: int, t: int)
    ensures Cross(V3(s, 0, 0), V3(0, t, 0)) == V3(0, 0, s * t)
  {
  }

  /** (1, 0, 0) × (0, 1, 0) == (0, 0, 1). */
  lemma CrossOfUnitVectors()
    ensures Cross(V3(1, 0, 0), V3(0, 1, 0)) == V3(0, 0, 1)
  {
    CrossOfAxes(1, 1);
  }

  /** Vec<T, 3> as an object: three fields that its operators overwrite. */
  class Vec3 {
    var x: int
    var y: int
    var z: int

    function Value(): V3
      reads this
    {
      V3(x, y, z)
    }

    /** The default constructor: every component zero. */
    constructor ()
      ensures Value() == Zero
    {
      x, y, z := 0, 0, 0;
    }

    /** Vec(x): sets x through operator(); y and z stay zero. */
    constructor OfX(x0: int)
      ensures Value() == V3(x0, 0, 0)
    {
      x, y, z := 0, 0, 0;
      new;
      SetX(x0);
    }

    /** Vec(x, y): sets x and y through operator(); z stays zero. */
    constructor OfXY(x0: int, y0: int)
      ensures Value() == V3(x0, y0, 0)
    {
      x, y, z := 0, 0, 0;
      new;
      SetXY(x0, y0);
    }

    /** Vec(x, y, z), through operator(). */
    constructor OfXYZ(x0: int, y0: int, z0: int)
      ensures Value() == V3(x0, y0, z0)
    {
      x, y, z := 0, 0, 0;
      new;
      SetXYZ(x0, y0, z0);
    }

    /** The copy constructor, through copy assignment. */
    constructor CopyOf(other: Vec3)
      ensures Value() == other.Value()
    {
      x, y, z := 0, 0, 0;
      new;
      Assign(other);
    }

    /** The move constructor, through move assignment: the source ends zeroed. */
    constructor MoveFrom(other: Vec3)
      modifies other
      ensures Value() == old(other.Value())
      ensures other.Value() == Zero
    {
      x, y, z := 0, 0, 0;
      new;
      MoveAssign(other);
    }

    /** Copy assignment: takes the source's value and leaves the source as it was. */
    method Assign(other: Vec3)
      modifies this
      ensures Value() == old(other.Value())
      ensures other.Value() == old(other.Value())
    {
      x := other.x;
      y := other.y;
      z := other.z;
    }

    /** Move assignment: takes the source's value, then resets the source to
        zero. Moving an object into itself therefore leaves it zero. */
    method MoveAssign(other: Vec3)
      modifies this, other
      ensures other != this ==> Value() == old(other.Value())
      ensures other.Value() == Zero
    {
      x := other.x;
      y := other.y;
      z := other.z;
      other.x := 0;
      other.y := 0;
      other.z := 0;
    }

    /** operator()(Vec): the same as copy assignment. */
    method SetFrom(other: Vec3)
      modifies this
      ensures Value() == old(other.Value())
      ensures other.Value() == old(other.Value())
    {
      Assign(other);
    }

    /** operator()(x): sets x only. */
    method SetX(x0: int)
      modifies this
      ensures x == x0 && y == old(y) && z == old(z)
    {
      x := x0;
    }

    /** operator()(x, y): sets x and y, leaves z. */
    method SetXY(x0: int, y0: int)
      modifies this
      ensures x == x0 && y == y0 && z == old(z)
    {
      x := x0;
      y := y0;
    }

    /** operator()(x, y, z). */
    method SetXYZ(x0: int, y0: int, z0: int)
      modifies this
      ensures x == x0 && y == y0 && z == z0
    {
      x := x0;
      y := y0;
      z := z0;
    }

    /** Reading through operator[]; the index must be below 3. */
    function At(idx: nat): int
      reads this
      requires idx < 3
    {
      Get(Value(), idx)
    }

    /** Writing through operator[]; the index must be below 3. */
    method Put(idx: nat, val: int)
      requires idx < 3
      modifies this
      ensures Value() == With(old(Value()), idx, val)
      ensures At(idx) == val
    {
      if idx == 0 {
        x := val;
      } else if idx == 1 {
        y := val;
      } else {
        z := val;
      }
    }

    /** operator+= : the componentwise sum, in place. */
    method AddAssign(other: Vec3)
      modifies this
      ensures Value() == Add(old(Value()), old(other.Value()))
    {
      x := x + other.x;
      y := y + other.y;
      z := z + other.z;
    }

    /** operator-= : the componentwise difference, in place. */
    method SubAssign(other: Vec3)
      modifies this
      ensures Value() == Sub(old(Value()), old(other.Value()))
    {
      x := x - other.x;
      y := y - other.y;
      z := z - other.z;
    }

    /** operator*= : scales every component, in place. */
    method ScaleAssign(val: int)
      modifies this
      ensures Value() == Scale(old(Value()), val)
    {
      x := x * val;
      y := y * val;
      z := z * val;
    }

    /** operator/= : asserts that the divisor is not zero, then divides every
        component in place. */
    method DivAssign(val: int)
      requires !Math.IsZero(Math.Integer(val))
      modifies this
      ensures Value() == Div(old(Value()), val)
    {
      x := Math.TruncDiv(x, val);
      y := Math.TruncDiv(y, val);
      z := Math.TruncDiv(z, val);
    }
  }
}
