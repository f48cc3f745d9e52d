/** The 4x4 matrix Mat<T, 4, 4> (matrix/mat4.hpp) with T = int, stored as
    four Vec4 rows. The value of a matrix is M4, the sequence of its four row
    values; `m[row][col]` of the source is At(m, row, col). The componentwise
    binary operators, `trace`, `identity` and `translate` are functions;
    `operator*` and `transpose`, which fill a local matrix in nested loops,
    are the methods Multiply and Transpose, proved against the functions
    Product and Transposed. The C++ object, whose assignment and compound
    operators overwrite its rows, is the class Mat4. */
module Matrix4 {
  import Math
  import Vector3
  import Vector4

  type V4 = Vector4.V4

  /** Four rows; the size never changes. */
  type M4 = rows: seq<V4> | |rows| == 4
    witness [Vector4.Zero, Vector4.Zero, Vector4.Zero, Vector4.Zero]

  /** The value of a default-constructed matrix: every row zero. */
  const Zero: M4 := [Vector4.Zero, Vector4.Zero, Vector4.Zero, Vector4.Zero]

  /** The entry `m[row][col]`. */
  function At(m: M4, row: nat, col: nat): int
    requires row < 4 && col < 4
  {
    Vector4.Get(m[row], col)
  }

  /** The matrix after writing `val` through `m[row][col]`. */
  function WithAt(m: M4, row: nat, col: nat, val: int): M4
    requires row < 4 && col < 4
  {
    m[row := Vector4.With(m[row], col, val)]
  }

  /** A write to one entry is read back there and changes no other entry. */
  lemma AtWithAt(m: M4, row: nat, col: nat, val: int, r: nat, c: nat)
    requires row < 4 && col < 4 && r < 4 && c < 4
    ensures At(WithAt(m, row, col, val), r, c) == if r == row && c == col then val else At(m, r, c)
  {
    Vector4.GetWith(m[row], col, c, val);
  }

  /** Two matrices that agree at all 16 entries are equal. */
  lemma EqualByEntries(m: M4, n: M4)
    requires forall r, c :: 0 <= r < 4 && 0 <= c < 4 ==> At(m, r, c) == At(n, r, c)
    ensures m == n
  {
    forall r | 0 <= r < 4
      ensures m[r] == n[r]
    {
      forall c | 0 <= c < 4
        ensures Vector4.Get(m[r], c) == Vector4.Get(n[r], c)
      {
        assert At(m, r, c) == At(n, r, c);
      }
      Vector4.EqualByComponents(m[r], n[r]);
    }
  }

  // ---------------------------------------------------------------------------
  // Componentwise operators: each applies the Vec4 operator row by row.

  function Add(a: M4, b: M4): (res: M4)
    ensures forall r, c :: 0 <= r < 4 && 0 <= c < 4 ==> At(res, r, c) == At(a, r, c) + At(b, r, c)
  {
    [Vector4.Add(a[0], b[0]), Vector4.Add(a[1], b[1]),
     Vector4.Add(a[2], b[2]), Vector4.Add(a[3], b[3])]
  }

  function Sub(a: M4, b: M4): (res: M4)
    ensures forall r, c :: 0 <= r < 4 && 0 <= c < 4 ==> At(res, r, c) == At(a, r, c) - At(b, r, c)
  {
    [Vector4.Sub(a[0], b[0]), Vector4.Sub(a[1], b[1]),
     Vector4.Sub(a[2], b[2]), Vector4.Sub(a[3], b[3])]
  }

  function AddScalar(m: M4, val: int): (res: M4)
    ensures forall r, c :: 0 <= r < 4 && 0 <= c < 4 ==> At(res, r, c) == At(m, r, c) + val
  {
    [Vector4.AddScalar(m[0], val), Vector4.AddScalar(m[1], val),
     Vector4.AddScalar(m[2], val), Vector4.AddScalar(m[3], val)]
  }

  function SubScalar(m: M4, val: int): (res: M4)
    ensures forall r, c :: 0 <= r < 4 && 0 <= c < 4 ==> At(res, r, c) == At(m, r, c) - val
  {
    [Vector4.SubScalar(m[0], val), Vector4.SubScalar(m[1], val),
     Vector4.SubScalar(m[2], val), Vector4.SubScalar(m[3], val)]
  }

  function Scale(m: M4, val: int): (res: M4)
    ensures forall r, c :: 0 <= r < 4 && 0 <= c < 4 ==> At(res, r, c) == At(m, r, c) * val
  {
    [Vector4.Scale(m[0], val), Vector4.Scale(m[1], val),
     Vector4.Scale(m[2], val), Vector4.Scale(m[3], val)]
  }

  /** operator/ : each row's Vec4 division asserts that the divisor is not zero. */
  function DivScalar(m: M4, val: int): (res: M4)
    requires !Math.IsZero(Math.Integer(val))
    ensures forall r, c :: 0 <= r < 4 && 0 <= c < 4 ==> At(res, r, c) == Math.TruncDiv(At(m, r, c), val)
  {
    [Vector4.Div(m[0], val), Vector4.Div(m[1], val),
     Vector4.Div(m[2], val), Vector4.Div(m[3], val)]
  }

  /** (A + B) - B == A. */
  lemma AddSubCancel(a: M4, b: M4)
    ensures Sub(Add(a, b), b) == a
  {
  }

  /** The scalar operators undo each other: (m + c) - c == m, and
      (m * c) / c == m for a nonzero c under truncating division. */
  lemma ScalarInverses(m: M4, val: int)
    ensures SubScalar(AddScalar(m, val), val) == m
    ensures val != 0 ==> DivScalar(Scale(m, val), val) == m
  {
    if val != 0 {
      Vector4.DivUndoesScale(m[0], val);
      Vector4.DivUndoesScale(m[1], val);
      Vector4.DivUndoesScale(m[2], val);
      Vector4.DivUndoesScale(m[3], val);
    }
  }

  // ---------------------------------------------------------------------------
  // Matrix product.

  /** The first `n` terms of row `row` of `a` times column `col` of `b`:
      a[row][0] * b[0][col] + ... + a[row][n-1] * b[n-1][col]. */
  function RowColSum(a: M4, b: M4, row: nat, col: nat, n: nat): int
    requires row < 4 && col < 4 && n <= 4
  {
    if n == 0 then 0 else RowColSum(a, b, row, col, n - 1) + At(a, row, n - 1) * At(b, n - 1, col)
  }

  function ProductRow(a: M4, b: M4, row: nat): V4
    requires row < 4
  {
    Vector4.V4(RowColSum(a, b, row, 0, 4), RowColSum(a, b, row, 1, 4),
               RowColSum(a, b, row, 2, 4), RowColSum(a, b, row, 3, 4))
  }

  /** The matrix product: entry (r, c) is the sum over k of a[r][k] * b[k][c]. */
  function Product(a: M4, b: M4): (res: M4)
    ensures forall r, c :: 0 <= r < 4 && 0 <= c < 4 ==> At(res, r, c) == RowColSum(a, b, r, c, 4)
  {
    [ProductRow(a, b, 0), ProductRow(a, b, 1), ProductRow(a, b, 2), ProductRow(a, b, 3)]
  }

  /** The full row-by-column sum written out as its four products. */
  lemma RowColSumExpanded(a: M4, b: M4, r: nat, c: nat)
    requires r < 4 && c < 4
    ensures RowColSum(a, b, r, c, 4)
         == At(a, r, 0) * At(b, 0, c) + At(a, r, 1) * At(b, 1, c)
          + At(a, r, 2) * At(b, 2, c) + At(a, r, 3) * At(b, 3, c)
  {
    assert RowColSum(a, b, r, c, 1) == At(a, r, 0) * At(b, 0, c);
    assert RowColSum(a, b, r, c, 2) == RowColSum(a, b, r, c, 1) + At(a, r, 1) * At(b, 1, c);
    assert RowColSum(a, b, r, c, 3) == RowColSum(a, b, r, c, 2) + At(a, r, 2) * At(b, 2, c);
  }

  lemma ProductAt(a: M4, b: M4, r: nat, c: nat)
    requires r < 4 && c < 4
    ensures At(Product(a, b), r, c) == RowColSum(a, b, r, c, 4)
  {
  }

  /** operator*(Mat): a fresh result is filled cell by cell; the accumulator
      `sum` is reset after each cell, so every cell is computed on its own. */
  method Multiply(a: M4, b: M4) returns (result: M4)
    ensures result == Product(a, b)
  {
    result := Zero;
    var sum := 0;
    var row := 0;
    while row < 4
      invariant row <= 4
      invariant sum == 0
      invariant forall r, c :: 0 <= r < row && 0 <= c < 4 ==> At(result, r, c) == RowColSum(a, b, r, c, 4)
    {
      var col := 0;
      while col < 4
        invariant col <= 4
        invariant sum == 0
        invariant forall r, c :: 0 <= r < row && 0 <= c < 4 ==> At(result, r, c) == RowColSum(a, b, r, c, 4)
        invariant forall c :: 0 <= c < col ==> At(result, row, c) == RowColSum(a, b, row, c, 4)
      {
        var k := 0;
        while k < 4
          invariant k <= 4
          invariant sum == RowColSum(a, b, row, col, k)
        {
          sum := sum + At(a, row, k) * At(b, k, col);
          k := k + 1;
        }
        ghost var before := result;
        result := WithAt(result, row, col, sum);
        forall r: nat, c: nat | r < 4 && c < 4
          ensures At(result, r, c) == if r == row && c == col then sum else At(before, r, c)
        {
          AtWithAt(before, row, col, sum, r, c);
        }
        sum := 0;
        col := col + 1;
      }
      row := row + 1;
    }
    forall r, c | 0 <= r < 4 && 0 <= c < 4
      ensures At(result, r, c) == At(Product(a, b), r, c)
    {
      ProductAt(a, b, r, c);
    }
    EqualByEntries(result, Product(a, b));
  }

  // ---------------------------------------------------------------------------
  // Trace, transpose, identity, translate.

  /** The sum of the diagonal. */
  function Trace(m: M4): (res: int)
    ensures res == At(m, 0, 0) + At(m, 1, 1) + At(m, 2, 2) + At(m, 3, 3)
  {
    m[0].x + m[1].y + m[2].z + m[3].w
  }

  /** The transpose: row r holds column r of `m`. */
  function Transposed(m: M4): (res: M4)
    ensures forall r, c :: 0 <= r < 4 && 0 <= c < 4 ==> At(res, r, c) == At(m, c, r)
  {
    [Vector4.V4(m[0].x, m[1].x, m[2].x, m[3].x),
     Vector4.V4(m[0].y, m[1].y, m[2].y, m[3].y),
     Vector4.V4(m[0].z, m[1].z, m[2].z, m[3].z),
     Vector4.V4(m[0].w, m[1].w, m[2].w, m[3].w)]
  }

  lemma TransposedAt(m: M4, r: nat, c: nat)
    requires r < 4 && c < 4
    ensures At(Transposed(m), r, c) == At(m, c, r)
  {
  }

  /** transpose(): a fresh matrix is filled entry by entry with m[col][row]. */
  method Transpose(m: M4) returns (t: M4)
    ensures t == Transposed(m)
  {
    t := Zero;
    var row := 0;
    while row < 4
      invariant row <= 4
      invariant forall r, c :: 0 <= r < row && 0 <= c < 4 ==> At(t, r, c) == At(m, c, r)
    {
      var col := 0;
      while col < 4
        invariant col <= 4
        invariant forall r, c :: 0 <= r < row && 0 <= c < 4 ==> At(t, r, c) == At(m, c, r)
        invariant forall c :: 0 <= c < col ==> At(t, row, c) == At(m, c, row)
      {
        ghost var before := t;
        t := WithAt(t, row, col, At(m, col, row));
        forall r: nat, c: nat | r < 4 && c < 4
          ensures At(t, r, c) == if r == row && c == col then At(m, col, row) else At(before, r, c)
        {
          AtWithAt(before, row, col, At(m, col, row), r, c);
        }
        col := col + 1;
      }
      row := row + 1;
    }
    forall r, c | 0 <= r < 4 && 0 <= c < 4
      ensures At(t, r, c) == At(Transposed(m), r, c)
    {
      TransposedAt(m, r, c);
    }
    EqualByEntries(t, Transposed(m));
  }

  /** Transposing twice gives back the matrix, and the trace is unchanged by
      transposing. */
  lemma TransposeInvolution(m: M4)
    ensures Transposed(Transposed(m)) == m
    ensures Trace(Transposed(m)) == Trace(m)
  {
  }

  /** identity(): 1 on the diagonal, 0 elsewhere. */
  function Identity(): (res: M4)
    ensures forall r, c :: 0 <= r < 4 && 0 <= c < 4 ==> At(res, r, c) == if r == c then 1 else 0
  {
    [Vector4.V4(1, 0, 0, 0),
     Vector4.V4(0, 1, 0, 0),
     Vector4.V4(0, 0, 1, 0),
     Vector4.V4(0, 0, 0, 1)]
  }

  lemma IdentityAt(r: nat, c: nat)
    requires r < 4 && c < 4
    ensures At(Identity(), r, c) == if r == c then 1 else 0
  {
  }

  /** Row r of the identity times column c of `a` picks out a[r][c]. */
  lemma IdentityRowColSum(a: M4, r: nat, c: nat)
    requires r < 4 && c < 4
    ensures RowColSum(Identity(), a, r, c, 4) == At(a, r, c)
  {
    RowColSumExpanded(Identity(), a, r, c);
    IdentityAt(r, 0);
    IdentityAt(r, 1);
    IdentityAt(r, 2);
    IdentityAt(r, 3);
  }

  /** Column c of the identity picks out a[r][c] from row r of `a`. */
  lemma RowColSumIdentity(a: M4, r: nat, c: nat)
    requires r < 4 && c < 4
    ensures RowColSum(a, Identity(), r, c, 4) == At(a, r, c)
  {
    RowColSumExpanded(a, Identity(), r, c);
    IdentityAt(0, c);
    IdentityAt(1, c);
    IdentityAt(2, c);
    IdentityAt(3, c);
  }

  /** The identity is neutral for the product on both sides. */
  lemma IdentityNeutral(a: M4)
    ensures Product(Identity(), a) == a
    ensures Product(a, Identity()) == a
  {
    forall r, c | 0 <= r < 4 && 0 <= c < 4
      ensures At(Product(Identity(), a), r, c) == At(a, r, c)
      ensures At(Product(a, Identity()), r, c) == At(a, r, c)
    {
      ProductAt(Identity(), a, r, c);
      IdentityRowColSum(a, r, c);
      ProductAt(a, Identity(), r, c);
      RowColSumIdentity(a, r, c);
    }
    EqualByEntries(Product(Identity(), a), a);
    EqualByEntries(Product(a, Identity()), a);
  }

  /** translate(v): 1 on the diagonal, v in column w of rows 0 to 2. */
  function Translate(v: Vector3.V3): (res: M4)
    ensures forall r, c :: 0 <= r < 4 && 0 <= c < 4 ==>
              At(res, r, c) == if r == c then 1 else if c == 3 && r < 3 then Vector3.Get(v, r) else 0
  {
    [Vector4.V4(1, 0, 0, v.x),
     Vector4.V4(0, 1, 0, v.y),
     Vector4.V4(0, 0, 1, v.z),
     Vector4.V4(0, 0, 0, 1)]
  }

  /** The shape of a translation: 1 on the diagonal, the translation in
      column w of the first three rows, 0 everywhere else; hence trace 4. */
  lemma TranslateShape(v: Vector3.V3, r: nat, c: nat)
    requires r < 4 && c < 4
    ensures At(Translate(v), r, c)
         == if r == c then 1 else if c == 3 && r < 3 then Vector3.Get(v, r) else 0
    ensures Trace(Translate(v)) == 4
  {
  }

  /** Multiplying the rows of a translation into a point (w = 1) moves the
      point by the translation and keeps w == 1. */
  lemma TranslateMovesPoint(v: Vector3.V3, p: V4)
    requires p.w == 1
    ensures Vector4.Dot(Translate(v)[0], p) == p.x + v.x
    ensures Vector4.Dot(Translate(v)[1], p) == p.y + v.y
    ensures Vector4.Dot(Translate(v)[2], p) == p.z + v.z
    ensures Vector4.Dot(Translate(v)[3], p) == 1
  {
  }

  /** One entry of the product of two translations: the four products of
      row r of translate(u) and column c of translate(v), summed. */
  lemma TranslateRowColSum(u: Vector3.V3, v: Vector3.V3, r: nat, c: nat)
    requires r < 4 && c < 4
    ensures RowColSum(Translate(u), Translate(v), r, c, 4) == At(Translate(Vector3.Add(u, v)), r, c)
  {
    var a, b := Translate(u), Translate(v);
    RowColSumExpanded(a, b, r, c);
    TranslateShape(u, r, 0);
    TranslateShape(u, r, 1);
    TranslateShape(u, r, 2);
    TranslateShape(u, r, 3);
    TranslateShape(v, 0, c);
    TranslateShape(v, 1, c);
    TranslateShape(v, 2, c);
    TranslateShape(v, 3, c);
    TranslateShape(Vector3.Add(u, v), r, c);
  }

  /** Two translations compose into the translation by the sum of their
      vectors. */
  lemma TranslateCompose(u: Vector3.V3, v: Vector3.V3)
    ensures Product(Translate(u), Translate(v)) == Translate(Vector3.Add(u, v))
  {
    forall r, c | 0 <= r < 4 && 0 <= c < 4
      ensures At(Product(Translate(u), Translate(v)), r, c) == At(Translate(Vector3.Add(u, v)), r, c)
    {
      ProductAt(Translate(u), Translate(v), r, c);
      TranslateRowColSum(u, v, r, c);
    }
    EqualByEntries(Product(Translate(u), Translate(v)), Translate(Vector3.Add(u, v)));
  }

  /** translate((1, 2, 3)) moves the origin point (0, 0, 0, 1) to (1, 2, 3, 1). */
  lemma TranslateOriginExample()
    ensures Vector4.Dot(Translate(Vector3.V3(1, 2, 3))[0], Vector4.V4(0, 0, 0, 1)) == 1
    ensures Vector4.Dot(Translate(Vector3.V3(1, 2, 3))[1], Vector4.V4(0, 0, 0, 1)) == 2
    ensures Vector4.Dot(Translate(Vector3.V3(1, 2, 3))[2], Vector4.V4(0, 0, 0, 1)) == 3
    ensures Vector4.Dot(Translate(Vector3.V3(1, 2, 3))[3], Vector4.V4(0, 0, 0, 1)) == 1
  {
    TranslateMovesPoint(Vector3.V3(1, 2, 3), Vector4.V4(0, 0, 0, 1));
  }

  // ---------------------------------------------------------------------------

  /** Mat<T, 4, 4> as an object: the row array `mROW` that its assignment
      and compound operators overwrite. */
  class Mat4 {
    var mROW: M4

    /** The default constructor: every row zero. */
    constructor ()
      ensures mROW == Zero
    {
      mROW := Zero;
    }

    /** Mat(v1, v2, v3, v4), through operator(). */
    constructor OfRows(v1: V4, v2: V4, v3: V4, v4: V4)
      ensures mROW == [v1, v2, v3, v4]
    {
      mROW := Zero;
      new;
      SetRows(v1, v2, v3, v4);
    }

    /** The copy constructor, through copy assignment. */
    constructor CopyOf(other: Mat4)
      ensures mROW == other.mROW
    {
      mROW := Zero;
      new;
      Assign(other);
    }

    /** The move constructor, through move assignment: the source ends zeroed. */
    constructor MoveFrom(other: Mat4)
      modifies other
      ensures mROW == old(other.mROW)
      ensures other.mROW == Zero
    {
      mROW := Zero;
      new;
      MoveAssign(other);
    }

    /** Copy assignment, row by row; the source is left as it was. */
    method Assign(other: Mat4)
      modifies this
      ensures mROW == old(other.mROW)
      ensures other.mROW == old(other.mROW)
    {
      mROW := mROW[0 := other.mROW[0]];
      mROW := mROW[1 := other.mROW[1]];
      mROW := mROW[2 := other.mROW[2]];
      mROW := mROW[3 := other.mROW[3]];
    }

    /** Move assignment: copies the four rows, then resets every source row
        to zero. Moving an object into itself therefore leaves it zero. */
    method MoveAssign(other: Mat4)
      modifies this, other
      ensures other != this ==> mROW == old(other.mROW)
      ensures other.mROW == Zero
    {
      mROW := mROW[0 := other.mROW[0]];
      mROW := mROW[1 := other.mROW[1]];
      mROW := mROW[2 := other.mROW[2]];
      mROW := mROW[3 := other.mROW[3]];
      other.mROW := other.mROW[0 := Vector4.Zero];
      other.mROW := other.mROW[1 := Vector4.Zero];
      other.mROW := other.mROW[2 := Vector4.Zero];
      other.mROW := other.mROW[3 := Vector4.Zero];
    }

    /** operator()(v1, v2, v3, v4): replaces the four rows. */
    method SetRows(v1: V4, v2: V4, v3: V4, v4: V4)
      modifies this
      ensures mROW == [v1, v2, v3, v4]
    {
      mROW := mROW[0 := v1];
      mROW := mROW[1 := v2];
      mROW := mROW[2 := v3];
      mROW := mROW[3 := v4];
    }

    /** Reading row `idx` through operator[]; the index must be below 4. */
    function Row(idx: nat): (res: V4)
      reads this
      requires idx < 4
      ensures forall c :: 0 <= c < 4 ==> Vector4.Get(res, c) == At(mROW, idx, c)
    {
      mROW[idx]
    }

    /** Writing row `idx` through operator[]; the index must be below 4. */
    method PutRow(idx: nat, v: V4)
      requires idx < 4
      modifies this
      ensures Row(idx) == v
      ensures forall r :: 0 <= r < 4 && r != idx ==> mROW[r] == old(mROW[r])
    {
      mROW := mROW[idx := v];
    }

    /** Writing one entry through `m[row][col]` (Mat4's and then Vec4's
        operator[]); both indices must be below 4. */
    method PutAt(row: nat, col: nat, val: int)
      requires row < 4 && col < 4
      modifies this
      ensures mROW == WithAt(old(mROW), row, col, val)
      ensures At(mROW, row, col) == val
    {
      mROW := mROW[row := Vector4.With(mROW[row], col, val)];
      AtWithAt(old(mROW), row, col, val, row, col);
    }

    /** operator+=(Mat): row by row, in place. */
    method AddAssign(other: Mat4)
      modifies this
      ensures mROW == Add(old(mROW), old(other.mROW))
    {
      mROW := mROW[0 := Vector4.Add(mROW[0], other.mROW[0])];
      mROW := mROW[1 := Vector4.Add(mROW[1], other.mROW[1])];
      mROW := mROW[2 := Vector4.Add(mROW[2], other.mROW[2])];
      mROW := mROW[3 := Vector4.Add(mROW[3], other.mROW[3])];
    }

    /** operator-=(Mat): row by row, in place. */
    method SubAssign(other: Mat4)
      modifies this
      ensures mROW == Sub(old(mROW), old(other.mROW))
    {
      mROW := mROW[0 := Vector4.Sub(mROW[0], other.mROW[0])];
      mROW := mROW[1 := Vector4.Sub(mROW[1], other.mROW[1])];
      mROW := mROW[2 := Vector4.Sub(mROW[2], other.mROW[2])];
      mROW := mROW[3 := Vector4.Sub(mROW[3], other.mROW[3])];
    }

    /** operator*=(Mat): the product is built in a fresh matrix first and then
        copied in, so the result is right even when `other` is this object. */
    method MulAssign(other: Mat4)
      modifies this
      ensures mROW == Product(old(mROW), old(other.mROW))
    {
      var p := Multiply(mROW, other.mROW);
      mROW := p;
    }

    /** operator+=(val): adds the scalar to every entry, in place. */
    method AddScalarAssign(val: int)
      modifies this
      ensures mROW == AddScalar(old(mROW), val)
    {
      mROW := mROW[0 := Vector4.AddScalar(mROW[0], val)];
      mROW := mROW[1 := Vector4.AddScalar(mROW[1], val)];
      mROW := mROW[2 := Vector4.AddScalar(mROW[2], val)];
      mROW := mROW[3 := Vector4.AddScalar(mROW[3], val)];
    }

    /** operator-=(val): subtracts the scalar from every entry, in place. */
    method SubScalarAssign(val: int)
      modifies this
      ensures mROW == SubScalar(old(mROW), val)
    {
      mROW := mROW[0 := Vector4.SubScalar(mROW[0], val)];
      mROW := mROW[1 := Vector4.SubScalar(mROW[1], val)];
      mROW := mROW[2 := Vector4.SubScalar(mROW[2], val)];
      mROW := mROW[3 := Vector4.SubScalar(mROW[3], val)];
    }

    /** operator*=(val): scales every entry, in place. */
    method ScaleAssign(val: int)
      modifies this
      ensures mROW == Scale(old(mROW), val)
    {
      mROW := mROW[0 := Vector4.Scale(mROW[0], val)];
      mROW := mROW[1 := Vector4.Scale(mROW[1], val)];
      mROW := mROW[2 := Vector4.Scale(mROW[2], val)];
      mROW := mROW[3 := Vector4.Scale(mROW[3], val)];
    }

    /** operator/=(val): each row's Vec4 `/=` asserts that the divisor is not
        zero; every entry is divided in place. */
    method DivScalarAssign(val: int)
      requires !Math.IsZero(Math.Integer(val))
      modifies this
      ensures mROW == DivScalar(old(mROW), val)
    {
      mROW := mROW[0 := Vector4.Div(mROW[0], val)];
      mROW := mROW[1 := Vector4.Div(mROW[1], val)];
      mROW := mROW[2 := Vector4.Div(mROW[2], val)];
      mROW := mROW[3 := Vector4.Div(mROW[3], val)];
    }
  }
}
