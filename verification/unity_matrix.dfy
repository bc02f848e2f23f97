/** The part of Unity's Vector4 / Matrix4x4 that the controller relies on:
    the matrix is built from four COLUMN vectors, `m[row, column]` reads an
    entry, and `transpose` swaps rows and columns. Entries are only copied,
    never computed on, so single-precision floats are modelled as reals. */
module UnityMatrix {

  /** A row or column index of a 4x4 matrix. */
  type Index = i: int | 0 <= i < 4

  datatype Vector4 = Vector4(x: real, y: real, z: real, w: real)
  {
    /** Component `i`, as Unity's `Vector4[i]` indexer. */
    function At(i: Index): real {
      if i == 0 then x else if i == 1 then y else if i == 2 then z else w
    }
  }

  /** `new Matrix4x4(column0, column1, column2, column3)`. */
  datatype Matrix4x4 = Matrix4x4(column0: Vector4, column1: Vector4, column2: Vector4, column3: Vector4)
  {
    function GetColumn(c: Index): Vector4 {
      if c == 0 then column0 else if c == 1 then column1 else if c == 2 then column2 else column3
    }

    /** `matrix[row, column]`. */
    function Get(row: Index, column: Index): real {
      GetColumn(column).At(row)
    }

    function GetRow(r: Index): Vector4 {
      Vector4(Get(r, 0), Get(r, 1), Get(r, 2), Get(r, 3))
    }

    /** `matrix.transpose`: the rows of this matrix become the columns of the result. */
    function Transpose(): (t: Matrix4x4)
      ensures forall r: Index, c: Index :: t.Get(r, c) == Get(c, r)
    {
      Matrix4x4(GetRow(0), GetRow(1), GetRow(2), GetRow(3))
    }
  }

  /** Two matrices with the same entries are the same matrix. */
  lemma Extensionality(a: Matrix4x4, b: Matrix4x4)
    requires forall r: Index, c: Index :: a.Get(r, c) == b.Get(r, c)
    ensures a == b
  {
    assert a.column0 == b.column0 by {
      assert a.Get(0, 0) == b.Get(0, 0) && a.Get(1, 0) == b.Get(1, 0);
      assert a.Get(2, 0) == b.Get(2, 0) && a.Get(3, 0) == b.Get(3, 0);
    }
    assert a.column1 == b.column1 by {
      assert a.Get(0, 1) == b.Get(0, 1) && a.Get(1, 1) == b.Get(1, 1);
      assert a.Get(2, 1) == b.Get(2, 1) && a.Get(3, 1) == b.Get(3, 1);
    }
    assert a.column2 == b.column2 by {
      assert a.Get(0, 2) == b.Get(0, 2) && a.Get(1, 2) == b.Get(1, 2);
      assert a.Get(2, 2) == b.Get(2, 2) && a.Get(3, 2) == b.Get(3, 2);
    }
    assert a.column3 == b.column3 by {
      assert a.Get(0, 3) == b.Get(0, 3) && a.Get(1, 3) == b.Get(1, 3);
      assert a.Get(2, 3) == b.Get(2, 3) && a.Get(3, 3) == b.Get(3, 3);
    }
  }

  /** Transposing twice gives back the original matrix. */
  lemma TransposeInvolution(m: Matrix4x4)
    ensures m.Transpose().Transpose() == m
  {
    Extensionality(m.Transpose().Transpose(), m);
  }

  /** `Matrix4x4.identity`. */
  const Identity: Matrix4x4 :=
    Matrix4x4(Vector4(1.0, 0.0, 0.0, 0.0), Vector4(0.0, 1.0, 0.0, 0.0),
              Vector4(0.0, 0.0, 1.0, 0.0), Vector4(0.0, 0.0, 0.0, 1.0))

  /** The identity has ones on the diagonal and zeros elsewhere, and is its own transpose. */
  lemma IdentityEntries()
    ensures forall r: Index, c: Index :: Identity.Get(r, c) == if r == c then 1.0 else 0.0
    ensures Identity.Transpose() == Identity
  {
    Extensionality(Identity.Transpose(), Identity);
  }
}
