/** The shape handling of a model's placement matrix in LoadModelsController.cs:
    the server sends `transform` as a row-major `float[][]` (null, or possibly
    ragged), `ParseTransform` validates it and falls back to the identity, the
    refresh transposes the result, and `ConvertMatrixToJson` copies a matrix
    back into a `float[4][4]` for the push-back. Only the array copy is
    modelled; the JSON text itself is produced by a foreign library. */
module ModelTransforms {
  import opened Common
  import opened UnityMatrix

  /** A C# `float[][]` as deserialized: the outer array and each row may be null. */
  type MatrixData = Option<seq<Option<seq<real>>>>

  /** Exactly four non-null rows of exactly four entries. */
  predicate IsWellFormed(d: MatrixData) {
    d.Some? && |d.value| == 4 &&
    forall i :: 0 <= i < |d.value| ==> d.value[i].Some? && |d.value[i].value| == 4
  }

  /** `data[row][column]` of well-formed data. */
  function At(d: MatrixData, row: Index, column: Index): real
    requires IsWellFormed(d)
  {
    d.value[row].value[column]
  }

  /** `new Vector4(row[0], row[1], row[2], row[3])`. */
  function RowVector(row: seq<real>): Vector4
    requires |row| == 4
  {
    Vector4(row[0], row[1], row[2], row[3])
  }

  /** Identity on null or mis-shaped data; otherwise the matrix whose COLUMNS are
      the data's rows, because Unity's constructor takes columns: the parsed
      matrix is the transpose of the row-major data. */
  function ParseTransform(d: MatrixData): (m: Matrix4x4)
    ensures !IsWellFormed(d) ==> m == Identity
    ensures IsWellFormed(d) ==> forall r: Index, c: Index :: m.Get(r, c) == At(d, c, r)
  {
    if d.None? then Identity
    else if |d.value| != 4 || exists i :: 0 <= i < |d.value| && (d.value[i].None? || |d.value[i].value| != 4) then
      Identity
    else
      Matrix4x4(RowVector(d.value[0].value), RowVector(d.value[1].value),
                RowVector(d.value[2].value), RowVector(d.value[3].value))
  }

  /** The matrix the refresh decomposes: `ParseTransform(data).transpose`. */
  function PlacementMatrix(d: MatrixData): (m: Matrix4x4)
    ensures IsWellFormed(d) ==> forall r: Index, c: Index :: m.Get(r, c) == At(d, r, c)
    ensures !IsWellFormed(d) ==> m == Identity
  {
    IdentityEntries();
    ParseTransform(d).Transpose()
  }

  /** The `float[4][4]` that `ConvertMatrixToJson` fills: entry `[i][j]` is `matrix[i, j]`. */
  function MatrixToRows(m: Matrix4x4): (rows: seq<seq<real>>)
    ensures |rows| == 4
    ensures forall i :: 0 <= i < 4 ==> |rows[i]| == 4
  {
    seq(4, i requires 0 <= i < 4 => seq(4, j requires 0 <= j < 4 => m.Get(i, j)))
  }

  /** The data as a plain 4x4 array. */
  function Rows(d: MatrixData): seq<seq<real>>
    requires IsWellFormed(d)
  {
    seq(4, i requires 0 <= i < 4 => d.value[i].value)
  }

  /** An array of rows as the non-null `float[][]` the server would send. */
  function AsData(rows: seq<seq<real>>): MatrixData {
    Some(seq(|rows|, i requires 0 <= i < |rows| => Some(rows[i])))
  }

  /** `ConvertMatrixToJson`'s array copy: a fresh `float[4][4]` filled row by row. */
  method ConvertMatrixToJson(m: Matrix4x4) returns (rows: seq<seq<real>>)
    ensures |rows| == 4
    ensures forall i :: 0 <= i < 4 ==> |rows[i]| == 4 && forall j :: 0 <= j < 4 ==> rows[i][j] == m.Get(i, j)
    ensures rows == MatrixToRows(m)
  {
    rows := [];
    var i := 0;
    while i < 4
      invariant 0 <= i <= 4
      invariant |rows| == i
      invariant forall k :: 0 <= k < i ==> rows[k] == MatrixToRows(m)[k]
    {
      var row: seq<real> := [];
      var j := 0;
      while j < 4
        invariant 0 <= j <= 4
        invariant |row| == j
        invariant forall l :: 0 <= l < j ==> row[l] == m.Get(i, l)
      {
        row := row + [m.Get(i, j)];
        j := j + 1;
      }
      rows := rows + [row];
      i := i + 1;
    }
  }

  /** Round trip of a refresh followed by a push-back: copying the placement
      matrix of well-formed data gives back exactly the data, so the server
      receives the row-major layout it sent. */
  lemma {:induction false} PlacementRoundTrip(d: MatrixData)
    requires IsWellFormed(d)
    ensures MatrixToRows(PlacementMatrix(d)) == Rows(d)
  {
    var m := PlacementMatrix(d);
    forall i | 0 <= i < 4
      ensures MatrixToRows(m)[i] == Rows(d)[i]
    {
      assert forall j :: 0 <= j < 4 ==> MatrixToRows(m)[i][j] == At(d, i, j);
    }
  }

  /** The other direction: a matrix copied out and parsed back as placement data
      is the matrix itself. */
  lemma {:induction false} RowsRoundTrip(m: Matrix4x4)
    ensures IsWellFormed(AsData(MatrixToRows(m)))
    ensures PlacementMatrix(AsData(MatrixToRows(m))) == m
  {
    var d := AsData(MatrixToRows(m));
    assert IsWellFormed(d);
    Extensionality(PlacementMatrix(d), m);
  }

  /** The position the refresh reads, `matrix.GetColumn(3)`, is the translation
      column `data[0..3][3]` of the row-major data, and the origin when the data
      is null or mis-shaped. */
  lemma PlacementPosition(d: MatrixData)
    ensures var p := PlacementMatrix(d).GetColumn(3);
      if IsWellFormed(d) then p.x == At(d, 0, 3) && p.y == At(d, 1, 3) && p.z == At(d, 2, 3)
      else p.x == 0.0 && p.y == 0.0 && p.z == 0.0
  {
    var m := PlacementMatrix(d);
    var p := m.GetColumn(3);
    assert p.x == m.Get(0, 3) && p.y == m.Get(1, 3) && p.z == m.Get(2, 3);
    if !IsWellFormed(d) {
      IdentityEntries();
    }
  }
}
