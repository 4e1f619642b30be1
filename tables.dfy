/**
 * The literal tables that modules/mesh.py, modules/demos.py and
 * modules/shapes.py each spell out again in every `get_vertex_data`: the
 * eight corners of the cube with side 2 centred at the origin, its twelve
 * triangles, fifteen line segments, the per-corner colours, the six face
 * normals, and the demo triangle. They are identical in every copy, so they
 * are defined once here.
 */
module Tables {
  import opened Surfaces

  const CubeVertices: seq<Row> :=
    [[-1.0, -1.0, 1.0], [1.0, -1.0, 1.0], [1.0, 1.0, 1.0], [-1.0, 1.0, 1.0],
     [-1.0, 1.0, -1.0], [-1.0, -1.0, -1.0], [1.0, -1.0, -1.0], [1.0, 1.0, -1.0]]

  /** Two triangles per face, faces in the order +Z, +X, -Z, -X, +Y, -Y. */
  const CubeSurfaces: seq<seq<int>> :=
    [[0, 2, 3], [0, 1, 2],
     [1, 7, 2], [1, 6, 7],
     [6, 5, 4], [4, 7, 6],
     [3, 4, 5], [3, 5, 0],
     [3, 7, 4], [3, 2, 7],
     [0, 6, 1], [0, 5, 6]]

  const CubeColors: seq<Row> :=
    [[0.0, 1.0, 1.0], [0.0, 0.0, 1.0], [0.0, 0.0, 0.0], [0.0, 1.0, 0.0],
     [1.0, 1.0, 0.0], [1.0, 1.0, 1.0], [1.0, 0.0, 1.0], [1.0, 0.0, 0.0]]

  const CubeLines: seq<seq<int>> :=
    [[0, 1], [1, 2], [2, 3],
     [3, 0], [0, 5], [5, 4],
     [4, 3], [3, 2], [2, 7],
     [7, 4], [4, 5], [5, 6],
     [6, 1], [1, 6], [6, 7]]

  /** Texture-coordinate indices, one triple per cube triangle. */
  const TexCoordIndices: seq<seq<int>> :=
    [[0, 2, 3], [0, 1, 2],
     [0, 2, 3], [0, 1, 2],
     [0, 1, 2], [2, 3, 0],
     [2, 3, 0], [2, 0, 1],
     [0, 2, 3], [0, 1, 2],
     [3, 1, 2], [3, 0, 1]]

  const FaceNormals: seq<Row> :=
    [[0.0, 0.0, 1.0], [1.0, 0.0, 0.0], [0.0, 0.0, -1.0],
     [-1.0, 0.0, 0.0], [0.0, 1.0, 0.0], [0.0, -1.0, 0.0]]

  const TriangleVertices: seq<Row> :=
    [[-0.6, -0.8, 0.0], [0.6, -0.8, 0.0], [0.0, 0.8, 0.0]]

  /** Every corner, colour and normal is a triple. */
  lemma TableWidths()
    ensures |CubeVertices| == |CubeColors| == 8 && |FaceNormals| == 6 && |TriangleVertices| == 3
    ensures forall i :: 0 <= i < 8 ==> |CubeVertices[i]| == 3 && |CubeColors[i]| == 3
    ensures forall f :: 0 <= f < 6 ==> |FaceNormals[f]| == 3
    ensures forall i :: 0 <= i < 3 ==> |TriangleVertices[i]| == 3
  {
    forall i | 0 <= i < 8
      ensures |CubeVertices[i]| == 3 && |CubeColors[i]| == 3
    {
      assert i in {0, 1, 2, 3, 4, 5, 6, 7};
    }
    forall f | 0 <= f < 6
      ensures |FaceNormals[f]| == 3
    {
      assert f in {0, 1, 2, 3, 4, 5};
    }
    forall i | 0 <= i < 3
      ensures |TriangleVertices[i]| == 3
    {
      assert i in {0, 1, 2};
    }
  }

  /** Python's tuple repetition `t * n` for a triple. */
  function Repeat(t: Row, n: nat): (r: Row)
    requires |t| == 3
    ensures |r| == 3 * n
    ensures forall k :: 0 <= k < |r| ==> r[k] == t[k % 3]
  {
    if n == 0 then [] else t + Repeat(t, n - 1)
  }

  /** Concatenation of the rows of a 2-D table, as numpy flattens it before a reshape. */
  function Concat(rows: seq<Row>): (r: Row)
  {
    if rows == [] then [] else rows[0] + Concat(rows[1..])
  }

  /** Element m of row f of a table whose rows all have `width` elements sits at width * f + m once flattened. */
  lemma {:induction false} ConcatAt(rows: seq<Row>, width: nat, f: nat, m: nat)
    requires forall i :: 0 <= i < |rows| ==> |rows[i]| == width
    requires f < |rows| && m < width
    ensures |Concat(rows)| == width * |rows|
    ensures width * f + m < |Concat(rows)| && Concat(rows)[width * f + m] == rows[f][m]
  {
    ConcatLength(rows, width);
    RowInside(width, f, |rows|, m);
    if f > 0 {
      var k := width * (f - 1) + m;
      ConcatAt(rows[1..], width, f - 1, m);
      assert width * f == width * (f - 1) + width;
      assert Concat(rows)[width + k] == Concat(rows[1..])[k];
    }
  }

  /** Row f of an n-row table of the given width ends inside the flattened table. */
  lemma {:induction false} RowInside(width: nat, f: nat, n: nat, m: nat)
    requires f < n && m < width
    ensures width * f + m < width * n
  {
    if n > f + 1 {
      RowInside(width, f, n - 1, m);
      assert width * n == width * (n - 1) + width;
    } else {
      assert width * n == width * f + width;
    }
  }

  lemma {:induction false} ConcatLength(rows: seq<Row>, width: nat)
    requires forall i :: 0 <= i < |rows| ==> |rows[i]| == width
    ensures |Concat(rows)| == width * |rows|
  {
    if rows != [] {
      ConcatLength(rows[1..], width);
    }
  }

  /** numpy's `reshape(n, 3)` of a flat array of 3 * n values. */
  function Reshape(flat: Row, n: nat): (r: seq<Row>)
    requires |flat| == 3 * n
    ensures |r| == n
    ensures forall i :: 0 <= i < n ==> r[i] == flat[3 * i .. 3 * i + 3]
  {
    seq(n, i requires 0 <= i < n => flat[3 * i .. 3 * i + 3])
  }

  /** numpy's `hstack` of two 2-D arrays with the same number of rows. */
  function HStack(left: seq<Row>, right: seq<Row>): (r: seq<Row>)
    requires |left| == |right|
    ensures |r| == |left|
    ensures forall i :: 0 <= i < |r| ==> r[i] == left[i] + right[i]
  {
    seq(|left|, i requires 0 <= i < |left| => left[i] + right[i])
  }

  function Dot(u: Row, v: Row): real
    requires |u| == 3 && |v| == 3
  {
    u[0] * v[0] + u[1] * v[1] + u[2] * v[2]
  }
}
