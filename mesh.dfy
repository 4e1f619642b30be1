/**
 * modules/mesh.py: the vertex data of the three cube meshes, built from the
 * shared tables by index expansion, tuple repetition, numpy `reshape` and
 * `hstack`. Row 3 * t + j of a triangle mesh belongs to slot j of triangle t;
 * row 2 * s + e of the wire mesh to end e of segment s.
 */
module Mesh {
  import opened Wrappers
  import opened Surfaces
  import opened Tables

  /** TexturedCubeMesh's texture coordinates: corner k of the unit square, v pointing down. */
  const TexCoords: seq<Row> := [[0.0, 1.0], [1.0, 1.0], [1.0, 0.0], [0.0, 0.0]]

  /** Every triangle has three corners, each naming one of the 8 cube corners and one of the 4 texture corners. */
  lemma CubeTrianglesInRange()
    ensures |CubeSurfaces| == |TexCoordIndices| == 12
    ensures forall t :: 0 <= t < 12 ==> |CubeSurfaces[t]| == 3 && |TexCoordIndices[t]| == 3
    ensures forall t, j :: 0 <= t < 12 && 0 <= j < 3 ==> 0 <= CubeSurfaces[t][j] < 8 && 0 <= TexCoordIndices[t][j] < 4
  {
    forall t | 0 <= t < 12
      ensures |CubeSurfaces[t]| == 3 && |TexCoordIndices[t]| == 3
      ensures forall j :: 0 <= j < 3 ==> 0 <= CubeSurfaces[t][j] < 8 && 0 <= TexCoordIndices[t][j] < 4
    {
      assert t in {0, 1, 2, 3, 4, 5, 6, 7, 8, 9, 10, 11};
    }
  }

  /** Every segment has two ends, each one of the 8 cube corners. */
  lemma CubeLinesInRange()
    ensures |CubeLines| == 15
    ensures forall s :: 0 <= s < 15 ==> |CubeLines[s]| == 2 && 0 <= CubeLines[s][0] < 8 && 0 <= CubeLines[s][1] < 8
  {
    forall s | 0 <= s < 15
      ensures |CubeLines[s]| == 2 && 0 <= CubeLines[s][0] < 8 && 0 <= CubeLines[s][1] < 8
    {
      assert s in {0, 1, 2, 3, 4, 5, 6, 7, 8, 9, 10, 11, 12, 13, 14};
    }
  }

  /** No lookup of the cube's triangle expansions raises or wraps around, and they have 36 rows. */
  lemma CubeSurfacesInRange()
    ensures IndicesInRange(CubeVertices, CubeSurfaces) && IndicesInRange(CubeColors, CubeSurfaces)
    ensures forall t :: 0 <= t < |CubeSurfaces| ==> |CubeSurfaces[t]| == 3
    ensures TotalLength(CubeSurfaces) == 36
  {
    CubeTrianglesInRange();
    TotalLengthUniform(CubeSurfaces, 3);
  }

  /** No texture-coordinate lookup raises or wraps around, and the expansion has 36 rows. */
  lemma TexCoordIndicesInRange()
    ensures IndicesInRange(TexCoords, TexCoordIndices)
    ensures forall t :: 0 <= t < |TexCoordIndices| ==> |TexCoordIndices[t]| == 3
    ensures TotalLength(TexCoordIndices) == 36
    ensures |TexCoords| == 4 && forall i :: 0 <= i < 4 ==> |TexCoords[i]| == 2
  {
    CubeTrianglesInRange();
    forall t, j | 0 <= t < |TexCoordIndices| && 0 <= j < |TexCoordIndices[t]|
      ensures 0 <= TexCoordIndices[t][j] < |TexCoords|
    {
    }
    TotalLengthUniform(TexCoordIndices, 3);
    forall i | 0 <= i < 4
      ensures |TexCoords[i]| == 2
    {
      assert i in {0, 1, 2, 3};
    }
  }

  /** No lookup of the wire cube raises or wraps around, and the expansion has 30 rows. */
  lemma CubeLinesExpansionInRange()
    ensures IndicesInRange(CubeVertices, CubeLines)
    ensures forall s :: 0 <= s < |CubeLines| ==> |CubeLines[s]| == 2
    ensures TotalLength(CubeLines) == 30
  {
    CubeLinesInRange();
    assert |CubeVertices| == 8;
    forall s, e | 0 <= s < |CubeLines| && 0 <= e < |CubeLines[s]|
      ensures 0 <= CubeLines[s][e] < |CubeVertices|
    {
      assert e == 0 || e == 1;
    }
    TotalLengthUniform(CubeLines, 2);
  }

  /** The `normals` list: each face normal repeated six times, one 18-value tuple per face. */
  function NormalsTable(): (r: seq<Row>)
    ensures |r| == 6 && forall f :: 0 <= f < 6 ==> |r[f]| == 18
  {
    TableWidths();
    seq(6, f requires 0 <= f < 6 => Repeat(FaceNormals[f], 6))
  }

  /** `np.array(normals).reshape(36, 3)`. */
  function NormalsData(): (r: seq<Row>)
    ensures |r| == 36
    ensures forall k :: 0 <= k < 36 ==> |r[k]| == 3
  {
    TableWidths();
    ConcatLength(NormalsTable(), 18);
    Reshape(Concat(NormalsTable()), 36)
  }

  /** Row k of the normals carries the normal of face k / 6. */
  lemma NormalsDataAt(k: nat)
    requires k < 36
    ensures NormalsData()[k] == FaceNormals[k / 6]
  {
    NormalsRow(k);
  }

  lemma NormalsRow(k: nat)
    requires k < 36
    ensures |Concat(NormalsTable())| == 108
    ensures Concat(NormalsTable())[3 * k .. 3 * k + 3] == FaceNormals[k / 6]
  {
    TableWidths();
    var table := NormalsTable();
    var f, s := k / 6, k % 6;
    ConcatLength(table, 18);
    forall c | 0 <= c < 3
      ensures Concat(table)[3 * k + c] == FaceNormals[f][c]
    {
      RepeatSlot(k, c);
      ConcatAt(table, 18, f, 3 * s + c);
      assert Concat(table)[3 * k + c] == table[f][3 * s + c];
      assert table[f] == Repeat(FaceNormals[f], 6);
      assert table[f][3 * s + c] == FaceNormals[f][c];
    }
  }

  /** Value c of row k sits in the 18-value tuple of face k / 6 at a position congruent to c modulo 3. */
  lemma RepeatSlot(k: nat, c: nat)
    requires k < 36 && c < 3
    ensures 18 * (k / 6) + (3 * (k % 6) + c) == 3 * k + c
    ensures 3 * (k % 6) + c < 18 && (3 * (k % 6) + c) % 3 == c
  {
  }

  /** The expansion of the cube corners over the triangles: 36 positions. */
  function CubePositions(): (r: seq<Row>)
    ensures |r| == 36
    ensures forall k :: 0 <= k < 36 ==> |r[k]| == 3
  {
    TableWidths();
    CubeSurfacesInRange();
    VerticesFromSurfaceSome(CubeVertices, CubeSurfaces);
    VerticesFromSurface(CubeVertices, CubeSurfaces).value
  }

  /** The expansion of the corner colours over the triangles: 36 colours. */
  function CubeCornerColors(): (r: seq<Row>)
    ensures |r| == 36
    ensures forall k :: 0 <= k < 36 ==> |r[k]| == 3
  {
    TableWidths();
    CubeSurfacesInRange();
    VerticesFromSurfaceSome(CubeColors, CubeSurfaces);
    VerticesFromSurface(CubeColors, CubeSurfaces).value
  }

  /** The expansion of the texture corners over the texture indices: 36 coordinates. */
  function CubeTexCoords(): (r: seq<Row>)
    ensures |r| == 36
    ensures forall k :: 0 <= k < 36 ==> |r[k]| == 2
  {
    TexCoordIndicesInRange();
    VerticesFromSurfaceSome(TexCoords, TexCoordIndices);
    VerticesFromSurface(TexCoords, TexCoordIndices).value
  }

  /** TexturedCubeMesh.get_vertex_data: texcoord(2) ++ normal(3) ++ position(3) per row. */
  function TexturedCubeVertexData(): (r: seq<Row>)
    ensures |r| == 36
    ensures forall k :: 0 <= k < 36 ==> |r[k]| == 8
  {
    TableWidths();
    HStack(CubeTexCoords(), HStack(NormalsData(), CubePositions()))
  }

  /** SolidCubeMesh.get_vertex_data: color(3) ++ position(3) per row. */
  function SolidCubeVertexData(): (r: seq<Row>)
    ensures |r| == 36
    ensures forall k :: 0 <= k < 36 ==> |r[k]| == 6
  {
    HStack(CubeCornerColors(), CubePositions())
  }

  /** WireCubeMesh.get_vertex_data: position(3) only, two rows per segment. */
  function WireCubeVertexData(): (r: seq<Row>)
    ensures |r| == 30
    ensures forall k :: 0 <= k < 30 ==> |r[k]| == 3
  {
    TableWidths();
    CubeLinesExpansionInRange();
    VerticesFromSurfaceSome(CubeVertices, CubeLines);
    VerticesFromSurface(CubeVertices, CubeLines).value
  }

  /** Row 3t + j of an expansion over the cube triangles is the table row that slot j of triangle t names. */
  lemma TriangleSlot(vertices: seq<Row>, surfaces: seq<seq<int>>, t: nat, j: nat)
    requires IndicesInRange(vertices, surfaces)
    requires forall i :: 0 <= i < |surfaces| ==> |surfaces[i]| == 3
    requires t < |surfaces| && j < 3
    ensures VerticesFromSurface(vertices, surfaces).Some?
    ensures 3 * t + j < |VerticesFromSurface(vertices, surfaces).value|
    ensures VerticesFromSurface(vertices, surfaces).value[3 * t + j] == vertices[surfaces[t][j]]
  {
    VerticesFromSurfaceAt(vertices, surfaces, t, j);
    OffsetUniform(surfaces, 3, t);
  }

  /** Slot j of triangle t of the three triangle expansions: the corner, its colour and its texture corner. */
  lemma CubeSlot(t: nat, j: nat)
    requires t < 12 && j < 3
    ensures |CubeSurfaces[t]| == |TexCoordIndices[t]| == 3
    ensures 0 <= CubeSurfaces[t][j] < 8 && 0 <= TexCoordIndices[t][j] < 4
    ensures CubePositions()[3 * t + j] == CubeVertices[CubeSurfaces[t][j]]
    ensures CubeCornerColors()[3 * t + j] == CubeColors[CubeSurfaces[t][j]]
    ensures CubeTexCoords()[3 * t + j] == TexCoords[TexCoordIndices[t][j]]
  {
    CubeSurfacesInRange();
    TexCoordIndicesInRange();
    TriangleSlot(CubeVertices, CubeSurfaces, t, j);
    TriangleSlot(CubeColors, CubeSurfaces, t, j);
    TriangleSlot(TexCoords, TexCoordIndices, t, j);
  }

  /** The textured cube's row for slot j of triangle t: its texture coordinate, the normal of face t / 2, its corner. */
  lemma TexturedCubeRow(t: nat, j: nat)
    requires t < 12 && j < 3
    ensures |CubeSurfaces[t]| == |TexCoordIndices[t]| == 3
    ensures 0 <= CubeSurfaces[t][j] < 8 && 0 <= TexCoordIndices[t][j] < 4
    ensures TexturedCubeVertexData()[3 * t + j]
            == TexCoords[TexCoordIndices[t][j]] + (FaceNormals[t / 2] + CubeVertices[CubeSurfaces[t][j]])
  {
    CubeSlot(t, j);
    FaceOfSlot(t, j);
    NormalsDataAt(3 * t + j);
  }

  /** Slot j of triangle t is row 3t + j, in the block of six rows of face t / 2. */
  lemma FaceOfSlot(t: nat, j: nat)
    requires j < 3
    ensures (3 * t + j) / 6 == t / 2
  {
  }

  /** The solid cube's row for slot j of triangle t: colour and position of the same corner. */
  lemma SolidCubeRow(t: nat, j: nat)
    requires t < 12 && j < 3
    ensures |CubeSurfaces[t]| == 3 && 0 <= CubeSurfaces[t][j] < 8
    ensures SolidCubeVertexData()[3 * t + j]
            == CubeColors[CubeSurfaces[t][j]] + CubeVertices[CubeSurfaces[t][j]]
  {
    CubeSlot(t, j);
  }

  /** The wire cube's rows 2s and 2s + 1 are the two ends of segment s. */
  lemma WireCubeRow(s: nat, e: nat)
    requires s < 15 && e < 2
    ensures |CubeLines[s]| == 2 && 0 <= CubeLines[s][e] < 8
    ensures WireCubeVertexData()[2 * s + e] == CubeVertices[CubeLines[s][e]]
  {
    CubeLinesExpansionInRange();
    VerticesFromSurfaceAt(CubeVertices, CubeLines, s, e);
    OffsetUniform(CubeLines, 2, s);
  }

  /** Point p lies on the plane of the cube face with outward normal n. */
  predicate OnPlane(p: Row, n: Row)
  {
    |p| == 3 && |n| == 3 && Dot(p, n) == 1.0
  }

  /** Every corner of triangle t lies on face t / 2. */
  lemma TriangleOnFace(t: nat)
    requires t < 12
    ensures |CubeSurfaces[t]| == 3
    ensures forall j :: 0 <= j < 3 ==> 0 <= CubeSurfaces[t][j] < 8 && OnPlane(CubeVertices[CubeSurfaces[t][j]], FaceNormals[t / 2])
  {
    if t == 0 {
    } else if t == 1 {
    } else if t == 2 {
    } else if t == 3 {
    } else if t == 4 {
    } else if t == 5 {
    } else if t == 6 {
    } else if t == 7 {
    } else if t == 8 {
    } else if t == 9 {
    } else if t == 10 {
    } else {
    }
  }

  /** Row k belongs to slot k % 3 of triangle k / 3, and triangle t to face t / 2. */
  lemma SlotOfRow(k: nat)
    ensures k == 3 * (k / 3) + k % 3 && k % 3 < 3
    ensures k / 6 == (k / 3) / 2
  {
  }

  /** The columns of a row laid out as a ++ b ++ c. */
  lemma Columns(a: Row, b: Row, c: Row)
    ensures (a + (b + c))[|a|..|a| + |b|] == b
    ensures (a + (b + c))[|a| + |b|..] == c
    ensures (a + c)[|a|..] == c
  {
    assert (a + (b + c))[|a|..] == b + c;
  }

  /** Rows 6f .. 6f + 5 of the textured cube carry normal f, and each row's position lies on that face. */
  lemma TexturedCubeNormals(k: nat)
    requires k < 36
    ensures TexturedCubeVertexData()[k][2..5] == FaceNormals[k / 6]
    ensures OnPlane(TexturedCubeVertexData()[k][5..], TexturedCubeVertexData()[k][2..5])
  {
    var t, j := k / 3, k % 3;
    SlotOfRow(k);
    TexturedColumns(k);
    NormalsDataAt(k);
    SlotOnFace(t, j);
    assert CubePositions()[k] == CubePositions()[3 * t + j];
  }

  /** Row k of the textured cube holds the normal and the position of row k in columns 2..5 and 5..8. */
  lemma TexturedColumns(k: nat)
    requires k < 36
    ensures TexturedCubeVertexData()[k][2..5] == NormalsData()[k]
    ensures TexturedCubeVertexData()[k][5..] == CubePositions()[k]
  {
    var tex, normal, position := CubeTexCoords()[k], NormalsData()[k], CubePositions()[k];
    assert TexturedCubeVertexData()[k] == tex + (normal + position);
    Columns(tex, normal, position);
  }

  /** The position of slot j of triangle t lies on face t / 2. */
  lemma SlotOnFace(t: nat, j: nat)
    requires t < 12 && j < 3
    ensures OnPlane(CubePositions()[3 * t + j], FaceNormals[t / 2])
  {
    CubeSlot(t, j);
    TriangleOnFace(t);
  }

  /** The textured and the solid cube place the same positions in the same rows. */
  lemma CubePositionsAgree(k: nat)
    requires k < 36
    ensures TexturedCubeVertexData()[k][5..] == SolidCubeVertexData()[k][3..]
  {
    var tex, normal, color, position := CubeTexCoords()[k], NormalsData()[k], CubeCornerColors()[k], CubePositions()[k];
    assert TexturedCubeVertexData()[k] == tex + (normal + position);
    assert SolidCubeVertexData()[k] == color + position;
    Columns(tex, normal, position);
    Columns(color, [], position);
  }
}
