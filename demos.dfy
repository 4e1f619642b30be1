/**
 * modules/demos.py: the first demo objects. Their tables and index
 * expansion are the shared ones; TestCube and SkeletonCube upload exactly the
 * rows of SolidCubeMesh and WireCubeMesh, while CompanionCube has texture
 * coordinates of its own. Each object's `update` is modelled on its model
 * matrix and its program's uniform table.
 */
module Demos {
  import opened Wrappers
  import opened GlMath
  import opened Uniforms
  import opened Surfaces
  import opened Tables
  import opened Layout
  import opened Mesh
  import Camera

  /** TestCube.get_vertex_data: every row is the colour and the position of one and the same corner. */
  lemma SolidRowIsCorner(k: nat)
    requires k < 36
    ensures exists c :: 0 <= c < 8 && SolidCubeVertexData()[k] == CubeColors[c] + CubeVertices[c]
  {
    var t, j := k / 3, k % 3;
    SlotOfRow(k);
    SolidCubeRow(t, j);
    assert 3 * t + j == k;
    var c := CubeSurfaces[t][j];
    assert SolidCubeVertexData()[k] == CubeColors[c] + CubeVertices[c];
  }

  /** SkeletonCube.get_vertex_data: every row is the position of a corner, rows 2s and 2s + 1 being segment s. */
  lemma WireRowIsCorner(k: nat)
    requires k < 30
    ensures exists c :: 0 <= c < 8 && WireCubeVertexData()[k] == CubeVertices[c]
  {
    var s, e := k / 2, k % 2;
    EndOfRow(k);
    WireCubeRow(s, e);
    var c := CubeLines[s][e];
    RowAt(WireCubeVertexData(), k, 2 * s + e, CubeVertices[c]);
  }

  lemma RowAt(rows: seq<Row>, k: nat, i: nat, corner: Row)
    requires k == i < |rows| && rows[i] == corner
    ensures rows[k] == corner
  {
  }

  /** Row k of the wire cube is end k % 2 of segment k / 2. */
  lemma EndOfRow(k: nat)
    requires k < 30
    ensures k == 2 * (k / 2) + k % 2 && k / 2 < 15 && k % 2 < 2
  {
  }

  /** CompanionCube's texture coordinates: corner k of the unit square, v pointing up. */
  const CompanionTexCoords: seq<Row> := [[0.0, 0.0], [1.0, 0.0], [1.0, 1.0], [0.0, 1.0]]

  /** Each companion texture corner is the mesh's corner mirrored in v. */
  lemma TexCornersMirrored()
    ensures |CompanionTexCoords| == |TexCoords| == 4
    ensures forall i :: 0 <= i < 4 ==>
              |CompanionTexCoords[i]| == |TexCoords[i]| == 2 &&
              CompanionTexCoords[i][0] == TexCoords[i][0] && CompanionTexCoords[i][1] == 1.0 - TexCoords[i][1]
  {
    forall i | 0 <= i < 4
      ensures |CompanionTexCoords[i]| == |TexCoords[i]| == 2
      ensures CompanionTexCoords[i][0] == TexCoords[i][0] && CompanionTexCoords[i][1] == 1.0 - TexCoords[i][1]
    {
      assert i in {0, 1, 2, 3};
    }
  }

  /** The expansion of the companion texture corners over the texture indices. */
  function CompanionCubeTexCoords(): (r: seq<Row>)
    ensures |r| == 36
    ensures forall k :: 0 <= k < 36 ==> |r[k]| == 2
  {
    TexCoordIndicesInRange();
    TexCornersMirrored();
    assert IndicesInRange(CompanionTexCoords, TexCoordIndices);
    VerticesFromSurfaceSome(CompanionTexCoords, TexCoordIndices);
    VerticesFromSurface(CompanionTexCoords, TexCoordIndices).value
  }

  /** CompanionCube.get_vertex_data: texcoord(2) ++ normal(3) ++ position(3) per row. */
  function CompanionCubeVertexData(): (r: seq<Row>)
    ensures |r| == 36
    ensures forall k :: 0 <= k < 36 ==> |r[k]| == 8
  {
    HStack(CompanionCubeTexCoords(), HStack(NormalsData(), CubePositions()))
  }

  /** The rows fit the '2f 3f 3f' layout declared with three attribute names. */
  lemma CompanionCubeLayout()
    ensures Fits(TexturedFormat, ["in_texcoord", "in_normal", "in_position"], CompanionCubeVertexData())
  {
    KnownFormats();
  }

  /**
   * Row k of CompanionCube agrees with row k of TexturedCubeMesh in its normal
   * and position columns and in u, and has v mirrored.
   */
  lemma CompanionCubeMirrored(k: nat)
    requires k < 36
    ensures CompanionCubeVertexData()[k][2..] == TexturedCubeVertexData()[k][2..]
    ensures CompanionCubeVertexData()[k][0] == TexturedCubeVertexData()[k][0]
    ensures CompanionCubeVertexData()[k][1] == 1.0 - TexturedCubeVertexData()[k][1]
  {
    TexRowMirrored(k);
    var a, b := CompanionCubeTexCoords()[k], CubeTexCoords()[k];
    var rest := NormalsData()[k] + CubePositions()[k];
    assert CompanionCubeVertexData()[k] == a + rest;
    assert TexturedCubeVertexData()[k] == b + rest;
    Columns(a, [], rest);
    Columns(b, [], rest);
  }

  /** Row k of the two texture-coordinate expansions: same u, mirrored v. */
  lemma TexRowMirrored(k: nat)
    requires k < 36
    ensures CompanionCubeTexCoords()[k][0] == CubeTexCoords()[k][0]
    ensures CompanionCubeTexCoords()[k][1] == 1.0 - CubeTexCoords()[k][1]
  {
    var t, j := k / 3, k % 3;
    SlotOfRow(k);
    CubeSlot(t, j);
    CompanionTexSlot(t, j);
    TexCornersMirrored();
    var i := TexCoordIndices[t][j];
    RowAt(CompanionCubeTexCoords(), k, 3 * t + j, CompanionTexCoords[i]);
    RowAt(CubeTexCoords(), k, 3 * t + j, TexCoords[i]);
  }

  /** Slot j of triangle t of the companion texture expansion. */
  lemma CompanionTexSlot(t: nat, j: nat)
    requires t < 12 && j < 3
    ensures |TexCoordIndices[t]| == 3 && 0 <= TexCoordIndices[t][j] < 4
    ensures CompanionCubeTexCoords()[3 * t + j] == CompanionTexCoords[TexCoordIndices[t][j]]
  {
    TexCoordIndicesInRange();
    TexCornersMirrored();
    assert IndicesInRange(CompanionTexCoords, TexCoordIndices);
    TriangleSlot(CompanionTexCoords, TexCoordIndices, t, j);
  }

  /** The rotation the demo objects apply each frame. */
  const SpinAxis := Vec3(0.0, 1.0, 0.0)

  /** demos.CompanionCube: its model matrix and its program's uniforms. */
  class CompanionCube {
    var modelMatrix: Mat
    var uniforms: Table

    /** The uniforms hold the current model matrix and the camera's view matrix and position. */
    predicate Current(camera: Camera.Camera)
      reads this, camera
    {
      Holds(uniforms, ModelMatrixName, Written(MatrixValue(modelMatrix)))
      && Holds(uniforms, ViewMatrixName, Written(MatrixValue(camera.view)))
      && Holds(uniforms, CameraPositionName, Written(VectorValue(camera.position)))
    }

    /** `update`: right-multiply by one rotation about y, then upload the matrix, the view and the eye position. */
    method Update(camera: Camera.Camera)
      modifies this
      ensures modelMatrix == Product(old(modelMatrix), Rotation(0.02, SpinAxis))
      ensures uniforms == old(uniforms)[ModelMatrixName := Written(MatrixValue(modelMatrix))]
                                       [ViewMatrixName := Written(MatrixValue(camera.view))]
                                       [CameraPositionName := Written(VectorValue(camera.position))]
      ensures Current(camera)
    {
      var rotation := Rotate(RealArg(0.02), VecArg(SpinAxis), []);
      modelMatrix := Product(modelMatrix, rotation.value);
      uniforms := uniforms[ModelMatrixName := Written(MatrixValue(modelMatrix))];
      uniforms := uniforms[ViewMatrixName := Written(MatrixValue(camera.view))];
      uniforms := uniforms[CameraPositionName := Written(VectorValue(camera.position))];
    }
  }

  /** demos.TestCube and demos.SkeletonCube, whose `update` is the same. */
  class SpinningCube {
    var modelMatrix: Mat
    var uniforms: Table

    /**
     * `update` calls `rotate(self._model_matrix, 0.02, axis)`: the matrix lands
     * in `angle`, 0.02 in `axis` and the axis in the extra arguments, and an
     * extra argument that is not a matrix raises ValueError before anything is
     * written. The result is false when the call raises.
     */
    method Update(camera: Camera.Camera) returns (ok: bool)
      modifies this
      ensures !ok
      ensures modelMatrix == old(modelMatrix) && uniforms == old(uniforms)
    {
      var rotated := Rotate(MatArg(modelMatrix), RealArg(0.02), [VecArg(SpinAxis)]);
      if rotated.None? {
        return false;
      }
      assert false;
    }
  }
}
