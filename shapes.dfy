/**
 * modules/shapes.py: the demo triangle and the position-only test cube. Their
 * literal tables and index expansion are the shared ones (see Tables and
 * Surfaces); what is particular to this file is the layout they declare.
 */
module Shapes {
  import opened Surfaces
  import opened Tables
  import opened Layout
  import Mesh

  /** HelloTriangle.get_vertex_data: three corners of three coordinates, one '3f' attribute per vertex. */
  lemma TriangleLayout(name: string)
    ensures |TriangleVertices| == 3 && forall i :: 0 <= i < 3 ==> |TriangleVertices[i]| == 3
    ensures Fits(PositionFormat, [name], TriangleVertices)
  {
    TableWidths();
    KnownFormats();
  }

  /** TestCube.get_vertex_data: 36 rows, each one of the 8 cube corners, uploaded as '3f'. */
  lemma TestCubeLayout()
    ensures |Mesh.CubePositions()| == 36
    ensures Fits(PositionFormat, ["position"], Mesh.CubePositions())
    ensures forall k :: 0 <= k < 36 ==> exists c :: 0 <= c < 8 && Mesh.CubePositions()[k] == CubeVertices[c]
  {
    KnownFormats();
    forall k | 0 <= k < 36
      ensures exists c :: 0 <= c < 8 && Mesh.CubePositions()[k] == CubeVertices[c]
    {
      PositionIsCorner(k);
    }
  }

  /** Row k of the expansion is the corner that slot k % 3 of triangle k / 3 names. */
  lemma PositionIsCorner(k: nat)
    requires k < 36
    ensures 0 <= CubeSurfaces[k / 3][k % 3] < 8 && Mesh.CubePositions()[k] == CubeVertices[CubeSurfaces[k / 3][k % 3]]
  {
    var t, j := k / 3, k % 3;
    Mesh.SlotOfRow(k);
    assert 3 * t + j == k && t < 12 && j < 3;
    Mesh.CubeSlot(t, j);
    assert Mesh.CubePositions()[k] == Mesh.CubePositions()[3 * t + j];
  }
}
