/**
 * beta/teapot.py: the Bezier teapot, whose patch table counts vertices from
 * 1, and its spinning model matrix. The vertex and patch tables themselves
 * (beta/teapot_data.py) are not part of this model, so the expansion is
 * stated for any tables.
 */
module Teapot {
  import opened Wrappers
  import opened GlMath
  import opened Uniforms
  import opened Surfaces
  import Camera

  /** Every index lowered by one, as `indice - 1` does before the lookup. */
  function Decrement(indices: seq<int>): (r: seq<int>)
    ensures |r| == |indices|
    ensures forall k :: 0 <= k < |r| ==> r[k] == indices[k] - 1
  {
    if indices == [] then [] else [indices[0] - 1] + Decrement(indices[1..])
  }

  /** The patch table with every index lowered by one. */
  function DecrementAll(surfaces: seq<seq<int>>): (r: seq<seq<int>>)
    ensures |r| == |surfaces|
    ensures forall t :: 0 <= t < |r| ==> r[t] == Decrement(surfaces[t])
  {
    if surfaces == [] then [] else [Decrement(surfaces[0])] + DecrementAll(surfaces[1..])
  }

  /**
   * `Teapot.get_vertices_from_surface`: `vertices[indice - 1]` for every
   * index, patches in order; when no index raises, one row per index.
   */
  function VerticesFromSurfaceOneBased<T>(vertices: seq<T>, surfaces: seq<seq<int>>): (r: Option<seq<T>>)
    ensures r.Some? ==> |r.value| == TotalLength(surfaces)
  {
    Gather(vertices, Decrement(Flatten(surfaces)))
  }

  lemma {:induction false} DecrementAppend(a: seq<int>, b: seq<int>)
    ensures Decrement(a + b) == Decrement(a) + Decrement(b)
  {
    if a != [] {
      assert (a + b)[1..] == a[1..] + b;
      DecrementAppend(a[1..], b);
    }
  }

  lemma {:induction false} FlattenDecrement(surfaces: seq<seq<int>>)
    ensures Flatten(DecrementAll(surfaces)) == Decrement(Flatten(surfaces))
  {
    if surfaces != [] {
      FlattenDecrement(surfaces[1..]);
      DecrementAppend(surfaces[0], Flatten(surfaces[1..]));
      assert DecrementAll(surfaces)[1..] == DecrementAll(surfaces[1..]);
    }
  }

  /** The 1-based expansion is the 0-based one of the table with every index lowered by one. */
  lemma OneBasedIsShifted<T>(vertices: seq<T>, surfaces: seq<seq<int>>)
    ensures VerticesFromSurfaceOneBased(vertices, surfaces) == VerticesFromSurface(vertices, DecrementAll(surfaces))
  {
    FlattenDecrement(surfaces);
  }

  /**
   * Slot j of patch t yields vertices[i - 1] for an index i in 1..|vertices|;
   * index 0 does not raise but wraps around to the last vertex.
   */
  lemma OneBasedAt<T>(vertices: seq<T>, surfaces: seq<seq<int>>, t: nat, j: nat)
    requires VerticesFromSurfaceOneBased(vertices, surfaces).Some?
    requires t < |surfaces| && j < |surfaces[t]|
    ensures |VerticesFromSurfaceOneBased(vertices, surfaces).value| == TotalLength(surfaces)
    ensures Offset(surfaces, t) + j < TotalLength(surfaces)
    ensures 1 <= surfaces[t][j] <= |vertices| ==>
              VerticesFromSurfaceOneBased(vertices, surfaces).value[Offset(surfaces, t) + j] == vertices[surfaces[t][j] - 1]
    ensures surfaces[t][j] == 0 ==>
              |vertices| > 0 &&
              VerticesFromSurfaceOneBased(vertices, surfaces).value[Offset(surfaces, t) + j] == vertices[|vertices| - 1]
  {
    FlattenAt(surfaces, t, j);
    var k := Offset(surfaces, t) + j;
    assert Decrement(Flatten(surfaces))[k] == surfaces[t][j] - 1;
    var rows := VerticesFromSurfaceOneBased(vertices, surfaces).value;
    var i := surfaces[t][j];
    assert PyIndex(vertices, i - 1) == Some(rows[k]);
    if 1 <= i <= |vertices| {
      assert PyIndex(vertices, i - 1) == Some(vertices[i - 1]);
    } else if i == 0 {
      assert PyIndex(vertices, -1) == Some(vertices[|vertices| - 1]);
    }
  }

  /** The expansion raises IndexError exactly when some index lies outside 1 - |vertices| .. |vertices|. */
  lemma OneBasedDefined<T>(vertices: seq<T>, surfaces: seq<seq<int>>)
    ensures VerticesFromSurfaceOneBased(vertices, surfaces).Some? <==>
            forall t, j :: 0 <= t < |surfaces| && 0 <= j < |surfaces[t]| ==> 1 - |vertices| <= surfaces[t][j] <= |vertices|
  {
    var lowered := DecrementAll(surfaces);
    var flat := Flatten(lowered);
    OneBasedIsShifted(vertices, surfaces);
    if VerticesFromSurfaceOneBased(vertices, surfaces).Some? {
      forall t, j | 0 <= t < |surfaces| && 0 <= j < |surfaces[t]|
        ensures 1 - |vertices| <= surfaces[t][j] <= |vertices|
      {
        FlattenAt(lowered, t, j);
      }
    } else {
      var k :| 0 <= k < |flat| && !(-|vertices| <= flat[k] < |vertices|);
      FlattenFrom(lowered, k);
      var t, j :| 0 <= t < |lowered| && 0 <= j < |lowered[t]| && flat[k] == lowered[t][j];
      assert !(1 - |vertices| <= surfaces[t][j] <= |vertices|);
    }
  }

  /** The teapot's rotation at construction and its rotation per frame. */
  const StartRotation := Rotation(0.02, Vec3(0.0, 1.0, 1.0))
  const FrameRotation := Rotation(0.02, Vec3(0.0, 0.0, 1.0))

  class Teapot {
    var modelMatrix: Mat
    var uniforms: Table

    /** The uniform `model_matrix` holds the stored matrix. */
    predicate Current()
      reads this
    {
      Holds(uniforms, ModelMatrixName, Written(MatrixValue(modelMatrix)))
    }

    /** `Teapot.__init__`: the start rotation, then the three matrices uploaded to the new program. */
    constructor(camera: Camera.Camera)
      ensures modelMatrix == StartRotation
      ensures uniforms == map[ProjectionMatrixName := Written(MatrixValue(camera.projection)),
                              ViewMatrixName := Written(MatrixValue(camera.view)),
                              ModelMatrixName := Written(MatrixValue(StartRotation))]
      ensures Current()
    {
      modelMatrix := StartRotation;
      uniforms := map[];
      new;
      uniforms := uniforms[ProjectionMatrixName := Written(MatrixValue(camera.projection))];
      uniforms := uniforms[ViewMatrixName := Written(MatrixValue(camera.view))];
      uniforms := uniforms[ModelMatrixName := Written(MatrixValue(StartRotation))];
    }

    /** `update`: PyGLM's `rotate(m, angle, axis)` right-multiplies m by the rotation, which is then uploaded. */
    method Update()
      modifies this
      ensures modelMatrix == Product(old(modelMatrix), FrameRotation)
      ensures uniforms == old(uniforms)[ModelMatrixName := Written(MatrixValue(modelMatrix))]
      ensures Current()
    {
      modelMatrix := Product(modelMatrix, FrameRotation);
      uniforms := uniforms[ModelMatrixName := Written(MatrixValue(modelMatrix))];
    }
  }
}
