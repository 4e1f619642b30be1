/**
 * Index expansion: the static `get_vertices_from_surface` of modules/mesh.py
 * (repeated verbatim in modules/demos.py and modules/shapes.py), which turns a
 * vertex table and a list of index tuples into one row per index.
 *
 * Python's `vertices[i]` accepts -len(vertices) <= i < len(vertices), a
 * negative index counting from the end, and raises IndexError otherwise; the
 * comprehension evaluates every index, so one bad index raises for the whole
 * call. IndexError is None here.
 */
module Surfaces {
  import opened Wrappers

  type Row = seq<real>

  /** Python list indexing `xs[i]`. */
  function PyIndex<T>(xs: seq<T>, i: int): (r: Option<T>)
    ensures r.Some? <==> -|xs| <= i < |xs|
    ensures 0 <= i < |xs| ==> r == Some(xs[i])
    ensures -|xs| <= i < 0 ==> r == Some(xs[|xs| + i])
  {
    if 0 <= i < |xs| then Some(xs[i])
    else if -|xs| <= i < 0 then Some(xs[|xs| + i])
    else None
  }

  /** Number of indices in all surface tuples together. */
  function TotalLength(surfaces: seq<seq<int>>): nat
  {
    if surfaces == [] then 0 else |surfaces[0]| + TotalLength(surfaces[1..])
  }

  /** Position, in the expansion, of the first index of surface `t`. */
  function Offset(surfaces: seq<seq<int>>, t: nat): nat
    requires t <= |surfaces|
  {
    if t == 0 then 0 else |surfaces[0]| + Offset(surfaces[1..], t - 1)
  }

  /** The indices in the order the comprehension visits them: surfaces in list order, slots left to right. */
  function Flatten(surfaces: seq<seq<int>>): (r: seq<int>)
    ensures |r| == TotalLength(surfaces)
  {
    if surfaces == [] then [] else surfaces[0] + Flatten(surfaces[1..])
  }

  /** Look every index up in `vertices`; None when one of them raises IndexError. */
  function Gather<T>(vertices: seq<T>, indices: seq<int>): (r: Option<seq<T>>)
    ensures r.Some? <==> forall k :: 0 <= k < |indices| ==> -|vertices| <= indices[k] < |vertices|
    ensures r.Some? ==> |r.value| == |indices|
    ensures r.Some? ==> forall k :: 0 <= k < |indices| ==> PyIndex(vertices, indices[k]) == Some(r.value[k])
  {
    if indices == [] then Some([])
    else
      match PyIndex(vertices, indices[0])
      case None => None
      case Some(v) =>
        match Gather(vertices, indices[1..])
        case None => None
        case Some(rest) => Some([v] + rest)
  }

  /**
   * `get_vertices_from_surface(vertices, surfaces)` (0-based indices): when
   * no index raises, one row per index.
   */
  function VerticesFromSurface<T>(vertices: seq<T>, surfaces: seq<seq<int>>): (r: Option<seq<T>>)
    ensures r.Some? ==> |r.value| == TotalLength(surfaces)
  {
    Gather(vertices, Flatten(surfaces))
  }

  /** The expansion raises IndexError exactly when some index lies outside -|vertices| .. |vertices| - 1. */
  lemma VerticesFromSurfaceDefined<T>(vertices: seq<T>, surfaces: seq<seq<int>>)
    ensures VerticesFromSurface(vertices, surfaces).Some? <==>
            forall t, j :: 0 <= t < |surfaces| && 0 <= j < |surfaces[t]| ==> -|vertices| <= surfaces[t][j] < |vertices|
  {
    var flat := Flatten(surfaces);
    if VerticesFromSurface(vertices, surfaces).Some? {
      forall t, j | 0 <= t < |surfaces| && 0 <= j < |surfaces[t]|
        ensures -|vertices| <= surfaces[t][j] < |vertices|
      {
        FlattenAt(surfaces, t, j);
      }
    } else {
      var k :| 0 <= k < |flat| && !(-|vertices| <= flat[k] < |vertices|);
      FlattenFrom(surfaces, k);
    }
  }

  /** Every index of every surface selects a row of `vertices` without wrapping around. */
  ghost predicate IndicesInRange<T>(vertices: seq<T>, surfaces: seq<seq<int>>)
  {
    forall t, j :: 0 <= t < |surfaces| && 0 <= j < |surfaces[t]| ==> 0 <= surfaces[t][j] < |vertices|
  }

  /** When every surface has `width` indices, the expansion has width * |surfaces| rows. */
  lemma {:induction false} TotalLengthUniform(surfaces: seq<seq<int>>, width: nat)
    requires forall i :: 0 <= i < |surfaces| ==> |surfaces[i]| == width
    ensures TotalLength(surfaces) == width * |surfaces|
  {
    if surfaces != [] {
      TotalLengthUniform(surfaces[1..], width);
    }
  }

  lemma {:induction false} FlattenAt(surfaces: seq<seq<int>>, t: nat, j: nat)
    requires t < |surfaces| && j < |surfaces[t]|
    ensures Offset(surfaces, t) + j < |Flatten(surfaces)|
    ensures Flatten(surfaces)[Offset(surfaces, t) + j] == surfaces[t][j]
  {
    if t > 0 {
      FlattenAt(surfaces[1..], t - 1, j);
    }
  }

  /** When every surface has `width` indices, surface t starts at width * t. */
  lemma {:induction false} OffsetUniform(surfaces: seq<seq<int>>, width: nat, t: nat)
    requires forall i :: 0 <= i < |surfaces| ==> |surfaces[i]| == width
    requires t <= |surfaces|
    ensures Offset(surfaces, t) == width * t
  {
    if t > 0 {
      OffsetUniform(surfaces[1..], width, t - 1);
      assert width * t == width * (t - 1) + width;
    }
  }

  /** Every flattened index comes from some slot of some surface. */
  lemma {:induction false} FlattenFrom(surfaces: seq<seq<int>>, k: nat)
    requires k < |Flatten(surfaces)|
    ensures exists t, j :: 0 <= t < |surfaces| && 0 <= j < |surfaces[t]| && Flatten(surfaces)[k] == surfaces[t][j]
  {
    if k < |surfaces[0]| {
      assert Flatten(surfaces)[k] == surfaces[0][k];
    } else {
      FlattenFrom(surfaces[1..], k - |surfaces[0]|);
      var t, j :| 0 <= t < |surfaces[1..]| && 0 <= j < |surfaces[1..][t]|
                  && Flatten(surfaces[1..])[k - |surfaces[0]|] == surfaces[1..][t][j];
      assert Flatten(surfaces)[k] == surfaces[t + 1][j];
    }
  }

  /**
   * With every index in range the expansion succeeds, has one row per index,
   * and the row for slot j of surface t is vertices[surfaces[t][j]].
   */
  lemma VerticesFromSurfaceAt<T>(vertices: seq<T>, surfaces: seq<seq<int>>, t: nat, j: nat)
    requires IndicesInRange(vertices, surfaces)
    requires t < |surfaces| && j < |surfaces[t]|
    ensures VerticesFromSurface(vertices, surfaces).Some?
    ensures |VerticesFromSurface(vertices, surfaces).value| == TotalLength(surfaces)
    ensures Offset(surfaces, t) + j < TotalLength(surfaces)
    ensures VerticesFromSurface(vertices, surfaces).value[Offset(surfaces, t) + j] == vertices[surfaces[t][j]]
  {
    VerticesFromSurfaceSome(vertices, surfaces);
    FlattenAt(surfaces, t, j);
  }

  /** In-range indices never raise. */
  lemma VerticesFromSurfaceSome<T>(vertices: seq<T>, surfaces: seq<seq<int>>)
    requires IndicesInRange(vertices, surfaces)
    ensures VerticesFromSurface(vertices, surfaces).Some?
    ensures |VerticesFromSurface(vertices, surfaces).value| == TotalLength(surfaces)
    ensures forall k :: 0 <= k < TotalLength(surfaces) ==>
              0 <= Flatten(surfaces)[k] < |vertices| &&
              VerticesFromSurface(vertices, surfaces).value[k] == vertices[Flatten(surfaces)[k]]
  {
    forall k | 0 <= k < |Flatten(surfaces)|
      ensures 0 <= Flatten(surfaces)[k] < |vertices|
    {
      FlattenFrom(surfaces, k);
    }
  }
}
