/** The wireframe polylines `Xe, Ye, Ze` of `plotly_trisurf`: every triangle's outline
    as a closed loop of four points, with `None` breaking the line between triangles. */
module Edges {
  import opened Results
  import opened Mesh

  /** `[T[k%3][axis] for k in range(4)] + [None]` for one row `T` of `tri_vertices`. */
  function EdgeBlock(tri: Triangle, axis: Axis): (b: seq<Option<real>>)
    ensures b == [Some(Coord(tri.v0, axis)), Some(Coord(tri.v1, axis)),
                  Some(Coord(tri.v2, axis)), Some(Coord(tri.v0, axis)), None]
  {
    seq(4, k requires 0 <= k < 4 => Some(Coord(Vertex(tri, k % 3), axis))) + [None]
  }

  /** The list after `for T in tri_vertices: Xe += block(T)`, one axis at a time. */
  function EdgeList(tris: seq<Triangle>, axis: Axis): (e: seq<Option<real>>)
    ensures |e| == 5 * |tris|
    ensures forall n :: 0 <= n < |e| ==> e[n] == EdgeBlock(tris[n / 5], axis)[n % 5]
  {
    if |tris| == 0 then []
    else EdgeList(tris[..|tris| - 1], axis) + EdgeBlock(tris[|tris| - 1], axis)
  }

  /** Block `t` of the polyline is triangle `t`'s loop `v0, v1, v2, v0` followed by a break. */
  lemma EdgeListBlock(tris: seq<Triangle>, axis: Axis, t: int)
    requires 0 <= t < |tris|
    ensures var e := EdgeList(tris, axis);
      && e[5 * t .. 5 * t + 5] == EdgeBlock(tris[t], axis)
      && e[5 * t] == Some(Coord(tris[t].v0, axis))
      && e[5 * t + 1] == Some(Coord(tris[t].v1, axis))
      && e[5 * t + 2] == Some(Coord(tris[t].v2, axis))
      && e[5 * t + 3] == e[5 * t]
      && e[5 * t + 4] == None
  {
    var e := EdgeList(tris, axis);
    var b := EdgeBlock(tris[t], axis);
    forall c | 0 <= c < 5
      ensures e[5 * t + c] == b[c]
    {
      BlockPosition(t, c);
    }
    assert e[5 * t .. 5 * t + 5] == b;
  }

  /** Every block of the polyline at once. */
  lemma EdgeListBlocks(tris: seq<Triangle>, axis: Axis)
    ensures var e := EdgeList(tris, axis);
      forall t :: 0 <= t < |tris| ==> e[5 * t .. 5 * t + 5] == EdgeBlock(tris[t], axis)
  {
    forall t | 0 <= t < |tris|
      ensures EdgeList(tris, axis)[5 * t .. 5 * t + 5] == EdgeBlock(tris[t], axis)
    {
      EdgeListBlock(tris, axis, t);
    }
  }

  /** Position `5t + c` of the polyline lies in block `t`, at offset `c`. */
  lemma BlockPosition(t: nat, c: nat)
    requires c < 5
    ensures (5 * t + c) / 5 == t && (5 * t + c) % 5 == c
  {
  }

  /** The breaks sit exactly at every fifth position; every other entry is a coordinate,
      so no two triangles are joined by a segment. */
  lemma EdgeListBreaks(tris: seq<Triangle>, axis: Axis)
    ensures var e := EdgeList(tris, axis);
      forall n :: 0 <= n < |e| ==> (e[n].None? <==> n % 5 == 4)
  {
  }
}
