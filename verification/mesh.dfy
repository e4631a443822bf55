/** The geometric data shaping at the start of `plotly_trisurf`: stacking the coordinate
    lists into points, gathering each triangle's vertices through the simplices, the mean
    height of every triangle, its extremes, and the split of the simplices into `I, J, K`. */
module Mesh {
  import opened Results

  datatype Point = Point(x: real, y: real, z: real)

  /** One row `(i, j, k)` of the simplices array: three vertex indices. */
  datatype Simplex = Simplex(i: int, j: int, k: int)

  /** One row of `tri_vertices`: the three vertices of a triangle. */
  datatype Triangle = Triangle(v0: Point, v1: Point, v2: Point)

  datatype Axis = X | Y | Z

  function Coord(p: Point, axis: Axis): real
  {
    match axis
    case X => p.x
    case Y => p.y
    case Z => p.z
  }

  /** `simplex[c]` for a column `c` of the simplices array. */
  function Corner(s: Simplex, c: nat): int
    requires c < 3
  {
    if c == 0 then s.i else if c == 1 then s.j else s.k
  }

  /** `T[c]` for a row `T` of `tri_vertices`. */
  function Vertex(t: Triangle, c: nat): Point
    requires c < 3
  {
    if c == 0 then t.v0 else if c == 1 then t.v1 else t.v2
  }

  /** One coordinate of every point, in order. */
  function Column(points: seq<Point>, axis: Axis): (col: seq<real>)
    ensures |col| == |points|
  {
    seq(|points|, n requires 0 <= n < |points| => Coord(points[n], axis))
  }

  /** `np.vstack((x, y, z)).T`: numpy refuses rows of different lengths. */
  function Points3D(x: seq<real>, y: seq<real>, z: seq<real>): (r: Result<seq<Point>>)
    ensures r.Err? <==> !(|x| == |y| == |z|)
    ensures r.Err? ==> r.error == ShapeMismatch
    ensures r.Ok? ==> |r.value| == |x|
  {
    if |x| == |y| == |z| then
      Ok(seq(|x|, n requires 0 <= n < |x| => Point(x[n], y[n], z[n])))
    else
      Err(ShapeMismatch)
  }

  /** The stacked points are the transpose of the coordinate lists: reading back each
      column returns the list it was built from. */
  lemma Points3DColumns(x: seq<real>, y: seq<real>, z: seq<real>)
    requires |x| == |y| == |z|
    ensures Points3D(x, y, z).Ok?
    ensures Column(Points3D(x, y, z).value, X) == x
    ensures Column(Points3D(x, y, z).value, Y) == y
    ensures Column(Points3D(x, y, z).value, Z) == z
  {
  }

  /** How numpy resolves an integer index into an axis of length `n`: a negative index
      counts from the end, once; anything outside `-n .. n-1` is an IndexError. */
  function ResolveIndex(i: int, n: nat): (r: Option<nat>)
    ensures r.Some? <==> -(n as int) <= i < n
    ensures r.Some? ==> r.value < n && (r.value - i) % n == 0
  {
    if 0 <= i < n then Some(i)
    else if -(n as int) <= i < 0 then Some(i + n)
    else None
  }

  /** Every index of the simplex resolves against `n` points. */
  predicate SimplexInRange(s: Simplex, n: nat)
  {
    ResolveIndex(s.i, n).Some? && ResolveIndex(s.j, n).Some? && ResolveIndex(s.k, n).Some?
  }

  predicate AllInRange(simplices: seq<Simplex>, n: nat)
  {
    forall t :: 0 <= t < |simplices| ==> SimplexInRange(simplices[t], n)
  }

  /** The point a simplex's column `c` selects. */
  function CornerPoint(points: seq<Point>, s: Simplex, c: nat): Point
    requires c < 3 && SimplexInRange(s, |points|)
  {
    points[ResolveIndex(Corner(s, c), |points|).value]
  }

  /** `points3D[simplices]`: the fancy-indexing gather, which raises as a whole as soon as
      one index is out of range. */
  function Gather(points: seq<Point>, simplices: seq<Simplex>): (r: Result<seq<Triangle>>)
    ensures r.Err? <==> !AllInRange(simplices, |points|)
    ensures r.Err? ==> r.error == IndexOutOfBounds
    ensures r.Ok? ==> |r.value| == |simplices|
    ensures r.Ok? ==> forall t, c :: 0 <= t < |simplices| && 0 <= c < 3 ==>
      Vertex(r.value[t], c) == CornerPoint(points, simplices[t], c)
  {
    if AllInRange(simplices, |points|) then
      Ok(seq(|simplices|, t requires 0 <= t < |simplices| && AllInRange(simplices, |points|) =>
        Triangle(CornerPoint(points, simplices[t], 0),
                 CornerPoint(points, simplices[t], 1),
                 CornerPoint(points, simplices[t], 2))))
    else
      Err(IndexOutOfBounds)
  }

  /** With non-negative indices the gather is plain indexing: `tri_vertices[t][c]` is the
      point at index `simplices[t][c]`. */
  lemma GatherIndexes(points: seq<Point>, simplices: seq<Simplex>, t: int, c: int)
    requires 0 <= t < |simplices| && 0 <= c < 3
    requires 0 <= Corner(simplices[t], c) < |points|
    requires AllInRange(simplices, |points|)
    ensures Vertex(Gather(points, simplices).value[t], c) == points[Corner(simplices[t], c)]
  {
  }

  /** The mean of a triangle's three heights: one row of `tri_vertices[:, :, 2].mean(-1)`. */
  function MeanZ(t: Triangle): (m: real)
    ensures 3.0 * m == t.v0.z + t.v1.z + t.v2.z
    ensures MinOf([t.v0.z, t.v1.z, t.v2.z]) <= m <= MaxOf([t.v0.z, t.v1.z, t.v2.z])
  {
    (t.v0.z + t.v1.z + t.v2.z) / 3.0
  }

  /** `tri_vertices[:, :, 2].mean(-1)`: one mean height per triangle, in order. */
  function MeanHeights(tris: seq<Triangle>): (zmean: seq<real>)
    ensures |zmean| == |tris|
    ensures forall t :: 0 <= t < |tris| ==> 3.0 * zmean[t] == tris[t].v0.z + tris[t].v1.z + tris[t].v2.z
  {
    seq(|tris|, t requires 0 <= t < |tris| => MeanZ(tris[t]))
  }

  /** `np.min`: the least element of a non-empty sequence. */
  function MinOf(s: seq<real>): (m: real)
    requires |s| > 0
    ensures m in s
    ensures forall n :: 0 <= n < |s| ==> m <= s[n]
  {
    if |s| == 1 then s[0]
    else
      var rest := MinOf(s[1..]);
      if s[0] <= rest then s[0] else rest
  }

  /** `np.max`: the greatest element of a non-empty sequence. */
  function MaxOf(s: seq<real>): (m: real)
    requires |s| > 0
    ensures m in s
    ensures forall n :: 0 <= n < |s| ==> s[n] <= m
  {
    if |s| == 1 then s[0]
    else
      var rest := MaxOf(s[1..]);
      if s[0] >= rest then s[0] else rest
  }

  /** All elements of the sequence are equal. */
  predicate AllEqual(s: seq<real>)
  {
    forall a, b :: 0 <= a < |s| && 0 <= b < |s| ==> s[a] == s[b]
  }

  /** The extremes coincide exactly when every element is the same. */
  lemma MinEqualsMaxIff(s: seq<real>)
    requires |s| > 0
    ensures MinOf(s) == MaxOf(s) <==> AllEqual(s)
  {
    if MinOf(s) == MaxOf(s) {
      forall a, b | 0 <= a < |s| && 0 <= b < |s|
        ensures s[a] == s[b]
      {
        assert MinOf(s) <= s[a] <= MaxOf(s);
        assert MinOf(s) <= s[b] <= MaxOf(s);
      }
    } else {
      var a :| 0 <= a < |s| && s[a] == MinOf(s);
      var b :| 0 <= b < |s| && s[b] == MaxOf(s);
      assert s[a] != s[b];
    }
  }

  /** `I, J, K = zip(*simplices)`: the simplices split into three parallel index lists. */
  function Unzip(simplices: seq<Simplex>): (ijk: (seq<int>, seq<int>, seq<int>))
    ensures |ijk.0| == |ijk.1| == |ijk.2| == |simplices|
    ensures forall t :: 0 <= t < |simplices| ==> Simplex(ijk.0[t], ijk.1[t], ijk.2[t]) == simplices[t]
  {
    if |simplices| == 0 then ([], [], [])
    else
      var rest := Unzip(simplices[1..]);
      ([simplices[0].i] + rest.0, [simplices[0].j] + rest.1, [simplices[0].k] + rest.2)
  }

  /** Zipping the three lists back together. */
  function Zip3(i: seq<int>, j: seq<int>, k: seq<int>): (s: seq<Simplex>)
    requires |i| == |j| == |k|
    ensures |s| == |i|
  {
    seq(|i|, t requires 0 <= t < |i| => Simplex(i[t], j[t], k[t]))
  }

  /** Splitting and rezipping gives the simplices back. */
  lemma UnzipRoundTrip(simplices: seq<Simplex>)
    ensures var ijk := Unzip(simplices); Zip3(ijk.0, ijk.1, ijk.2) == simplices
  {
    var ijk := Unzip(simplices);
    assert forall t :: 0 <= t < |simplices| ==> Zip3(ijk.0, ijk.1, ijk.2)[t] == simplices[t];
  }
}
