/** `plotly_trisurf`: the coloured mesh, the optional colour-bar proxy and the optional
    wireframe, returned as an ordered list of Plotly traces. */
module Trisurf {
  import opened Results
  import opened Colors
  import opened ColorScales
  import opened Mesh
  import opened Edges

  /** The Plotly traces the function builds, reduced to the data they carry; the styling
      constants (marker size, line colour and width, hover text, trace name) are left out. */
  datatype Trace =
    | Mesh3d(x: seq<real>, y: seq<real>, z: seq<real>, facecolor: seq<Color>,
             i: seq<int>, j: seq<int>, k: seq<int>)
    | ColorbarMarkers(x: seq<real>, y: seq<real>, z: seq<real>,
                      cmin: real, cmax: real, colorscale: ColorScale)
    | Lines(xe: seq<Option<real>>, ye: seq<Option<real>>, ze: seq<Option<real>>)

  /** `[map_z2color(zz, colormap, vmin, vmax) for zz in zmean]`: the first failing call
      aborts the comprehension. */
  function FaceColors(zmean: seq<real>, cmap: Colormap, vmin: real, vmax: real): (r: Result<seq<Color>>)
    ensures r.Err? <==> |zmean| > 0 && vmin >= vmax
    ensures r.Err? ==> r.error == InvalidRange
    ensures r.Ok? ==> |r.value| == |zmean|
    ensures vmin < vmax ==>
      forall t :: 0 <= t < |zmean| ==> Ok(r.value[t]) == MapZ2Color(zmean[t], cmap, vmin, vmax)
  {
    if |zmean| == 0 then Ok([])
    else
      // once the first call has passed the range check, the rest cannot fail
      var c :- MapZ2Color(zmean[0], cmap, vmin, vmax);
      Ok([c] + FaceColors(zmean[1..], cmap, vmin, vmax).value)
  }

  /** Python's `s[:2]`: the first two elements, or all of them when there are fewer. */
  function Take2(s: seq<real>): (r: seq<real>)
    ensures |r| == if |s| < 2 then |s| else 2
    ensures r == s[..|r|]
  {
    if |s| <= 2 then s else s[..2]
  }

  /** The marker trace whose only purpose is to show a colour bar over `[zmin, zmax]`,
      drawn with an 11-stop copy of the colormap (eleven entries never divide by zero). */
  function Colorbar(x: seq<real>, y: seq<real>, z: seq<real>, zmin: real, zmax: real,
                    cmap: Colormap): (tr: Trace)
    ensures tr.ColorbarMarkers?
    ensures tr.cmin == zmin && tr.cmax == zmax
    ensures |tr.x| == (if |x| < 2 then |x| else 2) && tr.x == x[..|tr.x|]
    ensures |tr.y| == (if |y| < 2 then |y| else 2) && tr.y == y[..|tr.y|]
    ensures |tr.z| == (if |z| < 2 then |z| else 2) && tr.z == z[..|tr.z|]
    ensures |tr.colorscale| == 11
    ensures tr.colorscale[0].position == 0.0 && tr.colorscale[10].position == 1.0
    ensures forall k :: 0 <= k < 11 ==> tr.colorscale[k].position == k as real / 10.0
  {
    ColorScaleShape(cmap, 11);
    ColorbarMarkers(Take2(x), Take2(y), Take2(z), zmin, zmax, MplToPlotly(cmap, 11).value)
  }

  /** The wireframe trace over the gathered triangles. */
  function Wireframe(tris: seq<Triangle>): (w: Trace)
    ensures w.Lines?
    ensures |w.xe| == |w.ye| == |w.ze| == 5 * |tris|
    ensures forall t :: 0 <= t < |tris| ==>
      w.xe[5 * t .. 5 * t + 5] == [Some(tris[t].v0.x), Some(tris[t].v1.x), Some(tris[t].v2.x), Some(tris[t].v0.x), None]
    ensures forall t :: 0 <= t < |tris| ==>
      w.ye[5 * t .. 5 * t + 5] == [Some(tris[t].v0.y), Some(tris[t].v1.y), Some(tris[t].v2.y), Some(tris[t].v0.y), None]
    ensures forall t :: 0 <= t < |tris| ==>
      w.ze[5 * t .. 5 * t + 5] == [Some(tris[t].v0.z), Some(tris[t].v1.z), Some(tris[t].v2.z), Some(tris[t].v0.z), None]
  {
    EdgeListBlocks(tris, X);
    EdgeListBlocks(tris, Y);
    EdgeListBlocks(tris, Z);
    Lines(EdgeList(tris, X), EdgeList(tris, Y), EdgeList(tris, Z))
  }

  function OptionalList(o: Option<Trace>): seq<Trace>
  {
    if o.Some? then [o.value] else []
  }

  /** The four `return Data([...])` branches at the end of `plotly_trisurf`. */
  function OutputTraces(colorbar: Option<Trace>, mesh: Trace, lines: Option<Trace>): (r: seq<Trace>)
    ensures r == OptionalList(colorbar) + [mesh] + OptionalList(lines)
  {
    if lines.None? then
      if colorbar.Some? then [colorbar.value, mesh] else [mesh]
    else
      if colorbar.Some? then [colorbar.value, mesh, lines.value] else [mesh, lines.value]
  }

  /** What the first half of `plotly_trisurf` computes: the gathered triangles, the
      extremes of their mean heights and the coloured mesh trace. */
  datatype ColoredMesh = ColoredMesh(tris: seq<Triangle>, zmin: real, zmax: real, mesh: Trace)

  /** `plotly_trisurf` up to the `Mesh3d` trace: stack, gather, average, colour, split. */
  function BuildMesh(x: seq<real>, y: seq<real>, z: seq<real>, simplices: seq<Simplex>,
                     cmap: Colormap): (r: Result<ColoredMesh>)
    ensures !(|x| == |y| == |z|) ==> r == Err(ShapeMismatch)
    ensures |simplices| == 0 ==> r.Err?
    ensures r.Ok? ==>
      && |r.value.tris| == |simplices|
      && r.value.zmin < r.value.zmax
      && r.value.mesh.Mesh3d?
      && r.value.mesh.x == x && r.value.mesh.y == y && r.value.mesh.z == z
      && |r.value.mesh.facecolor| == |simplices|
  {
    var points :- Points3D(x, y, z);
    var tris :- Gather(points, simplices);
    var zmean := MeanHeights(tris);
    if |zmean| == 0 then Err(EmptyReduction)
    else
      var zmin := MinOf(zmean);
      var zmax := MaxOf(zmean);
      var facecolor :- FaceColors(zmean, cmap, zmin, zmax);
      var (i, j, k) := Unzip(simplices);
      Ok(ColoredMesh(tris, zmin, zmax, Mesh3d(x, y, z, facecolor, i, j, k)))
  }

  /** `plotly_trisurf(x, y, z, simplices, colormap, showcolorbar, plot_edges)`.
      `plotEdges` stands for the Python argument `plot_edges`: only its absence (`None`)
      suppresses the wireframe. */
  function PlotlyTrisurf(x: seq<real>, y: seq<real>, z: seq<real>, simplices: seq<Simplex>,
                         cmap: Colormap, showColorbar: bool, plotEdges: Option<bool>): (r: Result<seq<Trace>>)
    ensures r.Ok? <==> BuildMesh(x, y, z, simplices, cmap).Ok?
    ensures r.Err? ==> r.error == BuildMesh(x, y, z, simplices, cmap).error
    ensures r.Ok? ==>
      && |r.value| == (if showColorbar then 1 else 0) + 1 + (if plotEdges.Some? then 1 else 0)
      && r.value[if showColorbar then 1 else 0] == BuildMesh(x, y, z, simplices, cmap).value.mesh
  {
    var m :- BuildMesh(x, y, z, simplices, cmap);
    var colorbar := if showColorbar then Some(Colorbar(x, y, z, m.zmin, m.zmax, cmap)) else None;
    var lines := if plotEdges.None? then None else Some(Wireframe(m.tris));
    Ok(OutputTraces(colorbar, m.mesh, lines))
  }

  // ---------------------------------------------------------------------------
  // Reference definitions, read straight from the coordinate lists and simplices.

  /** The coordinate a simplex's column `c` selects from one coordinate list. */
  function Selected(coords: seq<real>, s: Simplex, c: nat): real
    requires c < 3 && SimplexInRange(s, |coords|)
  {
    coords[ResolveIndex(Corner(s, c), |coords|).value]
  }

  /** The arithmetic mean of the heights of a simplex's three vertices. */
  function SimplexMean(z: seq<real>, s: Simplex): real
    requires SimplexInRange(s, |z|)
  {
    (Selected(z, s, 0) + Selected(z, s, 1) + Selected(z, s, 2)) / 3.0
  }

  function SimplexMeans(z: seq<real>, simplices: seq<Simplex>): (means: seq<real>)
    requires AllInRange(simplices, |z|)
    ensures |means| == |simplices|
  {
    seq(|simplices|, t requires 0 <= t < |simplices| => SimplexMean(z, simplices[t]))
  }

  /** The closed outline of a simplex along one coordinate list, with its break. */
  function ClosedLoop(coords: seq<real>, s: Simplex): seq<Option<real>>
    requires SimplexInRange(s, |coords|)
  {
    [Some(Selected(coords, s, 0)), Some(Selected(coords, s, 1)),
     Some(Selected(coords, s, 2)), Some(Selected(coords, s, 0)), None]
  }

  /** The inputs get past the stacking and the gather. */
  predicate WellShaped(x: seq<real>, y: seq<real>, z: seq<real>, simplices: seq<Simplex>)
  {
    |x| == |y| == |z| && AllInRange(simplices, |x|)
  }

  /** The inputs from which `plotly_trisurf` returns traces: well shaped, at least one
      triangle, and not every triangle at the same mean height. */
  predicate Drawable(x: seq<real>, y: seq<real>, z: seq<real>, simplices: seq<Simplex>)
  {
    WellShaped(x, y, z, simplices) && |simplices| > 0 && !AllEqual(SimplexMeans(z, simplices))
  }

  /** The triangles `plotly_trisurf` gathers from well-shaped inputs. */
  function Triangles(x: seq<real>, y: seq<real>, z: seq<real>, simplices: seq<Simplex>): (tris: seq<Triangle>)
    requires WellShaped(x, y, z, simplices)
    ensures |tris| == |simplices|
    ensures forall t :: 0 <= t < |simplices| ==>
      && tris[t].v0 == Point(Selected(x, simplices[t], 0), Selected(y, simplices[t], 0), Selected(z, simplices[t], 0))
      && tris[t].v1 == Point(Selected(x, simplices[t], 1), Selected(y, simplices[t], 1), Selected(z, simplices[t], 1))
      && tris[t].v2 == Point(Selected(x, simplices[t], 2), Selected(y, simplices[t], 2), Selected(z, simplices[t], 2))
  {
    var points := Points3D(x, y, z).value;
    var tris := Gather(points, simplices).value;
    assert forall t :: 0 <= t < |simplices| ==>
      Vertex(tris[t], 0) == CornerPoint(points, simplices[t], 0) &&
      Vertex(tris[t], 1) == CornerPoint(points, simplices[t], 1) &&
      Vertex(tris[t], 2) == CornerPoint(points, simplices[t], 2);
    tris
  }

  /** The per-triangle means computed through the gather are the means read straight
      from `z` through the simplices. */
  lemma MeansAgree(x: seq<real>, y: seq<real>, z: seq<real>, simplices: seq<Simplex>)
    requires WellShaped(x, y, z, simplices)
    ensures MeanHeights(Triangles(x, y, z, simplices)) == SimplexMeans(z, simplices)
  {
    var tris := Triangles(x, y, z, simplices);
    forall t | 0 <= t < |simplices|
      ensures MeanHeights(tris)[t] == SimplexMeans(z, simplices)[t]
    {
    }
  }

  /** The mesh stage spelled out for well-shaped inputs, in terms of the reference
      definitions above. */
  lemma BuildMeshUnfold(x: seq<real>, y: seq<real>, z: seq<real>, simplices: seq<Simplex>,
                        cmap: Colormap)
    requires WellShaped(x, y, z, simplices)
    ensures var r := BuildMesh(x, y, z, simplices, cmap);
      var zmean := SimplexMeans(z, simplices);
      && (|simplices| == 0 ==> r == Err(EmptyReduction))
      && (|simplices| > 0 ==>
            var zmin, zmax := MinOf(zmean), MaxOf(zmean);
            var fc := FaceColors(zmean, cmap, zmin, zmax);
            && (fc.Err? ==> r == Err(fc.error))
            && (fc.Ok? ==>
                  var ijk := Unzip(simplices);
                  r == Ok(ColoredMesh(Triangles(x, y, z, simplices), zmin, zmax,
                                      Mesh3d(x, y, z, fc.value, ijk.0, ijk.1, ijk.2)))))
  {
    MeansAgree(x, y, z, simplices);
  }

  /** Each of the four exceptions is raised exactly when its cause is present, checked
      in the order the code meets them; otherwise the mesh is built. */
  lemma BuildMeshErrors(x: seq<real>, y: seq<real>, z: seq<real>, simplices: seq<Simplex>,
                        cmap: Colormap)
    ensures var r := BuildMesh(x, y, z, simplices, cmap);
      && (!(|x| == |y| == |z|) ==> r == Err(ShapeMismatch))
      && (|x| == |y| == |z| && !AllInRange(simplices, |x|) ==> r == Err(IndexOutOfBounds))
      && (WellShaped(x, y, z, simplices) && |simplices| == 0 ==> r == Err(EmptyReduction))
      && (WellShaped(x, y, z, simplices) && |simplices| > 0 ==>
            && (r.Err? <==> AllEqual(SimplexMeans(z, simplices)))
            && (r.Err? ==> r.error == InvalidRange))
      && (r.Ok? <==> Drawable(x, y, z, simplices))
  {
    if WellShaped(x, y, z, simplices) {
      BuildMeshUnfold(x, y, z, simplices, cmap);
      if |simplices| > 0 {
        MinEqualsMaxIff(SimplexMeans(z, simplices));
      }
    }
  }

  /** The mesh carries the input coordinates, one face colour per triangle in simplex
      order, and the simplices split into `I, J, K`. Each face is coloured at the
      normalised position of its mean height, which lies in [0, 1]; the lowest triangles
      take the colormap's colour at 0 and the highest its colour at 1. */
  lemma BuildMeshContents(x: seq<real>, y: seq<real>, z: seq<real>, simplices: seq<Simplex>,
                          cmap: Colormap)
    requires Drawable(x, y, z, simplices)
    ensures BuildMesh(x, y, z, simplices, cmap).Ok?
    ensures var m := BuildMesh(x, y, z, simplices, cmap).value;
      var mesh := m.mesh;
      var zmean := SimplexMeans(z, simplices);
      && m.tris == Triangles(x, y, z, simplices)
      && m.zmin == MinOf(zmean) && m.zmax == MaxOf(zmean)
      && m.zmin < m.zmax
      && mesh.Mesh3d?
      && mesh.x == x && mesh.y == y && mesh.z == z
      && |mesh.facecolor| == |mesh.i| == |mesh.j| == |mesh.k| == |simplices|
      && (forall t :: 0 <= t < |simplices| ==> Simplex(mesh.i[t], mesh.j[t], mesh.k[t]) == simplices[t])
      && (exists t :: 0 <= t < |simplices| && zmean[t] == m.zmin)
      && (exists t :: 0 <= t < |simplices| && zmean[t] == m.zmax)
      && (forall t :: 0 <= t < |simplices| ==>
            && 0.0 <= Normalize(zmean[t], m.zmin, m.zmax) <= 1.0
            && mesh.facecolor[t] == ToColor(cmap(Normalize(zmean[t], m.zmin, m.zmax))))
      && (forall t :: 0 <= t < |simplices| && zmean[t] == m.zmin ==> mesh.facecolor[t] == ToColor(cmap(0.0)))
      && (forall t :: 0 <= t < |simplices| && zmean[t] == m.zmax ==> mesh.facecolor[t] == ToColor(cmap(1.0)))
  {
    BuildMeshErrors(x, y, z, simplices, cmap);
    BuildMeshUnfold(x, y, z, simplices, cmap);
    var zmean := SimplexMeans(z, simplices);
    var zmin, zmax := MinOf(zmean), MaxOf(zmean);
    var fc := FaceColors(zmean, cmap, zmin, zmax);
    FaceColorsNormalized(zmean, cmap, zmin, zmax);
  }

  /** Face colours over a range that holds every mean sit on [0, 1] of the colormap. */
  lemma FaceColorsNormalized(zmean: seq<real>, cmap: Colormap, zmin: real, zmax: real)
    requires zmin < zmax
    requires forall t :: 0 <= t < |zmean| ==> zmin <= zmean[t] <= zmax
    ensures FaceColors(zmean, cmap, zmin, zmax).Ok?
    ensures var fc := FaceColors(zmean, cmap, zmin, zmax).value;
      && |fc| == |zmean|
      && forall t :: 0 <= t < |zmean| ==>
      && 0.0 <= Normalize(zmean[t], zmin, zmax) <= 1.0
      && fc[t] == ToColor(cmap(Normalize(zmean[t], zmin, zmax)))
    ensures var fc := FaceColors(zmean, cmap, zmin, zmax).value;
      forall t :: 0 <= t < |zmean| && zmean[t] == zmin ==> fc[t] == ToColor(cmap(0.0))
    ensures var fc := FaceColors(zmean, cmap, zmin, zmax).value;
      forall t :: 0 <= t < |zmean| && zmean[t] == zmax ==> fc[t] == ToColor(cmap(1.0))
  {
  }

  /** A single triangle always fails: its mean is both the minimum and the maximum. */
  lemma SingleTriangleFails(x: seq<real>, y: seq<real>, z: seq<real>, s: Simplex,
                            cmap: Colormap, showColorbar: bool, plotEdges: Option<bool>)
    requires WellShaped(x, y, z, [s])
    ensures PlotlyTrisurf(x, y, z, [s], cmap, showColorbar, plotEdges) == Err(InvalidRange)
  {
    BuildMeshErrors(x, y, z, [s], cmap);
  }

  /** The flat unit triangle `(0,0,0), (1,0,0), (0,1,1)` cannot be drawn on its own. */
  lemma UnitTriangleFails(cmap: Colormap)
    ensures PlotlyTrisurf([0.0, 1.0, 0.0], [0.0, 0.0, 1.0], [0.0, 0.0, 1.0],
                          [Simplex(0, 1, 2)], cmap, false, None) == Err(InvalidRange)
  {
    SingleTriangleFails([0.0, 1.0, 0.0], [0.0, 0.0, 1.0], [0.0, 0.0, 1.0],
                        Simplex(0, 1, 2), cmap, false, None);
  }

  /** Position of the mesh in the output list. */
  function MeshPosition(showColorbar: bool): nat
  {
    if showColorbar then 1 else 0
  }

  /** The whole call fails exactly when the mesh stage fails, with the same error; the
      colour bar and the wireframe add no failure of their own. */
  lemma TrisurfFailsLikeMesh(x: seq<real>, y: seq<real>, z: seq<real>, simplices: seq<Simplex>,
                             cmap: Colormap, showColorbar: bool, plotEdges: Option<bool>)
    ensures var r := PlotlyTrisurf(x, y, z, simplices, cmap, showColorbar, plotEdges);
      var m := BuildMesh(x, y, z, simplices, cmap);
      && (r.Err? <==> m.Err?)
      && (r.Err? ==> r.error == m.error)
  {
  }

  /** The four return branches put the optional colour bar first, the mesh next and the
      optional lines last, and nothing else. */
  lemma OutputOrder(colorbar: Option<Trace>, mesh: Trace, lines: Option<Trace>)
    requires colorbar.Some? ==> colorbar.value.ColorbarMarkers?
    requires mesh.Mesh3d?
    requires lines.Some? ==> lines.value.Lines?
    ensures var traces := OutputTraces(colorbar, mesh, lines);
      var m := MeshPosition(colorbar.Some?);
      && |traces| == m + 1 + (if lines.Some? then 1 else 0)
      && traces[m] == mesh
      && (colorbar.Some? ==> traces[0] == colorbar.value)
      && (lines.Some? ==> traces[m + 1] == lines.value)
      && (forall n :: 0 <= n < |traces| ==> (traces[n].ColorbarMarkers? <==> colorbar.Some? && n == 0))
      && (forall n :: 0 <= n < |traces| ==> (traces[n].Mesh3d? <==> n == m))
      && (forall n :: 0 <= n < |traces| ==> (traces[n].Lines? <==> lines.Some? && n == m + 1))
  {
  }

  /** The output is `[colorbar]` when asked for, then the mesh, then `[lines]` whenever
      `plot_edges` is not None (even when it is False), and nothing else. */
  lemma TrisurfLayout(x: seq<real>, y: seq<real>, z: seq<real>, simplices: seq<Simplex>,
                      cmap: Colormap, showColorbar: bool, plotEdges: Option<bool>)
    requires Drawable(x, y, z, simplices)
    ensures PlotlyTrisurf(x, y, z, simplices, cmap, showColorbar, plotEdges).Ok?
    ensures var traces := PlotlyTrisurf(x, y, z, simplices, cmap, showColorbar, plotEdges).value;
      var m := MeshPosition(showColorbar);
      && |traces| == m + 1 + (if plotEdges.Some? then 1 else 0)
      && traces[m] == BuildMesh(x, y, z, simplices, cmap).value.mesh
      && (forall n :: 0 <= n < |traces| ==> (traces[n].ColorbarMarkers? <==> showColorbar && n == 0))
      && (forall n :: 0 <= n < |traces| ==> (traces[n].Mesh3d? <==> n == m))
      && (forall n :: 0 <= n < |traces| ==> (traces[n].Lines? <==> plotEdges.Some? && n == m + 1))
  {
    BuildMeshContents(x, y, z, simplices, cmap);
    var m := BuildMesh(x, y, z, simplices, cmap).value;
    var colorbar := if showColorbar then Some(Colorbar(x, y, z, m.zmin, m.zmax, cmap)) else None;
    var lines := if plotEdges.None? then None else Some(Wireframe(m.tris));
    assert PlotlyTrisurf(x, y, z, simplices, cmap, showColorbar, plotEdges)
        == Ok(OutputTraces(colorbar, m.mesh, lines));
    OutputOrder(colorbar, m.mesh, lines);
  }

  /** The colour-bar proxy spans the extremes of the mean heights with the 11-stop scale,
      over the first two points of each coordinate list. */
  lemma TrisurfColorbar(x: seq<real>, y: seq<real>, z: seq<real>, simplices: seq<Simplex>,
                        cmap: Colormap, plotEdges: Option<bool>)
    requires Drawable(x, y, z, simplices)
    ensures PlotlyTrisurf(x, y, z, simplices, cmap, true, plotEdges).Ok?
    ensures var cb := PlotlyTrisurf(x, y, z, simplices, cmap, true, plotEdges).value[0];
      var zmean := SimplexMeans(z, simplices);
      && cb.ColorbarMarkers?
      && cb.cmin == MinOf(zmean) && cb.cmax == MaxOf(zmean)
      && cb.x == Take2(x) && cb.y == Take2(y) && cb.z == Take2(z)
      && |cb.colorscale| == 11
      && cb.colorscale == MplToPlotly(cmap, 11).value
  {
    BuildMeshContents(x, y, z, simplices, cmap);
  }

  /** Block `t` of each polyline over the gathered triangles is simplex `t`'s outline. */
  lemma WireframeBlock(x: seq<real>, y: seq<real>, z: seq<real>, simplices: seq<Simplex>, t: int)
    requires WellShaped(x, y, z, simplices)
    requires 0 <= t < |simplices|
    ensures var w := Wireframe(Triangles(x, y, z, simplices));
      && |w.xe| == |w.ye| == |w.ze| == 5 * |simplices|
      && w.xe[5 * t .. 5 * t + 5] == ClosedLoop(x, simplices[t])
      && w.ye[5 * t .. 5 * t + 5] == ClosedLoop(y, simplices[t])
      && w.ze[5 * t .. 5 * t + 5] == ClosedLoop(z, simplices[t])
  {
    var tris := Triangles(x, y, z, simplices);
    AxisBlock(tris, t, x, simplices[t], X);
    AxisBlock(tris, t, y, simplices[t], Y);
    AxisBlock(tris, t, z, simplices[t], Z);
  }

  /** One axis of block `t`, when triangle `t` holds the simplex's selected coordinates. */
  lemma AxisBlock(tris: seq<Triangle>, t: int, coords: seq<real>, s: Simplex, axis: Axis)
    requires 0 <= t < |tris| && SimplexInRange(s, |coords|)
    requires Coord(tris[t].v0, axis) == Selected(coords, s, 0)
    requires Coord(tris[t].v1, axis) == Selected(coords, s, 1)
    requires Coord(tris[t].v2, axis) == Selected(coords, s, 2)
    ensures EdgeList(tris, axis)[5 * t .. 5 * t + 5] == ClosedLoop(coords, s)
  {
    EdgeListBlock(tris, axis, t);
  }

  /** Every block of the wireframe is the closed outline of the matching simplex, read
      from the input coordinates, and the three polylines have five entries per triangle. */
  lemma TrisurfWireframe(x: seq<real>, y: seq<real>, z: seq<real>, simplices: seq<Simplex>,
                         cmap: Colormap, showColorbar: bool, plotEdges: Option<bool>, t: int)
    requires Drawable(x, y, z, simplices)
    requires plotEdges.Some?
    requires 0 <= t < |simplices|
    ensures PlotlyTrisurf(x, y, z, simplices, cmap, showColorbar, plotEdges).Ok?
    ensures var lines := PlotlyTrisurf(x, y, z, simplices, cmap, showColorbar, plotEdges).value[MeshPosition(showColorbar) + 1];
      && lines.Lines?
      && |lines.xe| == |lines.ye| == |lines.ze| == 5 * |simplices|
      && lines.xe[5 * t .. 5 * t + 5] == ClosedLoop(x, simplices[t])
      && lines.ye[5 * t .. 5 * t + 5] == ClosedLoop(y, simplices[t])
      && lines.ze[5 * t .. 5 * t + 5] == ClosedLoop(z, simplices[t])
  {
    BuildMeshContents(x, y, z, simplices, cmap);
    var m := BuildMesh(x, y, z, simplices, cmap).value;
    var colorbar := if showColorbar then Some(Colorbar(x, y, z, m.zmin, m.zmax, cmap)) else None;
    var tris := Triangles(x, y, z, simplices);
    assert PlotlyTrisurf(x, y, z, simplices, cmap, showColorbar, plotEdges)
        == Ok(OutputTraces(colorbar, m.mesh, Some(Wireframe(tris))));
    OutputOrder(colorbar, m.mesh, Some(Wireframe(tris)));
    WireframeBlock(x, y, z, simplices, t);
  }
}
