# trisurf colouring and mesh assembly, in Dafny

A model of the pure data shaping in `trimesh.py`, the helper that turns a triangulated
surface into Plotly traces:

- `map_z2color` (module `Colors`): rejects a collapsed range with a ValueError.
  Otherwise it normalises `t = (z - vmin)/(vmax - vmin)`, samples the colormap at `t`,
  drops alpha, and truncates each channel times 255 to a `uint8`.
- `mpl_to_plotly` (module `ColorScales`): samples the colormap at `k/(n-1)` for
  `k = 0 .. n-1`.
- `plotly_trisurf` (modules `Mesh`, `Edges`, `Trisurf`). The steps are:
  - stack `x, y, z` into points;
  - gather each triangle's vertices through the simplices with numpy indexing;
  - average the heights of each triangle;
  - take the extremes of the means and colour each face with `map_z2color`;
  - split the simplices into `I, J, K`;
  - optionally build the colour-bar proxy trace and the wireframe polylines `Xe, Ye, Ze`;
  - return the traces in the order the four return branches give.

Floats are modelled as `real`. The colormap is a parameter `Colormap = real -> Rgba`
whose channels have the type `Channel` (reals in [0, 1]). A colour is a triple of bytes.
The model follows Python 2 semantics, which the code relies on: `map` returns a list, so
`C[0]` indexes it. A Python exception is the `Err` case of `Results.Result`, and the
`Results.Error` value names its cause. The Plotly traces are plain datatype values (`Trisurf.Trace`).
"Drawable" inputs (`Trisurf.Drawable`) are those `plotly_trisurf` returns traces for:
equal-length coordinate lists, every index in range, at least one triangle, and not
every triangle at the same mean height.

Behaviour of `trimesh.py` that is easy to misread:

- The wireframe has five entries per triangle, `[p0, p1, p2, p0, None]`, so there are
  `5T` entries in all. The breaks sit at the positions `5t + 4`.
- `mpl_to_plotly` divides by zero only when `pl_entries == 1`. For zero or a negative
  number of entries, `range` is empty and the result is `[]`.
- `points3D[simplices]` is numpy fancy indexing. A negative index counts once from the
  end. Any index outside `-n .. n-1` raises IndexError for the whole call.
- Unequal coordinate lists fail in `np.vstack`. An empty triangulation fails in `np.min`.
- A single triangle always fails, because its mean is both the minimum and the maximum.
  So does any surface whose triangle means are all equal.
- The wireframe is drawn whenever `plot_edges` is not `None`, `False` included. The
  model takes `plot_edges` as an `Option<bool>`.

## Model

| member | source | states |
|---|---|---|
| Colors.ChannelToByte | trimesh.py:12 | `np.uint8(c*255)` of a channel in [0,1] is the floor of `255c`: the byte `b` with `b <= 255c < b+1`; 0 maps to 0 and 1 maps to 255 |
| Colors.ToColor | trimesh.py:12 | `map(np.uint8, np.array(rgba[:3])*255)`: each of red, green and blue becomes the byte `b` with `b <= 255c < b+1`; alpha takes no part |
| Colors.ToColorIgnoresAlpha | trimesh.py:12 | changing the alpha channel of a colormap sample never changes the colour, because `[:3]` drops it |
| Colors.Normalize | trimesh.py:11 | `t` maps back to `zval` through `vmin + t(vmax-vmin)`; it is in [0,1] for values in the range, 0 at `vmin`, 1 at `vmax`, below 0 under the range and above 1 over it (no clamping) |
| Colors.MapZ2Color | trimesh.py:6-14 | fails with the range error exactly when `vmin >= vmax`; otherwise the colour is the colormap at the normalised position, without alpha, truncated to bytes |
| Colors.NormalizeRoundTrip | trimesh.py:11 | normalising and denormalising are mutually inverse on a proper range |
| Colors.NormalizeMonotone | trimesh.py:11 | normalisation keeps the order of values, both weakly and strictly, in both directions |
| Colors.MapZ2ColorEndpoints | trimesh.py:9-12 | `vmin` gets the colormap's colour at 0 and `vmax` its colour at 1; any range gives the same colour as the [0,1] range at the normalised value |
| Colors.GrayThirdIsEightyFive | trimesh.py:11-12 | on a grey ramp, the value 1/3 on the range [0,1] becomes `rgb(85, 85, 85)` |
| ColorScales.Stops | trimesh.py:18-21 | after `count` iterations the loop has appended exactly `count` stops, stop `k` at `k*h` with the colormap's colour there |
| ColorScales.Stop | trimesh.py:20-21 | one appended entry `[k*h, colour]` sits at `k*h`; when that position lies in [0,1] its colour is exactly what `map_z2color` gives it on the range [0,1] |
| ColorScales.MplToPlotly | trimesh.py:16-22 | fails with a division by zero exactly when `pl_entries == 1`; gives `[]` for zero or negative counts and `n` stops for `n >= 2` |
| ColorScales.StopPosition | trimesh.py:17-21 | stop `k` of an `n`-stop scale sits at `k/(n-1)` |
| ColorScales.ColorScaleShape | trimesh.py:17-21 | for `n >= 2`: `n` stops at `k/(n-1)`, strictly increasing, first 0, last 1, spaced `1/(n-1)` apart, each coloured by the colormap at its position |
| ColorScales.ColorScaleOrdered | trimesh.py:17-21 | for `n >= 2` the stop positions increase strictly, each `1/(n-1)` above the one before |
| ColorScales.ColorScaleMatchesMapZ2Color | trimesh.py:9-12 | every stop's colour is what `map_z2color` gives its position on [0,1], so the colour bar agrees with the faces |
| ColorScales.EmptyColorScale | trimesh.py:17-19 | zero or a negative number of entries raises nothing and yields an empty scale |
| Mesh.Points3D | trimesh.py:30 | stacking fails exactly when the three coordinate lists differ in length; otherwise there is one point per vertex |
| Mesh.Points3DColumns | trimesh.py:30 | the stacked points are the transpose: each column reads back as the list it came from |
| Mesh.ResolveIndex | trimesh.py:31 | an index resolves exactly when it is in `-n .. n-1`, to the position below `n` congruent to it modulo `n` |
| Mesh.Gather | trimesh.py:31 | the gather fails exactly when some simplex holds an index that does not resolve; otherwise `tri_vertices[t][c]` is the point simplex `t`'s column `c` selects |
| Mesh.GatherIndexes | trimesh.py:31 | for a non-negative index, `tri_vertices[t][c]` is `points3D[simplices[t][c]]` |
| Mesh.MinOf | trimesh.py:35 | the minimum is an element and is below every element |
| Mesh.MaxOf | trimesh.py:35 | the maximum is an element and is above every element |
| Mesh.MeanZ | trimesh.py:32 | a triangle's mean height is a third of the sum of its three heights and lies between the least and the greatest of them |
| Mesh.MeanHeights | trimesh.py:32 | `tri_vertices[:, :, 2].mean(-1)` has one entry per triangle, and three times entry `t` is the sum of triangle `t`'s heights |
| Mesh.MinEqualsMaxIff | trimesh.py:35-37 | minimum and maximum coincide exactly when all the means are equal |
| Mesh.Unzip | trimesh.py:38 | `I, J, K` have one entry per triangle and `(I[t], J[t], K[t])` is `simplices[t]` |
| Mesh.UnzipRoundTrip | trimesh.py:38 | zipping `I, J, K` back together gives the simplices |
| Edges.EdgeBlock | trimesh.py:76-78 | the block for one triangle is `[v0, v1, v2, v0, None]` along the axis |
| Edges.EdgeList | trimesh.py:72-78 | the polyline has five entries per triangle; entry `n` is entry `n mod 5` of triangle `n div 5`'s block |
| Edges.EdgeListBlock | trimesh.py:72-78 | block `t` is triangle `t`'s loop: entry `5t+3` repeats entry `5t` and entry `5t+4` is None |
| Edges.EdgeListBlocks | trimesh.py:75-78 | every block `t` of the polyline, at once, is triangle `t`'s block |
| Edges.EdgeListBreaks | trimesh.py:70-78 | an entry is None exactly at the positions `5t+4`, so consecutive triangles are never joined |
| Trisurf.FaceColors | trimesh.py:37 | the comprehension fails with the range error exactly when there is a mean and `vmin >= vmax`; otherwise face `t` gets `map_z2color` of mean `t` |
| Trisurf.OutputTraces | trimesh.py:64-91 | the four return branches are `[colorbar]?` then the mesh then `[lines]?` |
| Trisurf.Take2 | trimesh.py:54-56 | `s[:2]` has `min(len(s), 2)` elements and is a prefix of `s` |
| Trisurf.Colorbar | trimesh.py:50-61 | the proxy trace carries the first two points of each coordinate list (fewer when the list is shorter), spans the range `[zmin, zmax]` it is given, and has an 11-stop scale at `k/10`, from 0 to 1 |
| Trisurf.Wireframe | trimesh.py:72-86 | the lines trace has `5T` entries per axis, and block `t` on each axis is `[v0, v1, v2, v0, None]` of triangle `t` |
| Trisurf.BuildMesh | trimesh.py:30-48 | the mesh stage: unequal lists raise the stacking error and an empty triangulation always raises; a built mesh keeps `x, y, z`, has one triangle and one face colour per simplex, and `min_zmean < max_zmean`. The full error and content characterisation is in `Trisurf.BuildMeshErrors` and `Trisurf.BuildMeshContents` |
| Trisurf.PlotlyTrisurf | trimesh.py:24-91 | the whole call fails exactly when the mesh stage fails, with its error; on success it returns one, two or three traces, with the mesh after the optional colour bar. Its full contract is carried by `Trisurf.BuildMeshErrors`, `Trisurf.BuildMeshContents`, `Trisurf.TrisurfLayout`, `Trisurf.TrisurfColorbar` and `Trisurf.TrisurfWireframe` |
| Trisurf.Triangles | trimesh.py:30-31 | each gathered vertex is the point of the input coordinates the simplex selects |
| Trisurf.MeansAgree | trimesh.py:31-32 | the means computed through the gathered triangles equal the means of the selected heights read straight from `z` |
| Trisurf.BuildMeshUnfold | trimesh.py:30-48 | the mesh stage spelled out in terms of the selected heights, their extremes and the face colours |
| Trisurf.BuildMeshErrors | trimesh.py:30-37 | in the order the code meets them: ValueError for unequal lengths; IndexError for an index out of range; ValueError for no triangles; the range error exactly when all triangle means are equal. The mesh is built exactly when none of these holds |
| Trisurf.FaceColorsNormalized | trimesh.py:35-37 | over a range holding every mean, no face fails; each face is coloured at its normalised mean in [0,1], with a mean at the lower bound coloured at 0 and one at the upper bound at 1 |
| Trisurf.BuildMeshContents | trimesh.py:30-48 | for drawable inputs the mesh is built; it keeps `x, y, z`, has one face colour per simplex in order, and splits the simplices into `I, J, K`; every normalised mean lies in [0,1]; both extremes are attained; the lowest faces take the colormap at 0 and the highest at 1 |
| Trisurf.SingleTriangleFails | trimesh.py:35-37 | one triangle alone always raises the range error |
| Trisurf.UnitTriangleFails | trimesh.py:30-37 | the triangle `(0,0,0), (1,0,0), (0,1,1)` on its own raises the range error |
| Trisurf.TrisurfFailsLikeMesh | trimesh.py:50-91 | the whole call fails exactly when the mesh stage fails, with the same error |
| Trisurf.OutputOrder | trimesh.py:64-91 | the optional colour bar is first, the mesh comes next and the optional lines are last; no other trace appears |
| Trisurf.TrisurfLayout | trimesh.py:50-91 | for drawable inputs the call succeeds; the output holds the colour bar exactly when `showcolorbar` is true, then the mesh, then the lines exactly when `plot_edges` is not None |
| Trisurf.TrisurfColorbar | trimesh.py:50-61 | for drawable inputs the colour-bar trace spans the minimum and maximum triangle means, over the first two points, with the 11-stop scale |
| Trisurf.WireframeBlock | trimesh.py:75-78 | block `t` of each polyline is simplex `t`'s closed outline read from the input coordinates |
| Trisurf.TrisurfWireframe | trimesh.py:72-86 | for drawable inputs the lines trace has `5T` entries per axis; block `t` is `[p0, p1, p2, p0, None]` of simplex `t` along each axis |

## Left out

- `gd_profSurf`: its colours come from `np.random`, and it reads the undefined names `tri_vertices` and `colorbar`. Its edge and colour-bar paths cannot run as written.
- Plotly trace construction and styling. `Mesh3d`, `Scatter3d`, `Line` and `Data` are foreign objects, kept only as the data they carry. The marker size, line colour and width, `mode`, `hoverinfo` and `name` constants are omitted.
- The text rendering `'rgb' + str(tuple)` of a colour (Python 2 `map`/`str` formatting). A colour is kept as its three bytes.
- The internals of matplotlib colormaps (`cm.RdBu`, the default argument). The colormap is a parameter whose channels lie in [0, 1]. `np.uint8` of values outside [0, 255] therefore never arises.
- IEEE floating point: rounding in the division, in the mean and in `k*h`. Results are exact over `real`; `NaN` and infinities are not modelled.
- `showcolorbar` values that are not booleans. For a bool, `== True` and `is True` agree. Values such as `1` would build the colour bar but not return it.
- `plot_edges` objects other than None or a bool. Only the None test matters, and `Option<bool>` covers it.
- Simplices that are not an integer array of shape (T, 3), such as ragged lists or float indices, and coordinate inputs that are not one-dimensional.
- The unused `scipy.spatial.Delaunay` import.
