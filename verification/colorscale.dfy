/** The palette discretisation of `mpl_to_plotly`. */
module ColorScales {
  import opened Results
  import opened Colors

  /** One stop `[position, 'rgb(...)']` of a Plotly colour scale. */
  datatype ScaleEntry = ScaleEntry(position: real, color: Color)

  type ColorScale = seq<ScaleEntry>

  /** The stop written for loop index `k` with step `h`: it sits at `k*h`, and when that
      position lies in [0, 1] its colour is what `map_z2color` gives it on that range. */
  function Stop(cmap: Colormap, h: real, k: nat): (e: ScaleEntry)
    ensures e.position == k as real * h
    ensures 0.0 <= e.position <= 1.0 ==> MapZ2Color(e.position, cmap, 0.0, 1.0) == Ok(e.color)
  {
    ScaleEntry(k as real * h, ToColor(cmap(k as real * h)))
  }

  /** The stops the loop `for k in range(count)` has appended once it has run
      `count` times. */
  function Stops(cmap: Colormap, h: real, count: nat): (s: ColorScale)
    ensures |s| == count
    ensures forall k :: 0 <= k < count ==> s[k] == Stop(cmap, h, k)
  {
    if count == 0 then [] else Stops(cmap, h, count - 1) + [Stop(cmap, h, count - 1)]
  }

  /** `mpl_to_plotly(cmap, pl_entries)`: the step `1.0/(pl_entries-1)` divides by zero
      for a single entry; for no or a negative number of entries the loop is empty. */
  function MplToPlotly(cmap: Colormap, plEntries: int): (r: Result<ColorScale>)
    ensures r.Err? <==> plEntries == 1
    ensures r.Err? ==> r.error == ZeroDivision
    ensures plEntries <= 0 ==> r == Ok([])
    ensures plEntries >= 2 ==> |r.value| == plEntries
  {
    if plEntries == 1 then Err(ZeroDivision)
    else
      var h := 1.0 / (plEntries - 1) as real;
      Ok(Stops(cmap, h, if plEntries < 0 then 0 else plEntries))
  }

  /** `k * (1/m)` is `k/m`. */
  lemma ScaledStep(k: nat, m: nat)
    requires m > 0
    ensures k as real * (1.0 / m as real) == k as real / m as real
  {
  }

  /** Dividing by a positive count keeps the order. */
  lemma DivideOrdered(i: real, j: real, m: real)
    requires m > 0.0 && i < j
    ensures i / m < j / m
  {
    assert (j / m - i / m) * m == j - i;
  }

  /** The stop at index `k` of an `n`-entry scale sits at `k/(n-1)`. */
  lemma StopPosition(cmap: Colormap, n: int, k: int)
    requires n >= 2 && 0 <= k < n
    ensures MplToPlotly(cmap, n).value[k].position == k as real / (n - 1) as real
  {
    ScaledStep(k, n - 1);
  }

  /** Positions are `k/(n-1)` with the given colours. */
  lemma ColorScalePositions(cmap: Colormap, n: int)
    requires n >= 2
    ensures var s := MplToPlotly(cmap, n).value;
      && (forall k :: 0 <= k < n ==> s[k].position == k as real / (n - 1) as real)
      && (forall k :: 0 <= k < n ==> s[k].color == ToColor(cmap(s[k].position)))
  {
    forall k | 0 <= k < n
      ensures MplToPlotly(cmap, n).value[k].position == k as real / (n - 1) as real
    {
      StopPosition(cmap, n, k);
    }
  }

  /** For at least two entries the stops sit at `k/(n-1)`: evenly spaced, strictly
      increasing, from 0 to 1, each coloured by the colormap at its own position. */
  lemma ColorScaleShape(cmap: Colormap, n: int)
    requires n >= 2
    ensures MplToPlotly(cmap, n).Ok?
    ensures var s := MplToPlotly(cmap, n).value;
      && |s| == n
      && s[0].position == 0.0
      && s[n - 1].position == 1.0
      && (forall k :: 0 <= k < n ==> s[k].position == k as real / (n - 1) as real)
      && (forall k :: 0 <= k < n ==> s[k].color == ToColor(cmap(s[k].position)))
      && (forall i, j :: 0 <= i < j < n ==> s[i].position < s[j].position)
      && (forall k :: 0 < k < n ==> s[k].position - s[k - 1].position == 1.0 / (n - 1) as real)
  {
    ColorScalePositions(cmap, n);
    ColorScaleOrdered(cmap, n);
  }

  /** The stops of an `n`-entry scale increase strictly, by `1/(n-1)` each step. */
  lemma ColorScaleOrdered(cmap: Colormap, n: int)
    requires n >= 2
    ensures var s := MplToPlotly(cmap, n).value;
      && |s| == n
      && (forall i, j :: 0 <= i < j < n ==> s[i].position < s[j].position)
      && (forall k :: 0 < k < n ==> s[k].position - s[k - 1].position == 1.0 / (n - 1) as real)
  {
    ColorScalePositions(cmap, n);
    var s := MplToPlotly(cmap, n).value;
    var m := (n - 1) as real;
    forall i, j | 0 <= i < j < n
      ensures s[i].position < s[j].position
    {
      DivideOrdered(i as real, j as real, m);
    }
    forall k | 0 < k < n
      ensures s[k].position - s[k - 1].position == 1.0 / m
    {
      Spacing(k, m);
    }
  }

  /** Neighbouring fractions with the same denominator differ by one over it. */
  lemma Spacing(k: int, m: real)
    requires m > 0.0
    ensures k as real / m - (k - 1) as real / m == 1.0 / m
  {
  }

  /** Every stop carries the colour `map_z2color` gives its position on the range [0, 1],
      so the colour bar and the face colours agree. */
  lemma ColorScaleMatchesMapZ2Color(cmap: Colormap, n: int, k: int)
    requires n >= 2 && 0 <= k < n
    ensures var e := MplToPlotly(cmap, n).value[k];
      MapZ2Color(e.position, cmap, 0.0, 1.0) == Ok(e.color)
  {
    var e := MplToPlotly(cmap, n).value[k];
    ColorScaleShape(cmap, n);
    assert 0.0 <= e.position <= 1.0 by {
      assert e.position == k as real / (n - 1) as real;
    }
    assert Normalize(e.position, 0.0, 1.0) == e.position;
  }

  /** Neither zero nor a negative number of entries raises: the scale is empty. */
  lemma EmptyColorScale(cmap: Colormap, n: int)
    requires n <= 0
    ensures MplToPlotly(cmap, n) == Ok([])
  {
  }
}
