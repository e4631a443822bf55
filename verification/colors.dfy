/** The scalar-to-colour mapping of `map_z2color`. */
module Colors {
  import opened Results

  /** A colour channel as a matplotlib colormap returns it: a fraction in [0, 1]. */
  type Channel = c: real | 0.0 <= c <= 1.0

  /** One RGBA sample of a colormap. */
  datatype Rgba = Rgba(red: Channel, green: Channel, blue: Channel, alpha: Channel)

  /** A continuous colormap such as matplotlib's `cm.RdBu`; its internals are not modelled. */
  type Colormap = real -> Rgba

  /** The range of numpy's `uint8`. */
  type Byte = b: int | 0 <= b < 256

  /** A Plotly colour `rgb(r, g, b)`, kept as its three bytes rather than its text. */
  datatype Color = Rgb(red: Byte, green: Byte, blue: Byte)

  /** `np.uint8(c * 255)`: the float conversion truncates toward zero, which for a
      non-negative product is the floor. */
  function ChannelToByte(c: Channel): (b: Byte)
    ensures b as real <= c * 255.0 < b as real + 1.0
    ensures c == 0.0 ==> b == 0
    ensures c == 1.0 ==> b == 255
  {
    (c * 255.0).Floor
  }

  /** `map(np.uint8, np.array(rgba[:3]) * 255)`: the alpha channel is dropped and the
      other three are scaled and truncated. */
  function ToColor(rgba: Rgba): (c: Color)
    ensures c.red as real <= rgba.red * 255.0 < c.red as real + 1.0
    ensures c.green as real <= rgba.green * 255.0 < c.green as real + 1.0
    ensures c.blue as real <= rgba.blue * 255.0 < c.blue as real + 1.0
  {
    Rgb(ChannelToByte(rgba.red), ChannelToByte(rgba.green), ChannelToByte(rgba.blue))
  }

  /** The colour does not depend on the alpha channel. */
  lemma ToColorIgnoresAlpha(rgba: Rgba, alpha: Channel)
    ensures ToColor(rgba.(alpha := alpha)) == ToColor(rgba)
  {
  }

  /** The normalisation `(zval - vmin) / (vmax - vmin)`; values outside the range are
      not clamped. */
  function Normalize(zval: real, vmin: real, vmax: real): (t: real)
    requires vmin < vmax
    ensures vmin + t * (vmax - vmin) == zval
    ensures vmin <= zval <= vmax ==> 0.0 <= t <= 1.0
    ensures zval == vmin ==> t == 0.0
    ensures zval == vmax ==> t == 1.0
    ensures zval < vmin ==> t < 0.0
    ensures zval > vmax ==> t > 1.0
  {
    var d := vmax - vmin;
    var t := (zval - vmin) / d;
    assert t * d == zval - vmin;
    ScaleSign(t, d);
    ScaleSign(t - 1.0, d);
    t
  }

  /** Multiplying by a positive scale keeps the sign. */
  lemma ScaleSign(t: real, d: real)
    requires d > 0.0
    ensures t < 0.0 <==> t * d < 0.0
    ensures t == 0.0 <==> t * d == 0.0
    ensures t > 0.0 <==> t * d > 0.0
  {
  }

  /** The inverse of Normalize: the value in the original range at position `t`. */
  function Denormalize(t: real, vmin: real, vmax: real): real
  {
    vmin + t * (vmax - vmin)
  }

  /** `map_z2color(zval, colormap, vmin, vmax)`. */
  function MapZ2Color(zval: real, cmap: Colormap, vmin: real, vmax: real): (r: Result<Color>)
    ensures r.Err? <==> vmin >= vmax
    ensures r.Err? ==> r.error == InvalidRange
    ensures r.Ok? ==> r.value == ToColor(cmap(Normalize(zval, vmin, vmax)))
  {
    if vmin >= vmax then Err(InvalidRange)
    else Ok(ToColor(cmap(Normalize(zval, vmin, vmax))))
  }

  /** Normalize and Denormalize are mutually inverse on a proper range. */
  lemma NormalizeRoundTrip(zval: real, t: real, vmin: real, vmax: real)
    requires vmin < vmax
    ensures Denormalize(Normalize(zval, vmin, vmax), vmin, vmax) == zval
    ensures Normalize(Denormalize(t, vmin, vmax), vmin, vmax) == t
  {
    var d := vmax - vmin;
    var t' := Normalize(Denormalize(t, vmin, vmax), vmin, vmax);
    assert (t' - t) * d == 0.0;
    ScaleSign(t' - t, d);
  }

  /** Normalisation preserves the order of the values, strictly. */
  lemma NormalizeMonotone(z1: real, z2: real, vmin: real, vmax: real)
    requires vmin < vmax
    ensures z1 <= z2 <==> Normalize(z1, vmin, vmax) <= Normalize(z2, vmin, vmax)
    ensures z1 < z2 <==> Normalize(z1, vmin, vmax) < Normalize(z2, vmin, vmax)
  {
    var d := vmax - vmin;
    var t1, t2 := Normalize(z1, vmin, vmax), Normalize(z2, vmin, vmax);
    assert z2 - z1 == (t2 - t1) * d;
    ScaleSign(t2 - t1, d);
  }

  /** The ends of the range take the colormap's colours at 0 and at 1, and the colour
      of any value is that of its normalised position on [0, 1]. */
  lemma MapZ2ColorEndpoints(cmap: Colormap, zval: real, vmin: real, vmax: real)
    requires vmin < vmax
    ensures MapZ2Color(vmin, cmap, vmin, vmax) == Ok(ToColor(cmap(0.0)))
    ensures MapZ2Color(vmax, cmap, vmin, vmax) == Ok(ToColor(cmap(1.0)))
    ensures MapZ2Color(zval, cmap, vmin, vmax)
         == MapZ2Color(Normalize(zval, vmin, vmax), cmap, 0.0, 1.0)
  {
  }

  /** A grey ramp, clamped like a matplotlib colormap outside [0, 1]; used for examples. */
  function Gray(t: real): Rgba
  {
    var c: Channel := if t < 0.0 then 0.0 else if t > 1.0 then 1.0 else t;
    Rgba(c, c, c, 1.0)
  }

  /** A third of the way up a grey ramp truncates to 85 in every channel. */
  lemma GrayThirdIsEightyFive()
    ensures MapZ2Color(1.0 / 3.0, Gray, 0.0, 1.0) == Ok(Rgb(85, 85, 85))
  {
    var c := Gray(1.0 / 3.0).red;
    assert c == 1.0 / 3.0;
    assert ChannelToByte(c) == 85;
  }
}
