/**
 * `Texture::Sample`: nearest-pixel lookup in an image held as a row-major
 * array of pixels, returning each channel normalised to [0, 1].
 *
 * The image is modelled after its pixels have been unpacked to bytes; the
 * surface's pixel format and `SDL_GetRGB` are not part of this model.
 */
module Textures {
  import opened Geometry

  datatype Rgb8 = Rgb8(r: byte, g: byte, b: byte)

  /** A loaded image: its size and its pixels, row after row. */
  datatype Texture = Texture(width: int, height: int, pixels: seq<Rgb8>) {
    /** The surface holds exactly width * height pixels. */
    predicate Valid() {
      0 <= width && 0 <= height && |pixels| == width * height
    }
  }

  /**
   * The column (or row) `Sample` reads for the coordinate u on an axis of n
   * pixels: u * n truncated towards zero. For u in [0, 1) it lies in [0, n).
   */
  function PixelCoordinate(u: real, n: int): (k: int)
    ensures 0.0 <= u < 1.0 && 0 < n ==> 0 <= k < n
  {
    var k := Trunc(u * n as real);
    assert 0.0 <= u < 1.0 && 0 < n ==> 0 <= k < n by {
      if 0.0 <= u < 1.0 && 0 < n { ScaledBelow(u, n, k); }
    }
    k
  }

  /** The array position `Sample` reads for `uv`: px + py * width. */
  function SampleIndex(t: Texture, uv: Vector2): int
  {
    RowMajor(PixelCoordinate(uv.x, t.width), PixelCoordinate(uv.y, t.height), t.width)
  }

  /** `Sample` reads inside the pixel array. */
  predicate CanSample(t: Texture, uv: Vector2)
  {
    0 <= SampleIndex(t, uv) < |t.pixels|
  }

  /** A byte divided by 255: 0 maps to 0, 255 maps to 1, everything in between stays in [0, 1]. */
  function Normalize(b: byte): (c: real)
    ensures 0.0 <= c <= 1.0
    ensures b == 0 ==> c == 0.0
    ensures b == 255 ==> c == 1.0
    ensures c * 255.0 == b as real
  {
    b as real / 255.0
  }

  /** `Texture::Sample(uv)`: the colour of the pixel under uv, channels in [0, 1]. */
  function Sample(t: Texture, uv: Vector2): (c: ColorRGB)
    requires CanSample(t, uv)
    ensures 0.0 <= c.r <= 1.0 && 0.0 <= c.g <= 1.0 && 0.0 <= c.b <= 1.0
    ensures c.r * 255.0 == t.pixels[SampleIndex(t, uv)].r as real
    ensures c.g * 255.0 == t.pixels[SampleIndex(t, uv)].g as real
    ensures c.b * 255.0 == t.pixels[SampleIndex(t, uv)].b as real
  {
    var p := t.pixels[SampleIndex(t, uv)];
    ColorRGB(Normalize(p.r), Normalize(p.g), Normalize(p.b))
  }

  /** For uv in [0, 1) x [0, 1) the lookup stays inside a valid, non-empty image. */
  lemma SampleInBounds(t: Texture, uv: Vector2)
    requires t.Valid() && 0 < t.width && 0 < t.height
    requires 0.0 <= uv.x < 1.0 && 0.0 <= uv.y < 1.0
    ensures CanSample(t, uv)
  {
    RowMajorInRange(PixelCoordinate(uv.x, t.width), PixelCoordinate(uv.y, t.height), t.width, t.height);
  }

  /** Truncating u * n for u in [0, 1) gives a column in [0, n). */
  lemma ScaledBelow(u: real, n: int, k: int)
    requires 0.0 <= u < 1.0 && 0 < n && k == Trunc(u * n as real)
    ensures 0 <= k < n
  {
    assert (1.0 - u) * n as real > 0.0;
    assert u * n as real < n as real;
  }


  /**
   * There is no clamping or wrapping: already uv.y = 1 reads one row past the
   * end of the image, whatever uv.x in [0, 1] is.
   */
  lemma SampleAtOneOverruns(t: Texture, uv: Vector2)
    requires t.Valid() && 0 < t.width && 0 < t.height
    requires 0.0 <= uv.x && uv.y == 1.0
    ensures !CanSample(t, uv)
  {
    assert PixelCoordinate(uv.y, t.height) == t.height;
    assert PixelCoordinate(uv.x, t.width) >= 0;
  }
}
