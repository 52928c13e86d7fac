/**
 * The software path of a mesh: per frame the depth buffer is reset, the
 * material's vertex stage turns the mesh vertices into projected vertices,
 * and every index triple is rasterised into a depth buffer and a colour
 * buffer of width * height entries, row after row.
 *
 * A triangle is dropped when one of its vertices leaves the normalised
 * device box or when its signed raster area is below 0.001. Otherwise every
 * pixel of its clamped bounding box is visited: edge functions decide
 * coverage, a less-than test against the depth buffer decides visibility,
 * and the material's pixel stage (or one of two debug views) gives the
 * colour.
 *
 * The material's stages are passed in as the function values
 * `vertexShading` and `pixelShading`, so that everything proved here holds
 * for any material.
 */
module Meshes {
  import opened Geometry
  import opened Vertices

  /** `FLT_MAX`, the value every depth entry holds at the start of a frame. */
  const FltMax: real := 340282346638528859811704183484516925440.0

  /** Triangles whose signed raster area is below this are dropped. */
  const MinArea: real := 0.001

  /** The depth range the depth view spreads over the gray levels. */
  const RemapMin: real := 0.995
  const RemapMax: real := 1.0

  /** One entry of the colour buffer, as three 8-bit channels. */
  datatype Pixel = Pixel(r: byte, g: byte, b: byte)

  const White := Pixel(255, 255, 255)

  /** `static_cast<uint8_t>(c * 255)` of a channel already brought to at most one. */
  function ToByte(c: real): (b: byte)
    ensures c <= 0.0 ==> b == 0
    ensures c >= 1.0 ==> b == 255
    ensures 0.0 <= c <= 1.0 ==> b as real <= c * 255.0 < b as real + 1.0
  {
    var x := Clamp(c, 0.0, 1.0) * 255.0;
    assert 0.0 <= x <= 255.0;
    x.Floor as byte
  }

  function ToPixel(c: ColorRGB): Pixel
  {
    Pixel(ToByte(c.r), ToByte(c.g), ToByte(c.b))
  }

  function Gray(level: real): ColorRGB
  {
    ColorRGB(level, level, level)
  }

  // ---------------------------------------------------------------------
  // Per-vertex helpers
  // ---------------------------------------------------------------------

  /** `FrustumCulling`: a vertex is culled exactly when it leaves [-1, 1] x [-1, 1] x [0, 1]. */
  function FrustumCulling(v: Vector4): (culled: bool)
    ensures !culled <==> -1.0 <= v.x <= 1.0 && -1.0 <= v.y <= 1.0 && 0.0 <= v.z <= 1.0
  {
    if v.x < -1.0 || v.x > 1.0 then true
    else if v.y < -1.0 || v.y > 1.0 then true
    else if v.z < 0.0 || v.z > 1.0 then true
    else false
  }

  /**
   * `NDCToRaster`: x from [-1, 1] to [0, width] left to right, y from
   * [-1, 1] to [0, height] top to bottom; everything else is kept.
   */
  function NDCToRaster(v: VertexOut, width: int, height: int): (r: VertexOut)
    ensures r.position.z == v.position.z && r.position.w == v.position.w
    ensures r.uv == v.uv && r.normal == v.normal && r.tangent == v.tangent
    ensures r.color == v.color && r.worldPosition == v.worldPosition
    ensures !FrustumCulling(v.position) && 0 <= width && 0 <= height ==>
              0.0 <= r.position.x <= width as real && 0.0 <= r.position.y <= height as real
  {
    var x := ((1.0 + v.position.x) / 2.0) * width as real;
    var y := ((1.0 - v.position.y) / 2.0) * height as real;
    UnitTimes((1.0 + v.position.x) / 2.0, width, x);
    UnitTimes((1.0 - v.position.y) / 2.0, height, y);
    v.(position := v.position.(x := x, y := y))
  }

  /** The raster mapping is undone by x = 2 rx / width - 1 and y = 1 - 2 ry / height. */
  lemma NDCToRasterInverse(v: VertexOut, width: int, height: int)
    requires 0 < width && 0 < height
    ensures var r := NDCToRaster(v, width, height);
            v.position.x == 2.0 * r.position.x / width as real - 1.0 &&
            v.position.y == 1.0 - 2.0 * r.position.y / height as real
  {
    var r := NDCToRaster(v, width, height);
    HalfScaleInverse(1.0 + v.position.x, width, r.position.x);
    HalfScaleInverse(1.0 - v.position.y, height, r.position.y);
  }

  lemma UnitTimes(u: real, n: int, x: real)
    requires x == u * n as real
    ensures 0.0 <= u <= 1.0 && 0 <= n ==> 0.0 <= x <= n as real
  {
    if 0.0 <= u <= 1.0 && 0 <= n {
      ProductNonnegative(u, n as real);
      ProductNonnegative(1.0 - u, n as real);
    }
  }

  lemma HalfScaleInverse(a: real, n: int, x: real)
    requires x == (a / 2.0) * n as real
    ensures 0 < n ==> 2.0 * x / n as real == a
  {
  }

  lemma ProductNonnegative(a: real, b: real)
    requires 0.0 <= a && 0.0 <= b
    ensures 0.0 <= a * b
  {
  }

  lemma ProductPositive(a: real, b: real)
    requires 0.0 < a && 0.0 < b
    ensures 0.0 < a * b
  {
  }

  /**
   * `Remap(value, min, max)`: the value rewritten as its position in
   * [min, max], and whether that position lies in [0, 1].
   */
  function Remap(value: real, min: real, max: real): (result: (real, bool))
    requires min != max
    ensures result.0 * (max - min) == value - min
    ensures result.1 <==> 0.0 <= result.0 <= 1.0
  {
    var remapped := (value - min) / (max - min);
    (remapped, !(remapped < 0.0 || remapped > 1.0))
  }

  /** A value inside [min, max] is always reported in range. */
  lemma RemapInRange(value: real, min: real, max: real)
    requires min < max && min <= value <= max
    ensures Remap(value, min, max).1
  {
    var d := max - min;
    var r := Remap(value, min, max).0;
    assert r * d == value - min;
    SignOfProduct(r, d);
    SignOfProduct(r - 1.0, d);
    assert (r - 1.0) * d == r * d - d;
    assert 0.0 <= r <= 1.0;
  }

  /** A product with a positive factor has the sign of the other factor. */
  lemma SignOfProduct(a: real, b: real)
    requires 0.0 < b
    ensures a < 0.0 ==> a * b < 0.0
    ensures a > 0.0 ==> a * b > 0.0
  {
    if a < 0.0 {
      ProductPositive(-a, b);
    }
    if a > 0.0 {
      ProductPositive(a, b);
    }
  }

  /**
   * The gray level of the depth view: the depth remapped from
   * [0.995, 1] to [0, 1] and clamped, whatever `Remap` reported.
   */
  function DepthGray(d: real): (level: real)
    ensures 0.0 <= level <= 1.0
    ensures d <= RemapMin ==> level == 0.0
    ensures d >= RemapMax ==> level == 1.0
    ensures RemapMin <= d <= RemapMax ==> level * (RemapMax - RemapMin) == d - RemapMin
  {
    var remapped := Remap(d, RemapMin, RemapMax).0;
    Clamp(remapped, 0.0, 1.0)
  }

  // ---------------------------------------------------------------------
  // Triangle set-up
  // ---------------------------------------------------------------------

  /** Three projected vertices taken from one index triple. */
  datatype Triangle = Triangle(v0: VertexOut, v1: VertexOut, v2: VertexOut)

  /**
   * A triangle after set-up: its raster-space vertices, the three edge
   * vectors, the signed area and the clamped bounding box
   * [left, right) x [top, bottom) of visited pixels.
   */
  datatype Setup = Setup(
    v0: VertexOut, v1: VertexOut, v2: VertexOut,
    edge0: Vector2, edge1: Vector2, edge2: Vector2,
    area: real,
    left: int, top: int, right: int, bottom: int)

  /** The rasteriser divides by depth z and by clip w; both must be positive where it does so. */
  predicate DepthSafe(v: VertexOut)
  {
    !FrustumCulling(v.position) ==> 0.0 < v.position.z && 0.0 < v.position.w
  }

  predicate TriangleDepthSafe(t: Triangle)
  {
    DepthSafe(t.v0) && DepthSafe(t.v1) && DepthSafe(t.v2)
  }

  function Min3(a: real, b: real, c: real): (m: real)
    ensures m <= a && m <= b && m <= c && (m == a || m == b || m == c)
  {
    if a < (if b < c then b else c) then a else if b < c then b else c
  }

  function Max3(a: real, b: real, c: real): (m: real)
    ensures m >= a && m >= b && m >= c && (m == a || m == b || m == c)
  {
    if a > (if b > c then b else c) then a else if b > c then b else c
  }

  /**
   * The set-up of `RenderTriangle` before its rejection tests: raster
   * vertices, edges, signed area and the bounding box, clamped to
   * 0 <= left, 0 <= top, right <= width - 1 and bottom <= height - 1.
   */
  function RasterLayout(t: Triangle, width: int, height: int): (s: Setup)
    ensures s.v0 == NDCToRaster(t.v0, width, height)
    ensures s.v1 == NDCToRaster(t.v1, width, height)
    ensures s.v2 == NDCToRaster(t.v2, width, height)
    ensures EdgesOf(s)
    ensures s.edge0.Add(s.edge1).Add(s.edge2) == Vector2(0.0, 0.0)
    ensures 0 <= s.left && 0 <= s.top && s.right <= width - 1 && s.bottom <= height - 1
    ensures s.left == ClampBelow(Trunc(Min3(s.v0.position.x, s.v1.position.x, s.v2.position.x)), 0)
    ensures s.top == ClampBelow(Trunc(Min3(s.v0.position.y, s.v1.position.y, s.v2.position.y)), 0)
    ensures s.right == ClampAbove(Ceil(Max3(s.v0.position.x, s.v1.position.x, s.v2.position.x)), width - 1)
    ensures s.bottom == ClampAbove(Ceil(Max3(s.v0.position.y, s.v1.position.y, s.v2.position.y)), height - 1)
  {
    var v0 := NDCToRaster(t.v0, width, height);
    var v1 := NDCToRaster(t.v1, width, height);
    var v2 := NDCToRaster(t.v2, width, height);
    var edge0 := v2.position.XY().Sub(v1.position.XY());
    var edge1 := v0.position.XY().Sub(v2.position.XY());
    var edge2 := v1.position.XY().Sub(v0.position.XY());
    var area := Cross2(edge0, edge1);
    var left := Trunc(Min3(v0.position.x, v1.position.x, v2.position.x));
    var top := Trunc(Min3(v0.position.y, v1.position.y, v2.position.y));
    var right := Ceil(Max3(v0.position.x, v1.position.x, v2.position.x));
    var bottom := Ceil(Max3(v0.position.y, v1.position.y, v2.position.y));
    Setup(v0, v1, v2, edge0, edge1, edge2, area,
          ClampBelow(left, 0), ClampBelow(top, 0), ClampAbove(right, width - 1), ClampAbove(bottom, height - 1))
  }

  /** `if (v < 0) v = 0;` */
  function ClampBelow(v: int, low: int): (r: int)
    ensures r >= low && (v >= low ==> r == v)
  {
    if v < low then low else v
  }

  /** `if (v >= limit + 1) v = limit;` */
  function ClampAbove(v: int, high: int): (r: int)
    ensures r <= high && (v <= high ==> r == v)
  {
    if v >= high + 1 then high else v
  }

  /** The edges run v1 to v2, v2 to v0 and v0 to v1, and the signed area is the cross product of the first two. */
  predicate EdgesOf(s: Setup)
  {
    && s.edge0 == s.v2.position.XY().Sub(s.v1.position.XY())
    && s.edge1 == s.v0.position.XY().Sub(s.v2.position.XY())
    && s.edge2 == s.v1.position.XY().Sub(s.v0.position.XY())
    && s.area == Cross2(s.edge0, s.edge1)
  }

  /** A set-up whose pixels can be shaded: consistent edges, a large enough area, usable depths. */
  predicate Drawable(s: Setup)
  {
    && EdgesOf(s)
    && s.area >= MinArea
    && 0.0 < s.v0.position.z <= 1.0 && 0.0 < s.v1.position.z <= 1.0 && 0.0 < s.v2.position.z <= 1.0
    && 0.0 < s.v0.position.w && 0.0 < s.v1.position.w && 0.0 < s.v2.position.w
  }

  /** The triangle's set-up, or None when it is culled or its area is below `MinArea`. */
  function SetupTriangle(t: Triangle, width: int, height: int): (s: Option<Setup>)
    ensures s.None? <==>
              FrustumCulling(t.v0.position) || FrustumCulling(t.v1.position) || FrustumCulling(t.v2.position) ||
              RasterLayout(t, width, height).area < MinArea
    ensures s.Some? ==> s.value == RasterLayout(t, width, height)
    ensures s.Some? && TriangleDepthSafe(t) ==> Drawable(s.value)
  {
    if FrustumCulling(t.v0.position) || FrustumCulling(t.v1.position) || FrustumCulling(t.v2.position) then None
    else
      var s := RasterLayout(t, width, height);
      if s.area < MinArea then None else Some(s)
  }

  // ---------------------------------------------------------------------
  // Coverage, depth and attribute interpolation
  // ---------------------------------------------------------------------

  /** The weights of v0, v1 and v2 at a pixel. */
  datatype Barycentric = Barycentric(w0: real, w1: real, w2: real)

  /** A pixel proceeds past the coverage test only when no weight is negative. */
  predicate Covers(b: Barycentric)
  {
    b.w2 >= 0.0 && b.w0 >= 0.0 && b.w1 >= 0.0
  }

  /**
   * The edge-function weights of the pixel's corner (px, py): each one is
   * the cross product of an edge with the vector from that edge's start to
   * the pixel, over the signed area. They always add up to one.
   */
  function Weights(s: Setup, px: int, py: int): (b: Barycentric)
    requires Drawable(s)
    ensures b.w0 + b.w1 + b.w2 == 1.0
  {
    var pixel := Vector2(px as real, py as real);
    var e2 := Cross2(s.edge2, pixel.Sub(s.v0.position.XY()));
    var e0 := Cross2(s.edge0, pixel.Sub(s.v1.position.XY()));
    var e1 := Cross2(s.edge1, pixel.Sub(s.v2.position.XY()));
    EdgeFunctionsSum(s.v0.position.XY(), s.v1.position.XY(), s.v2.position.XY(), pixel);
    SumOverArea(e0, e1, e2, s.area);
    Barycentric(e0 / s.area, e1 / s.area, e2 / s.area)
  }

  /** The three edge functions add up to the signed area, wherever the point p lies. */
  lemma EdgeFunctionsSum(a: Vector2, b: Vector2, c: Vector2, p: Vector2)
    ensures Cross2(c.Sub(b), p.Sub(b)) + Cross2(a.Sub(c), p.Sub(c)) + Cross2(b.Sub(a), p.Sub(a))
         == Cross2(c.Sub(b), a.Sub(c))
  {
  }

  lemma SumOverArea(e0: real, e1: real, e2: real, area: real)
    requires area != 0.0 && e0 + e1 + e2 == area
    ensures e0 / area + e1 / area + e2 / area == 1.0
  {
    assert e0 / area + e1 / area + e2 / area == (e0 + e1 + e2) / area;
  }

  /**
   * The value the depth test uses: the reciprocal of the weighted sum of
   * the vertices' reciprocal depths. For a covered pixel it always lies in
   * (0, 1], so the range check that follows it never rejects a pixel.
   */
  function InterpolatedDepth(s: Setup, b: Barycentric): (d: real)
    requires Drawable(s) && Covers(b) && b.w0 + b.w1 + b.w2 == 1.0
    ensures 0.0 < d <= 1.0
  {
    OverDepthAtLeast(b.w0, s.v0.position.z);
    OverDepthAtLeast(b.w1, s.v1.position.z);
    OverDepthAtLeast(b.w2, s.v2.position.z);
    var sum := b.w0 / s.v0.position.z + b.w1 / s.v1.position.z + b.w2 / s.v2.position.z;
    ReciprocalAtMostOne(sum);
    1.0 / sum
  }

  lemma OverDepthAtLeast(w: real, z: real)
    requires 0.0 <= w && 0.0 < z <= 1.0
    ensures w / z >= w
  {
    var q := w / z;
    assert q * z == w;
    PositiveOverPositive(w, z);
    ProductNonnegative(q, 1.0 - z);
    assert q - q * z == q * (1.0 - z);
  }

  lemma ReciprocalAtMostOne(x: real)
    requires x >= 1.0
    ensures 0.0 < 1.0 / x <= 1.0
  {
  }

  /** `w0 * a0 + w1 * a1 + w2 * a2` for two-component attributes. */
  function Blend2(b: Barycentric, a0: Vector2, a1: Vector2, a2: Vector2): Vector2
  {
    a0.Scale(b.w0).Add(a1.Scale(b.w1)).Add(a2.Scale(b.w2))
  }

  /** `w0 * a0 + w1 * a1 + w2 * a2` for three-component attributes. */
  function Blend3(b: Barycentric, a0: Vector3, a1: Vector3, a2: Vector3): Vector3
  {
    a0.Scale(b.w0).Add(a1.Scale(b.w1)).Add(a2.Scale(b.w2))
  }

  /** The weights divided by each vertex's clip w, before normalisation. */
  function OverClipW(s: Setup, b: Barycentric): (c: Barycentric)
    requires Drawable(s) && Covers(b) && b.w0 + b.w1 + b.w2 == 1.0
    ensures Covers(c) && c.w0 + c.w1 + c.w2 > 0.0
  {
    var c := Barycentric(b.w0 / s.v0.position.w, b.w1 / s.v1.position.w, b.w2 / s.v2.position.w);
    PositiveOverPositive(b.w0, s.v0.position.w);
    PositiveOverPositive(b.w1, s.v1.position.w);
    PositiveOverPositive(b.w2, s.v2.position.w);
    c
  }

  lemma PositiveOverPositive(w: real, clipW: real)
    requires 0.0 <= w && 0.0 < clipW
    ensures 0.0 <= w / clipW && (0.0 < w ==> 0.0 < w / clipW)
  {
  }

  /**
   * The perspective-corrected weights: each weight over its vertex's clip
   * w, scaled so that they add up to one.
   */
  lemma CorrectedWeightsSumToOne(s: Setup, b: Barycentric)
    requires Drawable(s) && Covers(b) && b.w0 + b.w1 + b.w2 == 1.0
    ensures var c := OverClipW(s, b);
            var depth := 1.0 / (c.w0 + c.w1 + c.w2);
            c.w0 * depth + c.w1 * depth + c.w2 * depth == 1.0
  {
    var c := OverClipW(s, b);
    var sum := c.w0 + c.w1 + c.w2;
    assert c.w0 * (1.0 / sum) + c.w1 * (1.0 / sum) + c.w2 * (1.0 / sum) == sum * (1.0 / sum);
  }

  /**
   * The fragment handed to the pixel stage: its position is the pixel's
   * corner; uv, normal and tangent use the perspective-corrected weights
   * (normal and tangent renormalised); the world position uses the
   * uncorrected weights; the colour keeps its default.
   */
  function Fragment(lib: MathLib, s: Setup, px: int, py: int, b: Barycentric): (f: VertexOut)
    requires Drawable(s) && Covers(b) && b.w0 + b.w1 + b.w2 == 1.0
    ensures f.position == Vector4(px as real, py as real, 0.0, 0.0) && f.color == WhiteColor
    ensures s.v0.uv == s.v1.uv == s.v2.uv ==> f.uv == s.v0.uv
    ensures s.v0.worldPosition == s.v1.worldPosition == s.v2.worldPosition ==> f.worldPosition == s.v0.worldPosition
    ensures f.worldPosition == Blend3(b, s.v0.worldPosition, s.v1.worldPosition, s.v2.worldPosition)
  {
    var worldPosition := Blend3(b, s.v0.worldPosition, s.v1.worldPosition, s.v2.worldPosition);
    var c := OverClipW(s, b);
    var depth := 1.0 / (c.w0 + c.w1 + c.w2);
    var uv := Blend2(c, s.v0.uv, s.v1.uv, s.v2.uv).Scale(depth);
    BlendUniform2(c, s.v0.uv, s.v1.uv, s.v2.uv, depth);
    BlendUniform3(b, s.v0.worldPosition, s.v1.worldPosition, s.v2.worldPosition);
    VertexOut(Vector4(px as real, py as real, 0.0, 0.0),
              uv,
              lib.normalized(Blend3(c, s.v0.normal, s.v1.normal, s.v2.normal).Scale(depth)),
              lib.normalized(Blend3(c, s.v0.tangent, s.v1.tangent, s.v2.tangent).Scale(depth)),
              WhiteColor,
              worldPosition)
  }

  /** Blending one attribute value with weights whose sum is `1 / depth` and scaling by depth gives it back. */
  lemma BlendUniform2(c: Barycentric, a: Vector2, a1: Vector2, a2: Vector2, depth: real)
    requires c.w0 + c.w1 + c.w2 != 0.0 && depth == 1.0 / (c.w0 + c.w1 + c.w2)
    ensures a == a1 == a2 ==> Blend2(c, a, a1, a2).Scale(depth) == a
  {
    var sum := c.w0 + c.w1 + c.w2;
    assert Blend2(c, a, a, a) == a.Scale(sum);
    assert depth * (sum * a.x) == (depth * sum) * a.x;
    assert depth * (sum * a.y) == (depth * sum) * a.y;
  }

  lemma BlendUniform3(b: Barycentric, a: Vector3, a1: Vector3, a2: Vector3)
    requires b.w0 + b.w1 + b.w2 == 1.0
    ensures a == a1 == a2 ==> Blend3(b, a, a1, a2) == a
  {
    assert b.w0 * a.x + b.w1 * a.x + b.w2 * a.x == (b.w0 + b.w1 + b.w2) * a.x;
    assert b.w0 * a.y + b.w1 * a.y + b.w2 * a.y == (b.w0 + b.w1 + b.w2) * a.y;
    assert b.w0 * a.z + b.w1 * a.z + b.w2 * a.z == (b.w0 + b.w1 + b.w2) * a.z;
  }

  // ---------------------------------------------------------------------
  // One pixel, one triangle, one frame
  // ---------------------------------------------------------------------

  /** What the two buffers hold at one position. */
  datatype PixelState = PixelState(depth: real, color: Pixel)

  /**
   * What one visited pixel of the bounding box becomes. In bounding-box
   * mode it turns white and nothing else happens. Otherwise an uncovered
   * pixel, or one whose depth does not beat the stored one, is left alone;
   * a covered pixel that wins the depth test gets the new depth and either
   * the depth view's gray or the pixel stage's colour, rescaled to at most
   * one and converted to bytes.
   */
  function ShadePixel(lib: MathLib, s: Setup, px: int, py: int, showBox: bool, showDepth: bool,
                      pixelShading: VertexOut -> ColorRGB, p: PixelState): (q: PixelState)
    requires Drawable(s)
    ensures showBox ==> q == PixelState(p.depth, White)
    ensures q.depth <= p.depth
    ensures !showBox ==>
              (q.depth < p.depth <==>
                 Covers(Weights(s, px, py)) && InterpolatedDepth(s, Weights(s, px, py)) < p.depth)
    ensures !showBox && q.depth < p.depth ==> q.depth == InterpolatedDepth(s, Weights(s, px, py))
    ensures !showBox && q.depth == p.depth ==> q == p
    ensures q.depth < p.depth ==> 0.0 < q.depth <= 1.0
    ensures !showBox && showDepth && q.depth < p.depth ==> q.color == ToPixel(Gray(DepthGray(q.depth)))
    ensures !showBox && !showDepth && q.depth < p.depth ==>
              q.color == ToPixel(MaxToOne(pixelShading(Fragment(lib, s, px, py, Weights(s, px, py)))))
  {
    if showBox then PixelState(p.depth, White)
    else
      var b := Weights(s, px, py);
      if b.w2 < 0.0 || b.w0 < 0.0 || b.w1 < 0.0 then p
      else
        var d := InterpolatedDepth(s, b);
        if d < 0.0 || d > 1.0 then p
        else if d < p.depth then
          var finalColor := if showDepth then Gray(DepthGray(d)) else pixelShading(Fragment(lib, s, px, py, b));
          PixelState(d, ToPixel(MaxToOne(finalColor)))
        else p
  }

  /** Pixel (x, y) lies in the visited box [left, right) x [top, bottom). */
  predicate InBox(s: Setup, x: int, y: int)
  {
    s.left <= x < s.right && s.top <= y < s.bottom
  }

  /** `RenderTriangle` on the two buffers, seen as one sequence of per-pixel states. */
  function DrawTriangle(lib: MathLib, t: Triangle, width: int, height: int, showBox: bool, showDepth: bool,
                        pixelShading: VertexOut -> ColorRGB, frame: seq<PixelState>): (r: seq<PixelState>)
    requires 0 < width && 0 < height && |frame| == width * height
    requires TriangleDepthSafe(t)
    ensures |r| == |frame|
  {
    match SetupTriangle(t, width, height)
    case None => frame
    case Some(s) => DrawBox(lib, s, width, showBox, showDepth, pixelShading, frame)
  }

  /** Every pixel of the set-up's box shaded, every other pixel kept. */
  function DrawBox(lib: MathLib, s: Setup, width: int, showBox: bool, showDepth: bool,
                   pixelShading: VertexOut -> ColorRGB, frame: seq<PixelState>): (r: seq<PixelState>)
    requires Drawable(s) && 0 < width
    ensures |r| == |frame|
  {
    seq(|frame|, k requires 0 <= k < |frame| =>
      if InBox(s, k % width, k / width)
      then ShadePixel(lib, s, k % width, k / width, showBox, showDepth, pixelShading, frame[k])
      else frame[k])
  }

  /** The triangles of an index list: one per whole triple, in index order. */
  function Triangles(verticesOut: seq<VertexOut>, indices: seq<nat>): (ts: seq<Triangle>)
    requires IndicesInRange(indices, |verticesOut|)
    ensures |ts| == |indices| / 3
    ensures forall t :: 0 <= t < |ts| ==>
              ts[t] == Triangle(verticesOut[indices[3 * t]], verticesOut[indices[3 * t + 1]], verticesOut[indices[3 * t + 2]])
  {
    seq(|indices| / 3, t requires 0 <= t < |indices| / 3 =>
      Triangle(verticesOut[indices[3 * t]], verticesOut[indices[3 * t + 1]], verticesOut[indices[3 * t + 2]]))
  }

  /** Every index of a rendered triple names a vertex of the vertex stage's output. */
  predicate IndicesInRange(indices: seq<nat>, vertexCount: nat)
  {
    forall k :: 0 <= k < |indices| / 3 * 3 ==> indices[k] < vertexCount
  }

  /** The triangles drawn one after the other, in order, starting from `frame`. */
  function RenderTriangles(lib: MathLib, ts: seq<Triangle>, width: int, height: int, showBox: bool, showDepth: bool,
                           pixelShading: VertexOut -> ColorRGB, frame: seq<PixelState>): (r: seq<PixelState>)
    requires 0 < width && 0 < height && |frame| == width * height
    requires forall i :: 0 <= i < |ts| ==> TriangleDepthSafe(ts[i])
    ensures |r| == |frame|
    decreases |ts|
  {
    if |ts| == 0 then frame
    else
      var before := RenderTriangles(lib, ts[..|ts| - 1], width, height, showBox, showDepth, pixelShading, frame);
      DrawTriangle(lib, ts[|ts| - 1], width, height, showBox, showDepth, pixelShading, before)
  }

  /** Every triangle of the index list has usable depths when every vertex has. */
  lemma TrianglesDepthSafe(verticesOut: seq<VertexOut>, indices: seq<nat>)
    requires IndicesInRange(indices, |verticesOut|)
    requires forall v :: v in verticesOut ==> DepthSafe(v)
    ensures var ts := Triangles(verticesOut, indices);
            forall t :: 0 <= t < |ts| ==> TriangleDepthSafe(ts[t])
  {
    var ts := Triangles(verticesOut, indices);
    forall t | 0 <= t < |ts| ensures TriangleDepthSafe(ts[t]) {
      assert ts[t].v0 in verticesOut && ts[t].v1 in verticesOut && ts[t].v2 in verticesOut;
    }
  }

  /** Drawing the first t + 1 triangles is drawing the first t, then triangle t. */
  lemma RenderTrianglesStep(lib: MathLib, ts: seq<Triangle>, t: nat, width: int, height: int, showBox: bool,
                            showDepth: bool, pixelShading: VertexOut -> ColorRGB, frame: seq<PixelState>)
    requires 0 < width && 0 < height && |frame| == width * height
    requires forall i :: 0 <= i < |ts| ==> TriangleDepthSafe(ts[i])
    requires t < |ts|
    ensures RenderTriangles(lib, ts[..t + 1], width, height, showBox, showDepth, pixelShading, frame)
         == DrawTriangle(lib, ts[t], width, height, showBox, showDepth, pixelShading,
                         RenderTriangles(lib, ts[..t], width, height, showBox, showDepth, pixelShading, frame))
  {
    assert ts[..t + 1][..t] == ts[..t];
  }

  /** The buffers at the start of the rendering loop: every depth at `FltMax`, colours untouched. */
  function Cleared(colors: seq<Pixel>): (frame: seq<PixelState>)
    ensures |frame| == |colors|
    ensures forall k :: 0 <= k < |frame| ==> frame[k] == PixelState(FltMax, colors[k])
  {
    seq(|colors|, k requires 0 <= k < |colors| => PixelState(FltMax, colors[k]))
  }

  // ---------------------------------------------------------------------
  // What a triangle and a frame do to the buffers
  // ---------------------------------------------------------------------

  /**
   * Per pixel, a triangle never raises a depth, writes only depths in
   * (0, 1], and outside bounding-box mode changes a colour only together
   * with a depth write; in bounding-box mode no depth changes at all.
   */
  lemma DrawTriangleDepth(lib: MathLib, t: Triangle, width: int, height: int, showBox: bool, showDepth: bool,
                          pixelShading: VertexOut -> ColorRGB, frame: seq<PixelState>)
    requires 0 < width && 0 < height && |frame| == width * height
    requires TriangleDepthSafe(t)
    ensures var r := DrawTriangle(lib, t, width, height, showBox, showDepth, pixelShading, frame);
            forall k :: 0 <= k < |frame| ==>
              && r[k].depth <= frame[k].depth
              && (r[k].depth < frame[k].depth ==> 0.0 < r[k].depth <= 1.0)
              && (showBox ==> r[k].depth == frame[k].depth)
              && (!showBox && r[k].depth == frame[k].depth ==> r[k] == frame[k])
  {
  }

  /**
   * A dropped triangle changes nothing; a kept one changes nothing outside
   * its clamped box, so never the last column or the last row.
   */
  lemma DrawTriangleOutsideBox(lib: MathLib, t: Triangle, width: int, height: int, showBox: bool, showDepth: bool,
                               pixelShading: VertexOut -> ColorRGB, frame: seq<PixelState>)
    requires 0 < width && 0 < height && |frame| == width * height
    requires TriangleDepthSafe(t)
    ensures var r := DrawTriangle(lib, t, width, height, showBox, showDepth, pixelShading, frame);
            && (SetupTriangle(t, width, height).None? ==> r == frame)
            && (SetupTriangle(t, width, height).Some? ==>
                  forall k :: 0 <= k < |frame| && !InBox(SetupTriangle(t, width, height).value, k % width, k / width) ==>
                    r[k] == frame[k])
            && (forall k :: 0 <= k < |frame| && (k % width == width - 1 || k / width == height - 1) ==> r[k] == frame[k])
  {
  }

  /** In bounding-box mode every pixel of a kept triangle's box turns white and keeps its depth. */
  lemma DrawTriangleBoundingBox(lib: MathLib, t: Triangle, width: int, height: int, showDepth: bool,
                                pixelShading: VertexOut -> ColorRGB, frame: seq<PixelState>)
    requires 0 < width && 0 < height && |frame| == width * height
    requires TriangleDepthSafe(t)
    requires SetupTriangle(t, width, height).Some?
    ensures var r := DrawTriangle(lib, t, width, height, true, showDepth, pixelShading, frame);
            forall k :: 0 <= k < |frame| && InBox(SetupTriangle(t, width, height).value, k % width, k / width) ==>
              r[k] == PixelState(frame[k].depth, White)
  {
  }

  /**
   * The depth test of one pixel in isolation: a candidate depth d with
   * colour c replaces the stored state p exactly when it is strictly nearer.
   */
  function DepthTest(p: PixelState, d: Option<real>, c: Pixel): (q: PixelState)
    ensures q == p || (d.Some? && q == PixelState(d.value, c))
    ensures q.depth <= p.depth
    ensures q != p ==> d.Some? && d.value < p.depth
  {
    if d.Some? && d.value < p.depth then PixelState(d.value, c) else p
  }

  /** Two candidates at different depths, or a missing one, give the same pixel in either order. */
  lemma DepthTestCommutes(p: PixelState, d1: Option<real>, c1: Pixel, d2: Option<real>, c2: Pixel)
    requires !(d1.Some? && d1 == d2)
    ensures DepthTest(DepthTest(p, d1, c1), d2, c2) == DepthTest(DepthTest(p, d2, c2), d1, c1)
  {
  }

  /** Two candidates at the same depth: the second one fails the strict test, so the first one stays. */
  lemma DepthTestTieFirstWins(p: PixelState, d: real, c1: Pixel, c2: Pixel)
    ensures DepthTest(DepthTest(p, Some(d), c1), Some(d), c2) == DepthTest(p, Some(d), c1)
  {
  }

  /**
   * The depth triangle t offers pixel k: present when the triangle is kept,
   * the pixel lies in its box and the edge functions cover it.
   */
  function OfferedDepth(t: Triangle, width: int, height: int, k: int): (d: Option<real>)
    requires 0 < width && TriangleDepthSafe(t)
    ensures d.Some? ==> 0.0 < d.value <= 1.0
  {
    match SetupTriangle(t, width, height)
    case None => None
    case Some(s) =>
      var b := Weights(s, k % width, k / width);
      if InBox(s, k % width, k / width) && Covers(b) then Some(InterpolatedDepth(s, b)) else None
  }

  /** The colour t writes at pixel k when its offered depth wins: the depth view's gray or the shaded fragment. */
  function OfferedColor(lib: MathLib, t: Triangle, width: int, height: int, showDepth: bool,
                        pixelShading: VertexOut -> ColorRGB, k: int): Pixel
    requires 0 < width && TriangleDepthSafe(t) && OfferedDepth(t, width, height, k).Some?
  {
    var s := SetupTriangle(t, width, height).value;
    var b := Weights(s, k % width, k / width);
    var d := InterpolatedDepth(s, b);
    var finalColor := if showDepth then Gray(DepthGray(d)) else pixelShading(Fragment(lib, s, k % width, k / width, b));
    ToPixel(MaxToOne(finalColor))
  }

  /** Outside box mode, drawing a triangle is the depth test of its offered depth and colour at every pixel. */
  lemma DrawTrianglePixel(lib: MathLib, t: Triangle, width: int, height: int, showDepth: bool,
                          pixelShading: VertexOut -> ColorRGB, frame: seq<PixelState>, k: int)
    requires 0 < width && 0 < height && |frame| == width * height
    requires TriangleDepthSafe(t) && 0 <= k < |frame|
    ensures var d := OfferedDepth(t, width, height, k);
            DrawTriangle(lib, t, width, height, false, showDepth, pixelShading, frame)[k]
              == DepthTest(frame[k], d, if d.Some? then OfferedColor(lib, t, width, height, showDepth, pixelShading, k) else White)
  {
    match SetupTriangle(t, width, height)
    case None =>
    case Some(s) =>
      var x, y := k % width, k / width;
      if InBox(s, x, y) {
        var b := Weights(s, x, y);
        assert DrawTriangle(lib, t, width, height, false, showDepth, pixelShading, frame)[k]
                 == ShadePixel(lib, s, x, y, false, showDepth, pixelShading, frame[k]);
        if Covers(b) {
          assert OfferedDepth(t, width, height, k) == Some(InterpolatedDepth(s, b));
        }
      }
  }

  /**
   * Depth testing makes the order of two triangles irrelevant: outside box
   * mode, every pixel that the two do not both cover at one and the same
   * depth ends the same whichever triangle is drawn first.
   */
  lemma DrawTrianglesCommute(lib: MathLib, t1: Triangle, t2: Triangle, width: int, height: int, showDepth: bool,
                             pixelShading: VertexOut -> ColorRGB, frame: seq<PixelState>)
    requires 0 < width && 0 < height && |frame| == width * height
    requires TriangleDepthSafe(t1) && TriangleDepthSafe(t2)
    ensures var a := DrawTriangle(lib, t2, width, height, false, showDepth, pixelShading,
                                  DrawTriangle(lib, t1, width, height, false, showDepth, pixelShading, frame));
            var b := DrawTriangle(lib, t1, width, height, false, showDepth, pixelShading,
                                  DrawTriangle(lib, t2, width, height, false, showDepth, pixelShading, frame));
            forall k :: 0 <= k < |frame|
                          && !(OfferedDepth(t1, width, height, k).Some? && OfferedDepth(t1, width, height, k) == OfferedDepth(t2, width, height, k)) ==>
              a[k] == b[k]
  {
    var r1 := DrawTriangle(lib, t1, width, height, false, showDepth, pixelShading, frame);
    var r2 := DrawTriangle(lib, t2, width, height, false, showDepth, pixelShading, frame);
    forall k | 0 <= k < |frame| && !(OfferedDepth(t1, width, height, k).Some? && OfferedDepth(t1, width, height, k) == OfferedDepth(t2, width, height, k))
      ensures DrawTriangle(lib, t2, width, height, false, showDepth, pixelShading, r1)[k]
                == DrawTriangle(lib, t1, width, height, false, showDepth, pixelShading, r2)[k]
    {
      var d1, d2 := OfferedDepth(t1, width, height, k), OfferedDepth(t2, width, height, k);
      var c1 := if d1.Some? then OfferedColor(lib, t1, width, height, showDepth, pixelShading, k) else White;
      var c2 := if d2.Some? then OfferedColor(lib, t2, width, height, showDepth, pixelShading, k) else White;
      DrawTrianglePixel(lib, t1, width, height, showDepth, pixelShading, frame, k);
      DrawTrianglePixel(lib, t2, width, height, showDepth, pixelShading, frame, k);
      DrawTrianglePixel(lib, t2, width, height, showDepth, pixelShading, r1, k);
      DrawTrianglePixel(lib, t1, width, height, showDepth, pixelShading, r2, k);
      DepthTestCommutes(frame[k], d1, c1, d2, c2);
    }
  }

  /**
   * On a tie the first triangle drawn keeps the pixel: where both cover a
   * pixel at the same depth, drawing the second one afterwards changes nothing.
   */
  lemma DrawTrianglesTieFirstWins(lib: MathLib, t1: Triangle, t2: Triangle, width: int, height: int, showDepth: bool,
                                  pixelShading: VertexOut -> ColorRGB, frame: seq<PixelState>)
    requires 0 < width && 0 < height && |frame| == width * height
    requires TriangleDepthSafe(t1) && TriangleDepthSafe(t2)
    ensures var r1 := DrawTriangle(lib, t1, width, height, false, showDepth, pixelShading, frame);
            var a := DrawTriangle(lib, t2, width, height, false, showDepth, pixelShading, r1);
            forall k :: 0 <= k < |frame| && OfferedDepth(t1, width, height, k).Some?
                          && OfferedDepth(t1, width, height, k) == OfferedDepth(t2, width, height, k) ==>
              a[k] == r1[k]
  {
    var r1 := DrawTriangle(lib, t1, width, height, false, showDepth, pixelShading, frame);
    forall k | 0 <= k < |frame| && OfferedDepth(t1, width, height, k).Some?
                 && OfferedDepth(t1, width, height, k) == OfferedDepth(t2, width, height, k)
      ensures DrawTriangle(lib, t2, width, height, false, showDepth, pixelShading, r1)[k] == r1[k]
    {
      var d := OfferedDepth(t1, width, height, k).value;
      DrawTrianglePixel(lib, t1, width, height, showDepth, pixelShading, frame, k);
      DrawTrianglePixel(lib, t2, width, height, showDepth, pixelShading, r1, k);
      DepthTestTieFirstWins(frame[k], d, OfferedColor(lib, t1, width, height, showDepth, pixelShading, k),
                            OfferedColor(lib, t2, width, height, showDepth, pixelShading, k));
    }
  }

  /**
   * Over a whole list of triangles a depth entry never rises, and it either
   * keeps its starting value or holds a depth in (0, 1].
   */
  lemma {:induction false} RenderTrianglesDepth(lib: MathLib, ts: seq<Triangle>, width: int, height: int,
                                                showBox: bool, showDepth: bool,
                                                pixelShading: VertexOut -> ColorRGB, frame: seq<PixelState>)
    requires 0 < width && 0 < height && |frame| == width * height
    requires forall i :: 0 <= i < |ts| ==> TriangleDepthSafe(ts[i])
    ensures var r := RenderTriangles(lib, ts, width, height, showBox, showDepth, pixelShading, frame);
            forall k :: 0 <= k < |frame| ==>
              r[k].depth <= frame[k].depth && (r[k].depth == frame[k].depth || 0.0 < r[k].depth <= 1.0)
    decreases |ts|
  {
    if |ts| > 0 {
      var rest := ts[..|ts| - 1];
      RenderTrianglesDepth(lib, rest, width, height, showBox, showDepth, pixelShading, frame);
      var before := RenderTriangles(lib, rest, width, height, showBox, showDepth, pixelShading, frame);
      DrawTriangleDepth(lib, ts[|ts| - 1], width, height, showBox, showDepth, pixelShading, before);
    }
  }

  /** In bounding-box mode a whole list of triangles leaves every depth entry as it was. */
  lemma {:induction false} RenderTrianglesBoundingBoxKeepsDepth(lib: MathLib, ts: seq<Triangle>, width: int, height: int,
                                                                showDepth: bool, pixelShading: VertexOut -> ColorRGB,
                                                                frame: seq<PixelState>)
    requires 0 < width && 0 < height && |frame| == width * height
    requires forall i :: 0 <= i < |ts| ==> TriangleDepthSafe(ts[i])
    ensures var r := RenderTriangles(lib, ts, width, height, true, showDepth, pixelShading, frame);
            forall k :: 0 <= k < |frame| ==> r[k].depth == frame[k].depth
    decreases |ts|
  {
    if |ts| > 0 {
      var rest := ts[..|ts| - 1];
      RenderTrianglesBoundingBoxKeepsDepth(lib, rest, width, height, showDepth, pixelShading, frame);
      var before := RenderTriangles(lib, rest, width, height, true, showDepth, pixelShading, frame);
      DrawTriangleDepth(lib, ts[|ts| - 1], width, height, true, showDepth, pixelShading, before);
    }
  }

  /** The last raster column and the last raster row are never drawn, whatever the triangles. */
  lemma {:induction false} RenderTrianglesKeepLastColumnAndRow(lib: MathLib, ts: seq<Triangle>, width: int, height: int,
                                                               showBox: bool, showDepth: bool,
                                                               pixelShading: VertexOut -> ColorRGB, frame: seq<PixelState>)
    requires 0 < width && 0 < height && |frame| == width * height
    requires forall i :: 0 <= i < |ts| ==> TriangleDepthSafe(ts[i])
    ensures var r := RenderTriangles(lib, ts, width, height, showBox, showDepth, pixelShading, frame);
            forall k :: 0 <= k < |frame| && (k % width == width - 1 || k / width == height - 1) ==> r[k] == frame[k]
    decreases |ts|
  {
    if |ts| > 0 {
      var rest := ts[..|ts| - 1];
      RenderTrianglesKeepLastColumnAndRow(lib, rest, width, height, showBox, showDepth, pixelShading, frame);
      var before := RenderTriangles(lib, rest, width, height, showBox, showDepth, pixelShading, frame);
      DrawTriangleOutsideBox(lib, ts[|ts| - 1], width, height, showBox, showDepth, pixelShading, before);
    }
  }

  /** After a frame every depth entry is either still `FltMax` or a depth in (0, 1]. */
  lemma FrameDepthValues(lib: MathLib, ts: seq<Triangle>, width: int, height: int, showBox: bool, showDepth: bool,
                         pixelShading: VertexOut -> ColorRGB, colors: seq<Pixel>)
    requires 0 < width && 0 < height && |colors| == width * height
    requires forall i :: 0 <= i < |ts| ==> TriangleDepthSafe(ts[i])
    ensures var r := RenderTriangles(lib, ts, width, height, showBox, showDepth, pixelShading, Cleared(colors));
            forall k :: 0 <= k < |r| ==> r[k].depth == FltMax || 0.0 < r[k].depth <= 1.0
  {
    RenderTrianglesDepth(lib, ts, width, height, showBox, showDepth, pixelShading, Cleared(colors));
  }

  // ---------------------------------------------------------------------
  // A worked example: the NDC triangle (-1, -1), (1, -1), (0, 1) on a ten-by-ten buffer
  // ---------------------------------------------------------------------

  /** A projected vertex at (x, y) in normalised device coordinates, at depth 0.5 and clip w 1. */
  function NdcVertex(x: real, y: real): VertexOut
  {
    VertexOut(Vector4(x, y, 0.5, 1.0), Vector2(0.0, 0.0), Zero3, Zero3, WhiteColor, Zero3)
  }

  /**
   * The triangle (-1, -1), (1, -1), (0, 1) on a 10 x 10 buffer: the y-flip
   * of the raster mapping turns it clockwise, its signed area is -100 and it
   * is dropped.
   */
  lemma CounterClockwiseNdcTriangleIsDropped()
    ensures var t := Triangle(NdcVertex(-1.0, -1.0), NdcVertex(1.0, -1.0), NdcVertex(0.0, 1.0));
            RasterLayout(t, 10, 10).area == -100.0 && SetupTriangle(t, 10, 10).None?
  {
    NdcCornersOnTenByTen();
    var s := RasterLayout(Triangle(NdcVertex(-1.0, -1.0), NdcVertex(1.0, -1.0), NdcVertex(0.0, 1.0)), 10, 10);
    AreaFromCorners(s, Vector2(0.0, 10.0), Vector2(10.0, 10.0), Vector2(5.0, 0.0));
  }

  /** The signed area from the three raster corners alone. */
  lemma AreaFromCorners(s: Setup, a: Vector2, b: Vector2, c: Vector2)
    requires EdgesOf(s)
    requires s.v0.position.XY() == a && s.v1.position.XY() == b && s.v2.position.XY() == c
    ensures s.area == (c.x - b.x) * (a.y - c.y) - (c.y - b.y) * (a.x - c.x)
  {
  }

  /**
   * The same triangle with the opposite winding is kept; its box is clamped
   * to [0, 9) x [0, 9), leaving out column 9 and row 9 although the
   * triangle reaches them.
   */
  lemma ClockwiseNdcTriangleBox()
    ensures var s := SetupTriangle(Triangle(NdcVertex(-1.0, -1.0), NdcVertex(0.0, 1.0), NdcVertex(1.0, -1.0)), 10, 10);
            && s.Some? && s.value.area == 100.0
            && s.value.left == 0 && s.value.top == 0 && s.value.right == 9 && s.value.bottom == 9
  {
    var t := Triangle(NdcVertex(-1.0, -1.0), NdcVertex(0.0, 1.0), NdcVertex(1.0, -1.0));
    var s := RasterLayout(t, 10, 10);
    // The raster corners.
    NdcCornersOnTenByTen();
    assert s.v0.position.x == 0.0 && s.v0.position.y == 10.0;
    assert s.v1.position.x == 5.0 && s.v1.position.y == 0.0;
    assert s.v2.position.x == 10.0 && s.v2.position.y == 10.0;
    // The signed area.
    AreaFromCorners(s, Vector2(0.0, 10.0), Vector2(5.0, 0.0), Vector2(10.0, 10.0));
    assert s.area == 100.0;
    // The box before and after clamping.
    assert Min3(0.0, 5.0, 10.0) == 0.0 && Min3(10.0, 0.0, 10.0) == 0.0;
    assert Max3(0.0, 5.0, 10.0) == 10.0 && Max3(10.0, 0.0, 10.0) == 10.0;
    assert Trunc(0.0) == 0 && Ceil(10.0) == 10;
    assert s.left == 0 && s.top == 0 && s.right == 9 && s.bottom == 9;
    // No corner is culled.
    assert !FrustumCulling(t.v0.position) && !FrustumCulling(t.v1.position) && !FrustumCulling(t.v2.position);
  }

  /** Where the three corners of the example land on a 10 x 10 buffer. */
  lemma NdcCornersOnTenByTen()
    ensures NDCToRaster(NdcVertex(-1.0, -1.0), 10, 10).position.XY() == Vector2(0.0, 10.0)
    ensures NDCToRaster(NdcVertex(1.0, -1.0), 10, 10).position.XY() == Vector2(10.0, 10.0)
    ensures NDCToRaster(NdcVertex(0.0, 1.0), 10, 10).position.XY() == Vector2(5.0, 0.0)
  {
  }

  // ---------------------------------------------------------------------
  // The mesh and its buffers
  // ---------------------------------------------------------------------

  /** Pixel (x, y) has been handled once the pixel loops have reached column px, row py. */
  predicate Visited(s: Setup, x: int, y: int, px: int, py: int)
  {
    (s.left <= x < px && s.top <= y < s.bottom) || (x == px && s.top <= y < py)
  }

  /** The state pixel k should have once the loops have reached column px, row py. */
  function Progress(lib: MathLib, s: Setup, width: int, showBox: bool, showDepth: bool,
                    pixelShading: VertexOut -> ColorRGB, before: PixelState, k: int, px: int, py: int): PixelState
    requires Drawable(s) && 0 < width
  {
    if Visited(s, k % width, k / width, px, py)
    then ShadePixel(lib, s, k % width, k / width, showBox, showDepth, pixelShading, before)
    else before
  }

  /** Handling pixel (px, py) marks exactly that pixel as visited. */
  lemma VisitStep(s: Setup, width: int, px: int, py: int)
    requires 0 <= px < width && 0 <= py
    ensures forall k :: 0 <= k && k != RowMajor(px, py, width) ==>
              Visited(s, k % width, k / width, px, py + 1) == Visited(s, k % width, k / width, px, py)
    ensures RowMajor(px, py, width) % width == px && RowMajor(px, py, width) / width == py
  {
    RowMajorDivMod(px, py, width);
  }

  /** Once a column's rows are all handled, the loops stand at the top of the next column. */
  lemma ColumnDone(s: Setup, px: int, py: int)
    requires s.left <= px
    requires py == s.bottom || (py == s.top && s.bottom <= s.top)
    ensures forall x, y :: Visited(s, x, y, px, py) == Visited(s, x, y, px + 1, s.top)
  {
  }

  /** Once every column is handled, exactly the pixels of the box have been visited. */
  lemma BoxDone(s: Setup, px: int)
    requires px == s.right || (px == s.left && s.right <= s.left)
    ensures forall x, y :: Visited(s, x, y, px, s.top) == InBox(s, x, y)
  {
  }

  /** Column x, row y of a row-major array is found again by division and remainder. */
  lemma RowMajorDivMod(x: int, y: int, width: int)
    requires 0 <= x < width
    ensures RowMajor(x, y, width) % width == x && RowMajor(x, y, width) / width == y
  {
    var a := RowMajor(x, y, width);
    var q, r := a / width, a % width;
    assert a == q * width + r && 0 <= r < width;
    assert (q - y) * width == x - r;
    MultipleBounds(q - y, width);
  }

  lemma MultipleBounds(d: int, width: int)
    requires 0 < width
    ensures d >= 1 ==> d * width >= width
    ensures d <= -1 ==> d * width <= -width
  {
    if d >= 1 {
      assert d * width == (d - 1) * width + width;
    }
    if d <= -1 {
      assert d * width == (d + 1) * width - width;
    }
  }

  // ---------------------------------------------------------------------
  // The bound of the index loop
  // ---------------------------------------------------------------------

  /** One more than the largest `size_t` of a 64-bit target. */
  const SizeModulus: int := 0x1_0000_0000_0000_0000

  /** `m_Indices.size() - 2` as written: an unsigned subtraction, wrapping below zero. */
  function IndexLoopBound(count: nat): (bound: int)
    requires count < SizeModulus
    ensures 0 <= bound < SizeModulus
    ensures (bound - (count - 2)) % SizeModulus == 0
  {
    (count - 2) % SizeModulus
  }

  /**
   * For two or more indices the loop test i < count - 2 is the guard
   * i + 2 < count, which keeps every read of a triple inside the list.
   */
  lemma IndexLoopBoundFromTwo(count: nat, i: nat)
    requires 2 <= count < SizeModulus
    ensures i < IndexLoopBound(count) <==> i + 2 < count
  {
    assert IndexLoopBound(count) == count - 2;
  }

  /**
   * For an empty or one-element index list the bound wraps around to
   * nearly 2^64, so the first iteration already reads `m_Indices[0]`,
   * `m_Indices[1]` and `m_Indices[2]` past the end of the list.
   */
  lemma IndexLoopBoundWrapsBelowTwo(count: nat)
    requires count < 2
    ensures IndexLoopBound(count) == SizeModulus - 2 + count
  {
    assert count - 2 + SizeModulus == SizeModulus - 2 + count;
  }

  class Mesh {
    const width: int
    const height: int
    /** The mesh's own vertices and its index list (uint32 entries). */
    const vertices: seq<Vertex>
    const indices: seq<nat>
    /** The depth buffer the mesh owns and the back buffer it draws into, each width * height entries. */
    const depth: array<real>
    const color: array<Pixel>
    var isShowDepthBuffer: bool
    var isShowBoundingBox: bool

    predicate Valid()
      reads this
    {
      0 < width && 0 < height && depth.Length == width * height && color.Length == width * height
    }

    /** The two buffers as one sequence of per-pixel states. */
    function Frame(): (f: seq<PixelState>)
      reads this, depth, color
      requires depth.Length == color.Length
      ensures |f| == depth.Length
      ensures forall k :: 0 <= k < |f| ==> f[k] == PixelState(depth[k], color[k])
    {
      seq(depth.Length, k requires 0 <= k < depth.Length reads depth, color => PixelState(depth[k], color[k]))
    }

    /**
     * A mesh over the given back buffer, with a depth buffer of the same
     * size and both debug views off.
     */
    constructor (backBuffer: array<Pixel>, width: int, height: int, vertices: seq<Vertex>, indices: seq<nat>)
      requires 0 < width && 0 < height && backBuffer.Length == width * height
      ensures Valid() && fresh(depth) && color == backBuffer
      ensures this.width == width && this.height == height
      ensures this.vertices == vertices && this.indices == indices
      ensures !isShowDepthBuffer && !isShowBoundingBox
    {
      this.width := width;
      this.height := height;
      this.vertices := vertices;
      this.indices := indices;
      color := backBuffer;
      depth := new real[width * height];
      isShowDepthBuffer := false;
      isShowBoundingBox := false;
    }

    /** Switches the depth view on or off and returns the new setting. */
    method ToggleDepthBuffer() returns (isOn: bool)
      modifies this
      ensures isShowDepthBuffer == !old(isShowDepthBuffer) && isOn == isShowDepthBuffer
      ensures isShowBoundingBox == old(isShowBoundingBox)
    {
      isShowDepthBuffer := !isShowDepthBuffer;
      isOn := isShowDepthBuffer;
    }

    /** Switches the bounding-box view on or off and returns the new setting. */
    method ToggleBoundingBox() returns (isOn: bool)
      modifies this
      ensures isShowBoundingBox == !old(isShowBoundingBox) && isOn == isShowBoundingBox
      ensures isShowDepthBuffer == old(isShowDepthBuffer)
    {
      isShowBoundingBox := !isShowBoundingBox;
      isOn := isShowBoundingBox;
    }

    /**
     * The body of the pixel loops for pixel (px, py): it changes that one
     * entry of each buffer, to what `ShadePixel` gives.
     */
    method RenderPixel(lib: MathLib, s: Setup, px: int, py: int, pixelShading: VertexOut -> ColorRGB)
      requires Valid() && Drawable(s) && 0 <= px < width && 0 <= py < height
      modifies depth, color
      ensures 0 <= RowMajor(px, py, width) < depth.Length
      ensures forall k :: 0 <= k < depth.Length && k != RowMajor(px, py, width) ==>
                depth[k] == old(depth[k]) && color[k] == old(color[k])
      ensures var k := RowMajor(px, py, width);
              PixelState(depth[k], color[k])
                == ShadePixel(lib, s, px, py, isShowBoundingBox, isShowDepthBuffer, pixelShading,
                              old(PixelState(depth[k], color[k])))
    {
      RowMajorInRange(px, py, width, height);
      var k := px + py * width;
      if isShowBoundingBox {
        color[k] := White;
        return;
      }
      var pixel := Vector2(px as real, py as real);
      var pixelToSide := pixel.Sub(s.v0.position.XY());
      var w2 := Cross2(s.edge2, pixelToSide) / s.area;
      if w2 < 0.0 {
        return;
      }
      pixelToSide := pixel.Sub(s.v1.position.XY());
      var w0 := Cross2(s.edge0, pixelToSide) / s.area;
      if w0 < 0.0 {
        return;
      }
      pixelToSide := pixel.Sub(s.v2.position.XY());
      var w1 := Cross2(s.edge1, pixelToSide) / s.area;
      if w1 < 0.0 {
        return;
      }
      var weights := Barycentric(w0, w1, w2);
      assert weights == Weights(s, px, py);
      OverDepthAtLeast(w0, s.v0.position.z);
      OverDepthAtLeast(w1, s.v1.position.z);
      OverDepthAtLeast(w2, s.v2.position.z);
      var depthValue := 1.0 / (w0 / s.v0.position.z + w1 / s.v1.position.z + w2 / s.v2.position.z);
      if depthValue < 0.0 || depthValue > 1.0 {
        return;
      }
      if depthValue < depth[k] {
        depth[k] := depthValue;
        var finalColor: ColorRGB;
        if isShowDepthBuffer {
          var remapped := Remap(depthValue, RemapMin, RemapMax).0;
          var level := Clamp(remapped, 0.0, 1.0);
          finalColor := Gray(level);
        } else {
          var worldPosition := Blend3(weights, s.v0.worldPosition, s.v1.worldPosition, s.v2.worldPosition);
          w0 := w0 / s.v0.position.w;
          w1 := w1 / s.v1.position.w;
          w2 := w2 / s.v2.position.w;
          assert Barycentric(w0, w1, w2) == OverClipW(s, weights);
          var perspectiveDepth := 1.0 / (w0 + w1 + w2);
          var corrected := Barycentric(w0, w1, w2);
          var temp := VertexOut(Vector4(px as real, py as real, 0.0, 0.0),
                                Blend2(corrected, s.v0.uv, s.v1.uv, s.v2.uv).Scale(perspectiveDepth),
                                lib.normalized(Blend3(corrected, s.v0.normal, s.v1.normal, s.v2.normal).Scale(perspectiveDepth)),
                                lib.normalized(Blend3(corrected, s.v0.tangent, s.v1.tangent, s.v2.tangent).Scale(perspectiveDepth)),
                                WhiteColor,
                                worldPosition);
          assert temp == Fragment(lib, s, px, py, weights);
          finalColor := pixelShading(temp);
        }
        finalColor := MaxToOne(finalColor);
        color[k] := ToPixel(finalColor);
      }
    }

    /**
     * `RenderTriangle`: culling, raster mapping, area test and clamped
     * bounding box, then every pixel of the box column by column. The
     * buffers end as `DrawTriangle` says.
     */
    method RenderTriangle(lib: MathLib, v0: VertexOut, v1: VertexOut, v2: VertexOut,
                          pixelShading: VertexOut -> ColorRGB)
      requires Valid()
      requires DepthSafe(v0) && DepthSafe(v1) && DepthSafe(v2)
      modifies depth, color
      ensures Frame() == DrawTriangle(lib, Triangle(v0, v1, v2), width, height, isShowBoundingBox, isShowDepthBuffer,
                                      pixelShading, old(Frame()))
    {
      // 1. Frustum culling
      if FrustumCulling(v0.position) || FrustumCulling(v1.position) || FrustumCulling(v2.position) {
        return;
      }
      // 2. NDC to raster space
      var r0 := NDCToRaster(v0, width, height);
      var r1 := NDCToRaster(v1, width, height);
      var r2 := NDCToRaster(v2, width, height);
      var edge0 := r2.position.XY().Sub(r1.position.XY());
      var edge1 := r0.position.XY().Sub(r2.position.XY());
      var edge2 := r1.position.XY().Sub(r0.position.XY());
      // 3. Signed area
      var area := Cross2(edge0, edge1);
      if area < MinArea {
        return;
      }
      // 4. Bounding box
      var left := Trunc(Min3(r0.position.x, r1.position.x, r2.position.x));
      var top := Trunc(Min3(r0.position.y, r1.position.y, r2.position.y));
      var right := Ceil(Max3(r0.position.x, r1.position.x, r2.position.x));
      var bottom := Ceil(Max3(r0.position.y, r1.position.y, r2.position.y));
      if left < 0 { left := 0; }
      if top < 0 { top := 0; }
      if right >= width { right := width - 1; }
      if bottom >= height { bottom := height - 1; }
      var s := Setup(r0, r1, r2, edge0, edge1, edge2, area, left, top, right, bottom);
      assert SetupTriangle(Triangle(v0, v1, v2), width, height) == Some(s);
      // 5. Pixels
      RenderBox(lib, s, pixelShading);
    }

    /**
     * The pixel loops of `RenderTriangle`: columns left to right, and in
     * each column rows top to bottom, over [left, right) x [top, bottom).
     */
    method RenderBox(lib: MathLib, s: Setup, pixelShading: VertexOut -> ColorRGB)
      requires Valid() && Drawable(s)
      requires 0 <= s.left && 0 <= s.top && s.right <= width - 1 && s.bottom <= height - 1
      modifies depth, color
      ensures Frame() == DrawBox(lib, s, width, isShowBoundingBox, isShowDepthBuffer, pixelShading, old(Frame()))
    {
      ghost var before := Frame();
      var px := s.left;
      while px < s.right
        invariant s.left <= px && (px <= s.right || px == s.left)
        invariant forall k :: 0 <= k < depth.Length ==>
                    PixelState(depth[k], color[k])
                      == Progress(lib, s, width, isShowBoundingBox, isShowDepthBuffer, pixelShading, before[k], k, px, s.top)
      {
        RenderColumn(lib, s, px, pixelShading, before);
        px := px + 1;
      }
      BoxDone(s, px);
      ghost var r := DrawBox(lib, s, width, isShowBoundingBox, isShowDepthBuffer, pixelShading, before);
      assert forall k :: 0 <= k < depth.Length ==> Frame()[k] == r[k];
    }

    /**
     * The inner pixel loop of `RenderTriangle` for column px: rows top to
     * bottom, after which the loops have reached the top of column px + 1.
     */
    method RenderColumn(lib: MathLib, s: Setup, px: int, pixelShading: VertexOut -> ColorRGB, ghost before: seq<PixelState>)
      requires Valid() && Drawable(s) && |before| == depth.Length
      requires 0 <= s.left <= px < s.right <= width - 1 && 0 <= s.top && s.bottom <= height - 1
      requires forall k :: 0 <= k < depth.Length ==>
                 PixelState(depth[k], color[k])
                   == Progress(lib, s, width, isShowBoundingBox, isShowDepthBuffer, pixelShading, before[k], k, px, s.top)
      modifies depth, color
      ensures forall k :: 0 <= k < depth.Length ==>
                PixelState(depth[k], color[k])
                  == Progress(lib, s, width, isShowBoundingBox, isShowDepthBuffer, pixelShading, before[k], k, px + 1, s.top)
    {
      var py := s.top;
      while py < s.bottom
        invariant s.top <= py && (py <= s.bottom || py == s.top)
        invariant forall k :: 0 <= k < depth.Length ==>
                    PixelState(depth[k], color[k])
                      == Progress(lib, s, width, isShowBoundingBox, isShowDepthBuffer, pixelShading, before[k], k, px, py)
      {
        RenderPixel(lib, s, px, py, pixelShading);
        VisitStep(s, width, px, py);
        py := py + 1;
      }
      ColumnDone(s, px, py);
    }

    /** `std::fill_n` of the depth buffer with `FltMax`; the colour buffer is left alone. */
    method ResetDepth()
      requires Valid()
      modifies depth
      ensures Frame() == Cleared(old(color[..]))
    {
      var n := width * height;
      var j := 0;
      while j < n
        invariant 0 <= j <= n
        invariant forall k :: 0 <= k < j ==> depth[k] == FltMax
      {
        depth[j] := FltMax;
        j := j + 1;
      }
      assert forall k :: 0 <= k < n ==> Frame()[k] == Cleared(old(color[..]))[k];
    }

    /**
     * `RenderSoftware`: every depth entry is reset to `FltMax`, the vertex
     * stage runs once, and the index list is walked in triples while
     * i + 2 < count, so `count / 3` triangles are drawn in index order.
     * The colour buffer is not cleared here. (The loop is guarded by
     * i + 2 < count rather than by the unsigned i < count - 2, which
     * differs only for fewer than two indices; see `IndexLoopBound`.)
     */
    method RenderSoftware(lib: MathLib, vertexShading: seq<Vertex> -> seq<VertexOut>,
                          pixelShading: VertexOut -> ColorRGB)
      requires Valid()
      requires IndicesInRange(indices, |vertexShading(vertices)|)
      requires forall v :: v in vertexShading(vertices) ==> DepthSafe(v)
      modifies depth, color
      ensures Frame() == RenderTriangles(lib, Triangles(vertexShading(vertices), indices), width, height,
                                         isShowBoundingBox, isShowDepthBuffer, pixelShading, Cleared(old(color[..])))
    {
      // 1. Reset depth buffer
      ResetDepth();
      // 2. Vertex shading
      var verticesOut := vertexShading(vertices);
      // 3. Render triangles
      RenderIndexed(lib, verticesOut, pixelShading);
    }

    /**
     * The triangle loop of `RenderSoftware`: index triples in order, each
     * through `RenderTriangle`, for as long as a whole triple remains.
     */
    method RenderIndexed(lib: MathLib, verticesOut: seq<VertexOut>, pixelShading: VertexOut -> ColorRGB)
      requires Valid()
      requires IndicesInRange(indices, |verticesOut|)
      requires forall v :: v in verticesOut ==> DepthSafe(v)
      modifies depth, color
      ensures Frame() == RenderTriangles(lib, Triangles(verticesOut, indices), width, height,
                                         isShowBoundingBox, isShowDepthBuffer, pixelShading, old(Frame()))
    {
      ghost var triangles := Triangles(verticesOut, indices);
      ghost var start := Frame();
      TrianglesDepthSafe(verticesOut, indices);
      var i := 0;
      ghost var t := 0;
      while i + 2 < |indices|
        invariant i == 3 * t && 0 <= t <= |triangles|
        invariant forall k :: 0 <= k < |triangles| ==> TriangleDepthSafe(triangles[k])
        invariant Frame() == RenderTriangles(lib, triangles[..t], width, height, isShowBoundingBox,
                                             isShowDepthBuffer, pixelShading, start)
      {
        assert t < |triangles|;
        assert triangles[t] == Triangle(verticesOut[indices[i]], verticesOut[indices[i + 1]], verticesOut[indices[i + 2]]);
        RenderTriangle(lib, verticesOut[indices[i]], verticesOut[indices[i + 1]], verticesOut[indices[i + 2]],
                       pixelShading);
        RenderTrianglesStep(lib, triangles, t, width, height, isShowBoundingBox, isShowDepthBuffer, pixelShading,
                            start);
        i, t := i + 3, t + 1;
      }
      assert triangles[..t] == triangles;
    }
  }
}
