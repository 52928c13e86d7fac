/**
 * Value types shared by the renderer: vectors, colours, matrices, the
 * float-to-integer conversions it uses, and colour clamping.
 *
 * The renderer leans on a linear-algebra and reflectance library whose
 * bodies are not part of this model (matrix transforms, normalisation, the
 * Lambert and Phong BRDFs). Those are gathered in `MathLib`, a record of
 * function values that callers pass in, so that every statement proved here
 * holds whatever that library computes.
 */
module Geometry {

  datatype Option<T> = None | Some(value: T)

  /** An 8-bit colour channel. */
  newtype byte = x: int | 0 <= x < 256

  datatype Vector2 = Vector2(x: real, y: real) {
    function Add(o: Vector2): Vector2 { Vector2(x + o.x, y + o.y) }
    function Sub(o: Vector2): Vector2 { Vector2(x - o.x, y - o.y) }
    function Scale(s: real): Vector2 { Vector2(s * x, s * y) }
  }

  datatype Vector3 = Vector3(x: real, y: real, z: real) {
    function Add(o: Vector3): Vector3 { Vector3(x + o.x, y + o.y, z + o.z) }
    function Sub(o: Vector3): Vector3 { Vector3(x - o.x, y - o.y, z - o.z) }
    function Scale(s: real): Vector3 { Vector3(s * x, s * y, s * z) }
    function Neg(): Vector3 { Vector3(-x, -y, -z) }
  }

  datatype Vector4 = Vector4(x: real, y: real, z: real, w: real) {
    function XY(): Vector2 { Vector2(x, y) }
    function XYZ(): Vector3 { Vector3(x, y, z) }
  }

  datatype ColorRGB = ColorRGB(r: real, g: real, b: real) {
    function Add(o: ColorRGB): ColorRGB { ColorRGB(r + o.r, g + o.g, b + o.b) }
    function Sub(o: ColorRGB): ColorRGB { ColorRGB(r - o.r, g - o.g, b - o.b) }
    function Scale(s: real): ColorRGB { ColorRGB(s * r, s * g, s * b) }
  }

  const Zero3 := Vector3(0.0, 0.0, 0.0)

  /** `ColorRGB{}`: every channel zero. */
  const Black := ColorRGB(0.0, 0.0, 0.0)

  /** `colors::White`, the default colour of a vertex record. */
  const WhiteColor := ColorRGB(1.0, 1.0, 1.0)

  /** A 4x4 matrix stored as four rows; row 3 holds the translation. */
  datatype Matrix = Matrix(r0: Vector4, r1: Vector4, r2: Vector4, r3: Vector4)

  const ZeroMatrix := Matrix(Vector4(0.0, 0.0, 0.0, 0.0), Vector4(0.0, 0.0, 0.0, 0.0),
                             Vector4(0.0, 0.0, 0.0, 0.0), Vector4(0.0, 0.0, 0.0, 0.0))

  /** The matrix built from three axes and a translation (`Matrix{ x, y, z, t }`). */
  function FromAxes(xAxis: Vector3, yAxis: Vector3, zAxis: Vector3, t: Vector3): (m: Matrix)
    ensures m.r0.XYZ() == xAxis && m.r1.XYZ() == yAxis && m.r2.XYZ() == zAxis && m.r3.XYZ() == t
  {
    Matrix(Vector4(xAxis.x, xAxis.y, xAxis.z, 0.0), Vector4(yAxis.x, yAxis.y, yAxis.z, 0.0),
           Vector4(zAxis.x, zAxis.y, zAxis.z, 0.0), Vector4(t.x, t.y, t.z, 1.0))
  }

  /** The 2D cross product `a.x * b.y - a.y * b.x`. */
  function Cross2(a: Vector2, b: Vector2): real
  {
    a.x * b.y - a.y * b.x
  }

  function Cross3(a: Vector3, b: Vector3): Vector3
  {
    Vector3(a.y * b.z - a.z * b.y, a.z * b.x - a.x * b.z, a.x * b.y - a.y * b.x)
  }

  function Dot3(a: Vector3, b: Vector3): real
  {
    a.x * b.x + a.y * b.y + a.z * b.z
  }

  /**
   * The library routines the renderer calls but whose definitions are not
   * part of this model: `Matrix::TransformPoint`, `Matrix::TransformVector`,
   * `Vector3::Normalized`, `BRDF::Lambert(kd, cd)` and
   * `BRDF::Phong(ks, exponent, l, v, n)`.
   */
  datatype MathLib = MathLib(
    transformPoint: (Matrix, Vector4) -> Vector4,
    transformVector: (Matrix, Vector3) -> Vector3,
    normalized: Vector3 -> Vector3,
    lambert: (real, ColorRGB) -> ColorRGB,
    phong: (ColorRGB, real, Vector3, Vector3, Vector3) -> ColorRGB)

  /** C++'s `int(x)` conversion of a float: rounds toward zero. */
  function Trunc(x: real): (n: int)
    ensures x >= 0.0 ==> 0 <= n && n as real <= x < n as real + 1.0
    ensures x < 0.0 ==> n <= 0 && x <= n as real < x + 1.0
  {
    if x >= 0.0 then x.Floor else -((-x).Floor)
  }

  /** `ceilf(x)`: the least integer not below x. */
  function Ceil(x: real): (n: int)
    ensures x <= n as real < x + 1.0
  {
    -((-x).Floor)
  }

  /** Position of column x, row y in a row-major array with rows of `width` entries. */
  function RowMajor(x: int, y: int, width: int): int
  {
    x + y * width
  }

  lemma RowMajorInRange(x: int, y: int, width: int, height: int)
    requires 0 <= x < width && 0 <= y < height
    ensures 0 <= RowMajor(x, y, width) < width * height
  {
    MulMonotone(y, height - 1, width);
    assert (height - 1) * width == height * width - width;
  }

  /** Multiplying by a non-negative factor keeps the order of two non-negative numbers. */
  lemma {:induction false} MulMonotone(a: int, b: int, c: int)
    requires 0 <= a <= b && 0 <= c
    ensures 0 <= a * c <= b * c
    decreases c
  {
    if c > 0 {
      MulMonotone(a, b, c - 1);
      assert a * c == a * (c - 1) + a;
      assert b * c == b * (c - 1) + b;
    }
  }

  /** `Clamp(x, lo, hi)`: the value of [lo, hi] nearest to x. */
  function Clamp(x: real, lo: real, hi: real): (r: real)
    requires lo <= hi
    ensures lo <= r <= hi
    ensures lo <= x <= hi ==> r == x
    ensures x < lo ==> r == lo
    ensures x > hi ==> r == hi
  {
    if x < lo then lo else if x > hi then hi else x
  }

  function MaxChannel(c: ColorRGB): (m: real)
    ensures m >= c.r && m >= c.g && m >= c.b
    ensures m == c.r || m == c.g || m == c.b
  {
    if c.r >= c.g && c.r >= c.b then c.r else if c.g >= c.b then c.g else c.b
  }

  /**
   * `ColorRGB::MaxToOne`: when a channel exceeds one, all channels are
   * divided by the largest one, which keeps the hue instead of clipping
   * each channel on its own.
   */
  function MaxToOne(c: ColorRGB): (t: ColorRGB)
    ensures t.r <= 1.0 && t.g <= 1.0 && t.b <= 1.0
    ensures MaxChannel(c) <= 1.0 ==> t == c
    ensures MaxChannel(c) > 1.0 ==> MaxChannel(t) == 1.0
  {
    if MaxChannel(c) > 1.0 then ScaledToMax(c) else c
  }

  /** Every channel divided by the largest one: channels at most one, with one of them exactly one. */
  function ScaledToMax(c: ColorRGB): (t: ColorRGB)
    requires MaxChannel(c) > 1.0
    ensures t.r <= 1.0 && t.g <= 1.0 && t.b <= 1.0
    ensures MaxChannel(t) == 1.0
    ensures t.r * MaxChannel(c) == c.r && t.g * MaxChannel(c) == c.g && t.b * MaxChannel(c) == c.b
  {
    var m := MaxChannel(c);
    var t := ColorRGB(c.r / m, c.g / m, c.b / m);
    DivideByMax(c.r, m, t.r);
    DivideByMax(c.g, m, t.g);
    DivideByMax(c.b, m, t.b);
    t
  }

  /** Rescaling keeps the hue: every channel is the original one divided by the largest. */
  lemma MaxToOneKeepsHue(c: ColorRGB)
    requires MaxChannel(c) > 1.0
    ensures var t := MaxToOne(c);
            t.r * MaxChannel(c) == c.r && t.g * MaxChannel(c) == c.g && t.b * MaxChannel(c) == c.b
  {
    var t := ScaledToMax(c);
    assert MaxToOne(c) == t;
  }

  lemma DivideByMax(a: real, m: real, q: real)
    requires m > 1.0 && a <= m && q == a / m
    ensures q <= 1.0 && (a == m ==> q == 1.0) && q * m == a
  {
    assert q * m == a;
    assert (1.0 - q) * m == m - a;
  }

  /** A colour whose red channel is 2 is divided through by 2: (2, 0.5, 0.5) becomes (1, 0.25, 0.25). */
  lemma MaxToOneExample()
    ensures MaxToOne(ColorRGB(2.0, 0.5, 0.5)) == ColorRGB(1.0, 0.25, 0.25)
  {
  }
}
