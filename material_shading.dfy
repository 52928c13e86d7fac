/**
 * The shaded material of the software path: a vertex stage that projects
 * the mesh into normalised device coordinates while keeping the clip-space
 * w, and a pixel stage that lights a fragment with one fixed directional
 * light under one of four shading modes, optionally perturbing the normal
 * with a tangent-space normal map.
 */
module ShadingMaterials {
  import opened Geometry
  import opened Vertices
  import opened Textures
  import opened Materials

  datatype ShadingMode = ObservedArea | Diffuse | Specular | Combined

  /** `ShadingMode::END`: the number of shading modes. */
  const ShadingModeCount := 4

  function ShadingOrdinal(m: ShadingMode): (i: int)
    ensures 0 <= i < ShadingModeCount
  {
    match m
    case ObservedArea => 0
    case Diffuse => 1
    case Specular => 2
    case Combined => 3
  }

  function ShadingFromOrdinal(i: int): (m: ShadingMode)
    requires 0 <= i < ShadingModeCount
    ensures ShadingOrdinal(m) == i
  {
    if i == 0 then ObservedArea else if i == 1 then Diffuse else if i == 2 then Specular else Combined
  }

  /** Every mode is found again from its ordinal. */
  lemma ShadingOrdinalInverse(m: ShadingMode)
    ensures ShadingFromOrdinal(ShadingOrdinal(m)) == m
  {
  }

  /** The mode after `m`, wrapping from the last back to the first. */
  function NextShadingMode(m: ShadingMode): (n: ShadingMode)
    ensures ShadingOrdinal(n) == (ShadingOrdinal(m) + 1) % ShadingModeCount
  {
    ShadingFromOrdinal((ShadingOrdinal(m) + 1) % ShadingModeCount)
  }

  /** The mode reached after `n` calls to `CycleShading`. */
  function CycleShadingTimes(m: ShadingMode, n: nat): ShadingMode
  {
    if n == 0 then m else NextShadingMode(CycleShadingTimes(m, n - 1))
  }

  /** Every four calls bring the shading mode back to where it was. */
  lemma {:induction false} CycleShadingPeriod(m: ShadingMode, n: nat)
    ensures CycleShadingTimes(m, n + 4) == CycleShadingTimes(m, n)
  {
    if n == 0 {
      assert CycleShadingTimes(m, 4) == NextShadingMode(NextShadingMode(NextShadingMode(NextShadingMode(m))));
      FourModesBack(m);
    } else {
      CycleShadingPeriod(m, n - 1);
    }
  }

  /** Four steps from any mode pass through the other three and come back. */
  lemma FourModesBack(m: ShadingMode)
    ensures NextShadingMode(NextShadingMode(NextShadingMode(NextShadingMode(m)))) == m
  {
    match m
    case ObservedArea =>
    case Diffuse =>
    case Specular =>
    case Combined =>
  }

  /** The label `CycleShading` reports for a mode. */
  function ShadingLabel(m: ShadingMode): string
  {
    match m
    case ObservedArea => "OBSERVED_AREA"
    case Diffuse => "DIFFUSE"
    case Specular => "SPECULAR"
    case Combined => "COMBINED"
  }

  // The fixed lighting of the pixel stage.
  const LightDirection := Vector3(0.577, -0.577, 0.577)
  const LightIntensity := 7.0
  const Shininess := 25.0
  const Ambient := ColorRGB(0.025, 0.025, 0.025)

  // ---------------------------------------------------------------------
  // Vertex stage
  // ---------------------------------------------------------------------

  /** The vertex position transformed by world-view-projection, before the divide. */
  function ClipPosition(lib: MathLib, worldViewProj: Matrix, v: Vertex): Vector4
  {
    lib.transformPoint(worldViewProj, Vector4(v.position.x, v.position.y, v.position.z, 1.0))
  }

  /** The vertex stage divides by the clip-space w, which must not be zero. */
  predicate Projectable(lib: MathLib, worldViewProj: Matrix, v: Vertex)
  {
    ClipPosition(lib, worldViewProj, v).w != 0.0
  }

  /**
   * One vertex through the vertex stage: x, y, z divided by w with w kept,
   * uv copied, normal and tangent turned into world directions, the world
   * position recorded, and the record's colour left at its default.
   */
  function TransformVertex(lib: MathLib, worldViewProj: Matrix, world: Matrix, v: Vertex): (o: VertexOut)
    requires Projectable(lib, worldViewProj, v)
    ensures o.uv == v.uv
    ensures o.position.w == ClipPosition(lib, worldViewProj, v).w
    ensures o.position.x * o.position.w == ClipPosition(lib, worldViewProj, v).x
    ensures o.position.y * o.position.w == ClipPosition(lib, worldViewProj, v).y
    ensures o.position.z * o.position.w == ClipPosition(lib, worldViewProj, v).z
    ensures o.normal == lib.transformVector(world, v.normal) && o.tangent == lib.transformVector(world, v.tangent)
    ensures o.worldPosition == lib.transformPoint(world, Vector4(v.position.x, v.position.y, v.position.z, 1.0)).XYZ()
  {
    var p := ClipPosition(lib, worldViewProj, v);
    VertexOut(Vector4(p.x / p.w, p.y / p.w, p.z / p.w, p.w),
              v.uv,
              lib.transformVector(world, v.normal),
              lib.transformVector(world, v.tangent),
              WhiteColor,
              lib.transformPoint(world, Vector4(v.position.x, v.position.y, v.position.z, 1.0)).XYZ())
  }

  // ---------------------------------------------------------------------
  // Pixel stage
  // ---------------------------------------------------------------------

  /** The four texture slots of the material. */
  datatype TextureSlots = TextureSlots(
    diffuse: Option<Texture>,
    normal: Option<Texture>,
    specular: Option<Texture>,
    gloss: Option<Texture>)

  /** A bound texture that can be sampled at uv. */
  predicate Sampleable(slot: Option<Texture>, uv: Vector2)
  {
    slot.Some? && CanSample(slot.value, uv)
  }

  /** A normal-map sample in [0, 1] per channel, remapped to [-1, 1] per component. */
  function DecodeNormalSample(c: ColorRGB): (n: Vector3)
    ensures (n.x + 1.0) / 2.0 == c.r && (n.y + 1.0) / 2.0 == c.g && (n.z + 1.0) / 2.0 == c.b
    ensures 0.0 <= c.r <= 1.0 ==> -1.0 <= n.x <= 1.0
    ensures 0.0 <= c.g <= 1.0 ==> -1.0 <= n.y <= 1.0
    ensures 0.0 <= c.b <= 1.0 ==> -1.0 <= n.z <= 1.0
  {
    var d := c.Scale(2.0).Sub(WhiteColor);
    Vector3(d.r, d.g, d.b)
  }

  /**
   * The normal used for lighting: the interpolated normal, or with normal
   * mapping on, the decoded normal-map sample taken through the basis
   * (tangent, normal x tangent, normal).
   */
  function ShadingNormal(lib: MathLib, isNormalMap: bool, normalMap: Option<Texture>, v: VertexOut): (n: Vector3)
    requires isNormalMap ==> Sampleable(normalMap, v.uv)
    ensures !isNormalMap ==> n == v.normal
    ensures isNormalMap ==>
              n == lib.transformVector(FromAxes(v.tangent, Cross3(v.normal, v.tangent), v.normal, Zero3),
                                       DecodeNormalSample(Sample(normalMap.value, v.uv)))
  {
    if isNormalMap then
      var binormal := Cross3(v.normal, v.tangent);
      var tangentSpaceAxis := FromAxes(v.tangent, binormal, v.normal, Zero3);
      lib.transformVector(tangentSpaceAxis, DecodeNormalSample(Sample(normalMap.value, v.uv)))
    else
      v.normal
  }

  /** Lambert's cosine: the normal against the direction towards the light. */
  function ObservedAreaOf(normal: Vector3): real
  {
    Dot3(normal, LightDirection.Neg())
  }

  /** The direction from the camera (translation of the inverse view) to the fragment. */
  function ViewDirection(lib: MathLib, invView: Matrix, v: VertexOut): Vector3
  {
    lib.normalized(v.worldPosition.Sub(invView.r3.XYZ()))
  }

  function DiffuseTerm(lib: MathLib, diffuse: Texture, uv: Vector2, dot: real): ColorRGB
    requires CanSample(diffuse, uv)
  {
    lib.lambert(LightIntensity, Sample(diffuse, uv)).Scale(dot)
  }

  function SpecularTerm(lib: MathLib, specular: Texture, gloss: Texture, uv: Vector2,
                        viewDirection: Vector3, normal: Vector3, dot: real): ColorRGB
    requires CanSample(specular, uv) && CanSample(gloss, uv)
  {
    lib.phong(Sample(specular, uv), Shininess * Sample(gloss, uv).r, LightDirection.Neg(), viewDirection, normal).Scale(dot)
  }

  /** The textures a shading mode samples once the fragment faces the light. */
  predicate ModeTexturesSampleable(mode: ShadingMode, slots: TextureSlots, uv: Vector2)
  {
    && ((mode == Diffuse || mode == Combined) ==> Sampleable(slots.diffuse, uv))
    && ((mode == Specular || mode == Combined) ==> Sampleable(slots.specular, uv) && Sampleable(slots.gloss, uv))
  }

  /**
   * What the pixel stage dereferences: the normal map whenever normal
   * mapping is on, and the mode's textures whenever the fragment faces the
   * light. None of these pointers is checked for null before use.
   */
  predicate CanShade(lib: MathLib, mode: ShadingMode, isNormalMap: bool, slots: TextureSlots, v: VertexOut)
  {
    && (isNormalMap ==> Sampleable(slots.normal, v.uv))
    && (ObservedAreaOf(ShadingNormal(lib, isNormalMap, slots.normal, v)) >= 0.0 ==>
          ModeTexturesSampleable(mode, slots, v.uv))
  }

  /** The colour of a fragment under the given mode, normal-map switch and textures. */
  function Shade(lib: MathLib, mode: ShadingMode, isNormalMap: bool, slots: TextureSlots,
                 invView: Matrix, v: VertexOut): (c: ColorRGB)
    requires CanShade(lib, mode, isNormalMap, slots, v)
    ensures ObservedAreaOf(ShadingNormal(lib, isNormalMap, slots.normal, v)) < 0.0 ==> c == Ambient
    ensures mode == ObservedArea ==> c.r == c.g == c.b && c.r >= Ambient.r
  {
    var normal := ShadingNormal(lib, isNormalMap, slots.normal, v);
    var viewDirection := ViewDirection(lib, invView, v);
    var dot := ObservedAreaOf(normal);
    if dot >= 0.0 then
      match mode
      case ObservedArea => Ambient.Add(ColorRGB(dot, dot, dot))
      case Diffuse => Ambient.Add(DiffuseTerm(lib, slots.diffuse.value, v.uv, dot))
      case Specular =>
        Ambient.Add(SpecularTerm(lib, slots.specular.value, slots.gloss.value, v.uv, viewDirection, normal, dot))
      case Combined =>
        Ambient.Add(DiffuseTerm(lib, slots.diffuse.value, v.uv, dot))
               .Add(SpecularTerm(lib, slots.specular.value, slots.gloss.value, v.uv, viewDirection, normal, dot))
    else
      Ambient
  }

  /** A fragment facing away from the light is pure ambient, whatever the mode. */
  lemma BackFacingIsAmbient(lib: MathLib, isNormalMap: bool, slots: TextureSlots, invView: Matrix, v: VertexOut)
    requires isNormalMap ==> Sampleable(slots.normal, v.uv)
    requires ObservedAreaOf(ShadingNormal(lib, isNormalMap, slots.normal, v)) < 0.0
    ensures forall mode :: CanShade(lib, mode, isNormalMap, slots, v) &&
                           Shade(lib, mode, isNormalMap, slots, invView, v) == Ambient
  {
  }

  /** In ObservedArea mode a lit fragment is ambient plus the cosine term in every channel. */
  lemma ObservedAreaIsCosine(lib: MathLib, isNormalMap: bool, slots: TextureSlots, invView: Matrix, v: VertexOut)
    requires isNormalMap ==> Sampleable(slots.normal, v.uv)
    ensures CanShade(lib, ObservedArea, isNormalMap, slots, v)
    ensures var dot := ObservedAreaOf(ShadingNormal(lib, isNormalMap, slots.normal, v));
            dot >= 0.0 ==>
              Shade(lib, ObservedArea, isNormalMap, slots, invView, v) == ColorRGB(0.025 + dot, 0.025 + dot, 0.025 + dot)
  {
  }

  /**
   * Combined mode adds both lighting terms to the ambient: its colour is the
   * Diffuse-mode colour plus the Specular-mode colour minus one ambient.
   */
  lemma CombinedIsDiffusePlusSpecular(lib: MathLib, isNormalMap: bool, slots: TextureSlots, invView: Matrix, v: VertexOut)
    requires CanShade(lib, Combined, isNormalMap, slots, v)
    ensures CanShade(lib, Diffuse, isNormalMap, slots, v) && CanShade(lib, Specular, isNormalMap, slots, v)
    ensures Shade(lib, Combined, isNormalMap, slots, invView, v)
         == Shade(lib, Diffuse, isNormalMap, slots, invView, v)
              .Add(Shade(lib, Specular, isNormalMap, slots, invView, v))
              .Sub(Ambient)
  {
  }

  /** Without normal mapping the interpolated normal is used as it is and no texture is needed for it. */
  lemma NormalMapOffKeepsNormal(lib: MathLib, normalMap: Option<Texture>, v: VertexOut)
    ensures ShadingNormal(lib, false, normalMap, v) == v.normal
  {
  }

  /**
   * ObservedArea mode without normal mapping samples no texture: its colour
   * is the same whatever the four slots hold.
   */
  lemma ObservedAreaIgnoresTextures(lib: MathLib, slots1: TextureSlots, slots2: TextureSlots, invView: Matrix, v: VertexOut)
    ensures CanShade(lib, ObservedArea, false, slots1, v) && CanShade(lib, ObservedArea, false, slots2, v)
    ensures Shade(lib, ObservedArea, false, slots1, invView, v) == Shade(lib, ObservedArea, false, slots2, invView, v)
  {
  }

  class ShadingMaterial {
    /** The base part: techniques and the world-view-projection matrix. */
    const base: Material
    /** Whether the effect exposes the shader variable of each texture slot. */
    const diffuseMapVariable: bool
    const normalMapVariable: bool
    const specularMapVariable: bool
    const glossMapVariable: bool

    var worldMat: Matrix
    var invViewMat: Matrix
    var diffuseTexture: Option<Texture>
    var normalTexture: Option<Texture>
    var specularTexture: Option<Texture>
    var glossTexture: Option<Texture>
    var shadingMode: ShadingMode
    var isNormalMap: bool

    /** A new material shades in Combined mode with normal mapping on, zero matrices and no texture bound. */
    constructor (point: Option<Technique>, linear: Option<Technique>, anisotropic: Option<Technique>,
                 diffuseVariable: bool, normalVariable: bool, specularVariable: bool, glossVariable: bool)
      ensures fresh(base) && base.techniqueType == Point && base.technique == point
      ensures base.techniquePoint == point && base.techniqueLinear == linear && base.techniqueAnisotropic == anisotropic
      ensures diffuseMapVariable == diffuseVariable && normalMapVariable == normalVariable
      ensures specularMapVariable == specularVariable && glossMapVariable == glossVariable
      ensures Slots() == TextureSlots(None, None, None, None)
      ensures shadingMode == Combined && isNormalMap
      ensures worldMat == ZeroMatrix && invViewMat == ZeroMatrix && base.worldViewProjMat == ZeroMatrix
    {
      base := new Material(point, linear, anisotropic);
      diffuseMapVariable, normalMapVariable := diffuseVariable, normalVariable;
      specularMapVariable, glossMapVariable := specularVariable, glossVariable;
      worldMat, invViewMat := ZeroMatrix, ZeroMatrix;
      diffuseTexture, normalTexture, specularTexture, glossTexture := None, None, None, None;
      shadingMode := Combined;
      isNormalMap := true;
    }

    /** The four texture slots as one value. */
    function Slots(): TextureSlots
      reads this
    {
      TextureSlots(diffuseTexture, normalTexture, specularTexture, glossTexture)
    }

    /**
     * Passes the matrix to the base material (which keeps "WorldViewProj"),
     * and keeps it as the world matrix for "World" and as the inverse view
     * for "InvView".
     */
    method SetMatrix(matrix: Matrix, name: string)
      modifies this, base
      ensures base.worldViewProjMat == (if name == "WorldViewProj" then matrix else old(base.worldViewProjMat))
      ensures worldMat == (if name == "World" then matrix else old(worldMat))
      ensures invViewMat == (if name == "InvView" then matrix else old(invViewMat))
      ensures base.techniqueType == old(base.techniqueType) && base.technique == old(base.technique)
      ensures Slots() == old(Slots()) && shadingMode == old(shadingMode) && isNormalMap == old(isNormalMap)
    {
      base.SetMatrix(matrix, name);
      if name == "World" {
        worldMat := matrix;
      } else if name == "InvView" {
        invViewMat := matrix;
      }
    }

    /**
     * Binds a texture to the slot with the given name. A missing texture, a
     * missing shader variable or an unknown name leaves every slot as it was.
     */
    method SetTexture(texture: Option<Texture>, name: string)
      modifies this
      ensures name == "Diffuse" ==>
                Slots() == old(Slots()).(diffuse := if texture.Some? && diffuseMapVariable then texture else old(diffuseTexture))
      ensures name == "Normal" ==>
                Slots() == old(Slots()).(normal := if texture.Some? && normalMapVariable then texture else old(normalTexture))
      ensures name == "Specular" ==>
                Slots() == old(Slots()).(specular := if texture.Some? && specularMapVariable then texture else old(specularTexture))
      ensures name == "Gloss" ==>
                Slots() == old(Slots()).(gloss := if texture.Some? && glossMapVariable then texture else old(glossTexture))
      ensures texture.None? || (name != "Diffuse" && name != "Normal" && name != "Specular" && name != "Gloss") ==>
                Slots() == old(Slots())
      ensures worldMat == old(worldMat) && invViewMat == old(invViewMat)
      ensures shadingMode == old(shadingMode) && isNormalMap == old(isNormalMap)
    {
      if name == "Diffuse" {
        SetDiffuse(texture);
      } else if name == "Normal" {
        SetNormal(texture);
      } else if name == "Specular" {
        SetSpecular(texture);
      } else if name == "Gloss" {
        SetGlossiness(texture);
      }
    }

    method SetDiffuse(texture: Option<Texture>)
      modifies this
      ensures Slots() == old(Slots()).(diffuse := if texture.Some? && diffuseMapVariable then texture else old(diffuseTexture))
      ensures worldMat == old(worldMat) && invViewMat == old(invViewMat)
      ensures shadingMode == old(shadingMode) && isNormalMap == old(isNormalMap)
    {
      if texture.Some? && diffuseMapVariable {
        diffuseTexture := texture;
      }
    }

    method SetNormal(texture: Option<Texture>)
      modifies this
      ensures Slots() == old(Slots()).(normal := if texture.Some? && normalMapVariable then texture else old(normalTexture))
      ensures worldMat == old(worldMat) && invViewMat == old(invViewMat)
      ensures shadingMode == old(shadingMode) && isNormalMap == old(isNormalMap)
    {
      if texture.Some? && normalMapVariable {
        normalTexture := texture;
      }
    }

    method SetSpecular(texture: Option<Texture>)
      modifies this
      ensures Slots() == old(Slots()).(specular := if texture.Some? && specularMapVariable then texture else old(specularTexture))
      ensures worldMat == old(worldMat) && invViewMat == old(invViewMat)
      ensures shadingMode == old(shadingMode) && isNormalMap == old(isNormalMap)
    {
      if texture.Some? && specularMapVariable {
        specularTexture := texture;
      }
    }

    method SetGlossiness(texture: Option<Texture>)
      modifies this
      ensures Slots() == old(Slots()).(gloss := if texture.Some? && glossMapVariable then texture else old(glossTexture))
      ensures worldMat == old(worldMat) && invViewMat == old(invViewMat)
      ensures shadingMode == old(shadingMode) && isNormalMap == old(isNormalMap)
    {
      if texture.Some? && glossMapVariable {
        glossTexture := texture;
      }
    }

    /**
     * The software vertex stage: the output starts empty and receives one
     * transformed vertex per input vertex, in input order.
     */
    method VertexShading(lib: MathLib, verticesIn: seq<Vertex>) returns (verticesOut: seq<VertexOut>)
      requires forall i :: 0 <= i < |verticesIn| ==> Projectable(lib, base.worldViewProjMat, verticesIn[i])
      ensures |verticesOut| == |verticesIn|
      ensures forall i :: 0 <= i < |verticesIn| ==>
                verticesOut[i] == TransformVertex(lib, base.worldViewProjMat, worldMat, verticesIn[i])
    {
      verticesOut := [];
      var i := 0;
      while i < |verticesIn|
        invariant 0 <= i <= |verticesIn|
        invariant |verticesOut| == i
        invariant forall j :: 0 <= j < i ==>
                    verticesOut[j] == TransformVertex(lib, base.worldViewProjMat, worldMat, verticesIn[j])
      {
        var vertex := verticesIn[i];
        var position := lib.transformPoint(base.worldViewProjMat,
                                           Vector4(vertex.position.x, vertex.position.y, vertex.position.z, 1.0));
        assert position.w != 0.0 by {
          assert Projectable(lib, base.worldViewProjMat, verticesIn[i]);
        }
        position := position.(x := position.x / position.w);
        position := position.(y := position.y / position.w);
        position := position.(z := position.z / position.w);
        var v := VertexOut(position,
                           vertex.uv,
                           lib.transformVector(worldMat, vertex.normal),
                           lib.transformVector(worldMat, vertex.tangent),
                           WhiteColor,
                           lib.transformPoint(worldMat, Vector4(vertex.position.x, vertex.position.y, vertex.position.z, 1.0)).XYZ());
        verticesOut := verticesOut + [v];
        i := i + 1;
      }
    }

    /** The software pixel stage under the material's current mode, switch and textures. */
    function PixelShading(lib: MathLib, v: VertexOut): (c: ColorRGB)
      reads this
      requires CanShade(lib, shadingMode, isNormalMap, Slots(), v)
      ensures ObservedAreaOf(ShadingNormal(lib, isNormalMap, normalTexture, v)) < 0.0 ==> c == Ambient
    {
      Shade(lib, shadingMode, isNormalMap, Slots(), invViewMat, v)
    }

    /** Moves to the next shading mode and returns its label. */
    method CycleShading() returns (caption: string)
      modifies this
      ensures shadingMode == NextShadingMode(old(shadingMode))
      ensures caption == ShadingLabel(shadingMode)
      ensures isNormalMap == old(isNormalMap) && Slots() == old(Slots())
      ensures worldMat == old(worldMat) && invViewMat == old(invViewMat)
    {
      shadingMode := ShadingFromOrdinal((ShadingOrdinal(shadingMode) + 1) % ShadingModeCount);
      match shadingMode {
        case ObservedArea => caption := "OBSERVED_AREA";
        case Diffuse => caption := "DIFFUSE";
        case Specular => caption := "SPECULAR";
        case Combined => caption := "COMBINED";
      }
    }

    /** Flips normal mapping and returns the new setting. */
    method ToggleNormalMap() returns (isOn: bool)
      modifies this
      ensures isNormalMap == !old(isNormalMap) && isOn == isNormalMap
      ensures shadingMode == old(shadingMode) && Slots() == old(Slots())
      ensures worldMat == old(worldMat) && invViewMat == old(invViewMat)
    {
      isNormalMap := !isNormalMap;
      isOn := isNormalMap;
    }
  }

  /** From the default Combined mode the first `CycleShading` reports "OBSERVED_AREA". */
  lemma FirstCycleFromDefault()
    ensures NextShadingMode(Combined) == ObservedArea && ShadingLabel(NextShadingMode(Combined)) == "OBSERVED_AREA"
  {
  }
}
