/**
 * The base material: the active effect technique (one per texture sampler
 * state), the world-view-projection matrix, the vertex input layout, and
 * the default software stages that a material without its own override
 * inherits.
 *
 * The effect itself (compilation, technique and variable lookups, uploading
 * matrices to the GPU) is not part of this model: a technique handle is an
 * optional value obtained when the material is built.
 */
module Materials {
  import opened Geometry
  import opened Vertices

  /** The sampler states the hardware path can use; `CycleTechnique` walks them in this order. */
  datatype TechniqueType = Point | Linear | Anisotropic

  /** `TechniqueType::END`: the number of technique types. */
  const TechniqueTypeCount := 3

  function TechniqueOrdinal(t: TechniqueType): (i: int)
    ensures 0 <= i < TechniqueTypeCount
  {
    match t
    case Point => 0
    case Linear => 1
    case Anisotropic => 2
  }

  function TechniqueFromOrdinal(i: int): (t: TechniqueType)
    requires 0 <= i < TechniqueTypeCount
    ensures TechniqueOrdinal(t) == i
  {
    if i == 0 then Point else if i == 1 then Linear else Anisotropic
  }

  /** Every technique type is found again from its ordinal. */
  lemma TechniqueOrdinalInverse(t: TechniqueType)
    ensures TechniqueFromOrdinal(TechniqueOrdinal(t)) == t
  {
  }

  /** The type after `t`, wrapping from the last back to the first. */
  function NextTechniqueType(t: TechniqueType): (n: TechniqueType)
    ensures TechniqueOrdinal(n) == (TechniqueOrdinal(t) + 1) % TechniqueTypeCount
  {
    TechniqueFromOrdinal((TechniqueOrdinal(t) + 1) % TechniqueTypeCount)
  }

  /** The type reached after `n` calls to `CycleTechnique`. */
  function CycleTechniqueTimes(t: TechniqueType, n: nat): TechniqueType
  {
    if n == 0 then t else NextTechniqueType(CycleTechniqueTimes(t, n - 1))
  }

  /** Every three calls bring the technique type back to where it was. */
  lemma {:induction false} CycleTechniquePeriod(t: TechniqueType, n: nat)
    ensures CycleTechniqueTimes(t, n + 3) == CycleTechniqueTimes(t, n)
  {
    if n == 0 {
      assert CycleTechniqueTimes(t, 3) == NextTechniqueType(NextTechniqueType(NextTechniqueType(t)));
    } else {
      CycleTechniquePeriod(t, n - 1);
    }
  }

  /** The caption `CycleTechnique` reports for a technique type. */
  function TechniqueLabel(t: TechniqueType): string
  {
    match t
    case Point => "POINT"
    case Linear => "LINEAR"
    case Anisotropic => "ANISOTROPIC"
  }

  /** A handle on one technique of the loaded effect. */
  datatype Technique = Technique(name: string)

  /** The vertex formats of the input layout. */
  datatype Format = R32G32B32Float | R32G32Float

  /** Size in bytes of one attribute of the given format: three or two 4-byte floats. */
  function FormatSize(f: Format): nat
  {
    match f
    case R32G32B32Float => 12
    case R32G32Float => 8
  }

  /** One `D3D11_INPUT_ELEMENT_DESC` entry (all entries are per-vertex data in slot 0). */
  datatype InputElement = InputElement(semanticName: string, format: Format, alignedByteOffset: nat)

  /**
   * The byte offset of field `i` of the mesh's `Vertex` record (position,
   * uv, normal, tangent, colour), laid out without padding.
   */
  function VertexFieldOffset(i: nat): nat
    requires i <= 5
  {
    if i == 0 then 0 else VertexFieldOffset(i - 1) + VertexFieldSize(i - 1)
  }

  function VertexFieldSize(i: nat): nat
    requires i < 5
  {
    [12, 8, 12, 12, 12][i]
  }

  class Material {
    var techniqueType: TechniqueType
    var technique: Option<Technique>
    const techniquePoint: Option<Technique>
    const techniqueLinear: Option<Technique>
    const techniqueAnisotropic: Option<Technique>
    var worldViewProjMat: Matrix

    /** A material starts on the point technique with a zero world-view-projection matrix. */
    constructor (point: Option<Technique>, linear: Option<Technique>, anisotropic: Option<Technique>)
      ensures techniquePoint == point && techniqueLinear == linear && techniqueAnisotropic == anisotropic
      ensures techniqueType == Point && technique == point
      ensures worldViewProjMat == ZeroMatrix
    {
      techniquePoint, techniqueLinear, techniqueAnisotropic := point, linear, anisotropic;
      techniqueType := Point;
      technique := point;
      worldViewProjMat := ZeroMatrix;
    }

    /** The technique handle stored for a technique type. */
    function TechniqueOf(t: TechniqueType): Option<Technique>
      reads this
    {
      match t
      case Point => techniquePoint
      case Linear => techniqueLinear
      case Anisotropic => techniqueAnisotropic
    }

    /**
     * Advances to the next technique type. That technique becomes active
     * and its caption is returned when it exists; otherwise the active
     * technique stays and the caption is empty. The type advances either way.
     */
    method CycleTechnique() returns (caption: string)
      modifies this
      ensures techniqueType == NextTechniqueType(old(techniqueType))
      ensures TechniqueOf(techniqueType).Some? ==>
                technique == TechniqueOf(techniqueType) && caption == TechniqueLabel(techniqueType)
      ensures TechniqueOf(techniqueType).None? ==> technique == old(technique) && caption == ""
      ensures worldViewProjMat == old(worldViewProjMat)
    {
      techniqueType := TechniqueFromOrdinal((TechniqueOrdinal(techniqueType) + 1) % TechniqueTypeCount);
      caption := "";
      match techniqueType {
        case Point =>
          if techniquePoint.Some? {
            technique := techniquePoint;
            caption := "POINT";
          }
        case Linear =>
          if techniqueLinear.Some? {
            technique := techniqueLinear;
            caption := "LINEAR";
          }
        case Anisotropic =>
          if techniqueAnisotropic.Some? {
            technique := techniqueAnisotropic;
            caption := "ANISOTROPIC";
          }
      }
    }

    /** Stores the matrix when it is named "WorldViewProj"; any other name changes nothing. */
    method SetMatrix(matrix: Matrix, name: string)
      modifies this
      ensures worldViewProjMat == (if name == "WorldViewProj" then matrix else old(worldViewProjMat))
      ensures techniqueType == old(techniqueType) && technique == old(technique)
    {
      if name == "WorldViewProj" {
        worldViewProjMat := matrix;
      }
    }

    /**
     * The input layout of the hardware path: one element per vertex
     * attribute, each at the byte offset of that attribute in `Vertex`.
     */
    method CreateVertexLayout() returns (numElements: nat, vertexDesc: array<InputElement>)
      ensures fresh(vertexDesc) && vertexDesc.Length == numElements == 4
      ensures vertexDesc[0].semanticName == "POSITION" && vertexDesc[1].semanticName == "TEXCOORD"
      ensures vertexDesc[2].semanticName == "NORMAL" && vertexDesc[3].semanticName == "TANGENT"
      ensures vertexDesc[1].format == R32G32Float
      ensures forall i :: 0 <= i < 4 && i != 1 ==> vertexDesc[i].format == R32G32B32Float
      ensures forall i :: 0 <= i < 4 ==> vertexDesc[i].alignedByteOffset == VertexFieldOffset(i)
      ensures forall i :: 0 < i < 4 ==>
                vertexDesc[i].alignedByteOffset == vertexDesc[i - 1].alignedByteOffset + FormatSize(vertexDesc[i - 1].format)
    {
      numElements := 4;
      vertexDesc := new InputElement[numElements](_ => InputElement("", R32G32B32Float, 0));
      vertexDesc[0] := InputElement("POSITION", R32G32B32Float, 0);
      vertexDesc[1] := InputElement("TEXCOORD", R32G32Float, 12);
      vertexDesc[2] := InputElement("NORMAL", R32G32B32Float, 20);
      vertexDesc[3] := InputElement("TANGENT", R32G32B32Float, 32);
      assert VertexFieldOffset(3) == 32;
    }

    /** The inherited software vertex stage: it leaves the output vertices as they were. */
    method VertexShading(verticesIn: seq<Vertex>, verticesOut: seq<VertexOut>) returns (result: seq<VertexOut>)
      ensures result == verticesOut
    {
      result := verticesOut;
    }

    /** The inherited software pixel stage: every fragment is black (`ColorRGB()`). */
    function PixelShading(v: VertexOut): (c: ColorRGB)
      ensures c == Black
    {
      Black
    }
  }
}
