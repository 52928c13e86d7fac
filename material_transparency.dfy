/**
 * The transparency material: the base material plus one diffuse texture,
 * bound by name. Its software stages are the base material's (no vertex
 * output, black fragments), so the software rasteriser draws nothing
 * useful with it; it is meant for the hardware path.
 */
module TransparencyMaterials {
  import opened Geometry
  import opened Textures
  import opened Materials

  /**
   * The diffuse slot after binding `texture` under `name`: only the name
   * "Diffuse", a present texture and a present shader variable replace it.
   */
  function BindDiffuse(slot: Option<Texture>, texture: Option<Texture>, name: string, variable: bool): (r: Option<Texture>)
    ensures r == slot || r == texture
    ensures r != slot ==> name == "Diffuse" && texture.Some? && variable
  {
    if name == "Diffuse" && texture.Some? && variable then texture else slot
  }

  /** Binding the same texture a second time changes nothing more. */
  lemma BindDiffuseIdempotent(slot: Option<Texture>, texture: Option<Texture>, name: string, variable: bool)
    ensures var once := BindDiffuse(slot, texture, name, variable);
            BindDiffuse(once, texture, name, variable) == once
  {
  }

  /** A successful binding replaces whatever was bound before: only the last one is kept. */
  lemma BindDiffuseLastWins(slot: Option<Texture>, first: Option<Texture>, second: Texture, variable: bool)
    requires variable
    ensures BindDiffuse(BindDiffuse(slot, first, "Diffuse", variable), Some(second), "Diffuse", variable) == Some(second)
  {
  }

  class TransparencyMaterial {
    /** The base part: techniques and the world-view-projection matrix. */
    const base: Material
    /** Whether the effect exposes the `gDiffuseMap` shader variable. */
    const diffuseMapVariable: bool
    var diffuseTexture: Option<Texture>

    /** A new material has no diffuse texture and starts on the point technique. */
    constructor (point: Option<Technique>, linear: Option<Technique>, anisotropic: Option<Technique>,
                 diffuseVariable: bool)
      ensures fresh(base) && base.techniqueType == Point && base.technique == point
      ensures base.techniquePoint == point && base.techniqueLinear == linear && base.techniqueAnisotropic == anisotropic
      ensures base.worldViewProjMat == ZeroMatrix
      ensures diffuseMapVariable == diffuseVariable && diffuseTexture == None
    {
      base := new Material(point, linear, anisotropic);
      diffuseMapVariable := diffuseVariable;
      diffuseTexture := None;
    }

    /**
     * Binds the diffuse texture when the name is "Diffuse"; a missing
     * texture, a missing shader variable or any other name leaves the slot
     * as it was. (The base material's own `SetTexture` does nothing.)
     */
    method SetTexture(texture: Option<Texture>, name: string)
      modifies this
      ensures diffuseTexture == BindDiffuse(old(diffuseTexture), texture, name, diffuseMapVariable)
    {
      if name == "Diffuse" {
        if texture.Some? && diffuseMapVariable {
          diffuseTexture := texture;
        }
      }
    }
  }
}
