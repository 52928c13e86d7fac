# DualRasterizer, software path

This project models the CPU half of DualRasterizer, a renderer that draws
the same textured mesh either through Direct3D 11 or through its own
software rasteriser into an SDL back buffer. It covers the parts the
software rasteriser is made of:

- **The mesh** (`mesh.dfy`, module `Meshes`). A frame starts by resetting
  the depth buffer to `FLT_MAX`. The material's vertex stage then runs
  once, and every index triple is rasterised. For each triangle: frustum
  culling in normalised device coordinates, the mapping to raster space,
  the edge vectors, the signed area (a triangle below 0.001 is dropped),
  and the bounding box clamped to the buffer. Each pixel of that box goes
  through the edge-function coverage test, the interpolated depth and the
  depth test. Its colour comes from the material's pixel stage, or from
  one of the two debug views: the remapped depth, or a white bounding box.
  The colour is rescaled so that no channel exceeds one, then converted to
  bytes. The depth buffer and the back buffer are arrays owned by a `Mesh`
  object. The methods that fill them are proved to leave them exactly as
  the specification functions `Cleared`, `DrawBox`, `DrawTriangle` and
  `RenderTriangles` say. Those functions carry the properties: depths
  never rise, written depths lie in (0, 1], nothing outside a
  triangle's clamped box changes, and the order of two triangles matters
  only where they cover a pixel at exactly the same depth, in which case
  the first one drawn keeps it.
- **The base material** (`material.dfy`, module `Materials`): cycling
  through the three sampler techniques, storing the world-view-projection
  matrix, building the vertex input layout, and the inherited software
  stages, which do nothing and shade black.
- **The shaded material** (`material_shading.dfy`, module
  `ShadingMaterials`). Its vertex stage does the perspective divide and
  keeps the clip-space w for perspective correction. Its pixel stage lights
  a fragment with a fixed directional light under four modes (observed
  area, diffuse, specular, combined), optionally through a tangent-space
  normal map. It also has the texture and matrix setters and the
  mode/normal-map switches.
- **The transparency material** (`material_transparency.dfy`, module
  `TransparencyMaterials`): its diffuse-texture setter.
- **Textures** (`texture.dfy`, module `Textures`): nearest-pixel sampling.
- **Shared values** (`geometry.dfy`, `vertices.dfy`): vectors, colours,
  matrices, the vertex records, and the float-to-integer conversions.

The linear-algebra and reflectance routines the renderer calls have
bodies outside this repository: `TransformPoint`, `TransformVector`,
`Normalized`, `BRDF::Lambert` and `BRDF::Phong`. They are gathered in
`Geometry.MathLib`, a record of function values passed in by the caller.
The mesh receives the material's two software stages the same way, as
the function values `vertexShading` and `pixelShading`. Everything proved
about the mesh therefore holds for any material and any such library.
Floats are modelled as exact reals.

## Model

| member | source | states |
|---|---|---|
| Geometry.Trunc | source/Mesh.cpp:187-188 | `(int)` of a float rounds toward zero: the result is within one of x and never further from zero than x |
| Geometry.Ceil | source/Mesh.cpp:189-190 | `ceilf` gives the least integer not below x |
| Geometry.RowMajorInRange | source/Mesh.cpp:204 | the buffer position px + py * width of a pixel inside a width x height buffer lies inside the buffer |
| Geometry.Clamp | source/Mesh.cpp:243 | the result lies in [lo, hi]; it is x inside the range, lo below it and hi above it |
| Geometry.MaxToOne | source/Mesh.cpp:272 | afterwards no channel exceeds one; a colour whose largest channel is at most one is unchanged; otherwise the largest channel becomes exactly one |
| Geometry.ScaledToMax | source/Mesh.cpp:272 | a colour whose largest channel exceeds one, divided through by it: channels at most one, the largest exactly one, each channel times the old largest giving the old channel back |
| Geometry.MaxToOneKeepsHue | source/Mesh.cpp:272 | when rescaling happens every channel is the old one divided by the old largest channel, so the ratios between channels are kept |
| Geometry.MaxToOneExample | source/Mesh.cpp:272 | (2, 0.5, 0.5) becomes (1, 0.25, 0.25) |
| Geometry.FromAxes | source/MaterialShading.cpp:149 | the tangent-space matrix has the three axes as its rows and the translation as its last row |
| Textures.Normalize | source/Texture.cpp:86 | a byte over 255 lies in [0, 1], maps 0 to 0 and 255 to 1, and times 255 gives the byte back |
| Textures.Sample | source/Texture.cpp:75-87 | each channel lies in [0, 1] and is the stored byte over 255 of the pixel at int(u * width) + int(v * height) * width |
| Textures.PixelCoordinate | source/Texture.cpp:80-81 | the column or row read for a coordinate u on an axis of n pixels lies in [0, n) whenever u lies in [0, 1) |
| Textures.ScaledBelow | source/Texture.cpp:80-81 | truncating u * n for u in [0, 1) gives a column or row inside [0, n) |
| Textures.SampleInBounds | source/Texture.cpp:77-84 | for uv in [0, 1) x [0, 1) on a non-empty image the lookup stays inside the pixel array |
| Textures.SampleAtOneOverruns | source/Texture.cpp:80-84 | with v = 1 the lookup lands past the end of the pixel array, whatever u >= 0 is: there is no clamping or wrapping |
| Materials.TechniqueFromOrdinal | source/Material.h:57-65 | the technique type built from an ordinal 0, 1 or 2 has that ordinal |
| Materials.TechniqueOrdinalInverse | source/Material.h:57-65 | every technique type is found again from its ordinal, so the enum and its ordinals are inverse |
| Materials.NextTechniqueType | source/Material.cpp:135 | the technique ordinal advances by one modulo three |
| Materials.CycleTechniquePeriod | source/Material.cpp:135 | three calls of `CycleTechnique` bring the technique type back to where it was |
| Materials.Material.constructor | source/Material.cpp:41-53 | a material starts on the point technique, with the point technique active and a zero world-view-projection matrix |
| Materials.Material.CycleTechnique | source/Material.cpp:133-160 | the type always advances; an existing technique of the new type becomes active and its caption is returned; otherwise the active technique stays and the caption is empty |
| Materials.Material.SetMatrix | source/Material.cpp:162-173 | only the name "WorldViewProj" stores the matrix; any other name changes nothing |
| Materials.Material.CreateVertexLayout | source/Material.cpp:179-205 | four elements POSITION, TEXCOORD, NORMAL, TANGENT; each offset is the previous offset plus the previous element's size (0, 12, 20, 32), matching the vertex record |
| Materials.Material.VertexShading | source/Material.h:40 | the inherited vertex stage leaves the output list as it was |
| Materials.Material.PixelShading | source/Material.h:41 | the inherited pixel stage returns black |
| ShadingMaterials.ShadingFromOrdinal | source/MaterialShading.h:55-64 | the shading mode built from an ordinal 0..3 has that ordinal |
| ShadingMaterials.ShadingOrdinalInverse | source/MaterialShading.h:55-64 | every shading mode is found again from its ordinal, so the enum and its ordinals are inverse |
| ShadingMaterials.NextShadingMode | source/MaterialShading.cpp:187 | the mode ordinal advances by one modulo four |
| ShadingMaterials.CycleShadingPeriod | source/MaterialShading.cpp:187 | four calls of `CycleShading` bring the mode back to where it was |
| ShadingMaterials.FirstCycleFromDefault | source/MaterialShading.cpp:187-192 | from the default Combined mode the first cycle reaches ObservedArea and reports "OBSERVED_AREA" |
| ShadingMaterials.TransformVertex | source/MaterialShading.cpp:114-127 | x, y and z times the kept w give back the clip-space position; uv is copied; normal, tangent and world position are the world transforms of the input's |
| ShadingMaterials.DecodeNormalSample | source/MaterialShading.cpp:151-152 | the decoding 2c - 1 is undone by (n + 1) / 2, and maps channels in [0, 1] to components in [-1, 1] |
| ShadingMaterials.ShadingNormal | source/MaterialShading.cpp:142-155 | with normal mapping off the interpolated normal; with it on, the normal-map sample decoded to [-1, 1] and taken through the tangent-space basis (tangent, normal x tangent, normal) |
| ShadingMaterials.Shade | source/MaterialShading.cpp:134-183 | the software pixel stage: a fragment facing away from the light is pure ambient, and ObservedArea mode gives a gray never below the ambient. The lemmas below add that back-facing needs no texture but the normal map, that ObservedArea is ambient plus the cosine and reads no texture without normal mapping, and that Combined is the Diffuse colour plus the Specular colour minus one ambient |
| ShadingMaterials.BackFacingIsAmbient | source/MaterialShading.cpp:158-182 | a fragment whose normal faces away from the light gets only the ambient 0.025, in every mode, and needs no texture but the normal map |
| ShadingMaterials.ObservedAreaIsCosine | source/MaterialShading.cpp:158-165 | in ObservedArea mode a lit fragment is 0.025 plus the cosine term in each channel |
| ShadingMaterials.CombinedIsDiffusePlusSpecular | source/MaterialShading.cpp:167-178 | the Combined colour is the Diffuse colour plus the Specular colour minus one ambient, and whatever Combined can sample, the two single modes can too |
| ShadingMaterials.NormalMapOffKeepsNormal | source/MaterialShading.cpp:142-155 | with normal mapping off the interpolated normal is used unchanged |
| ShadingMaterials.ObservedAreaIgnoresTextures | source/MaterialShading.cpp:142-165 | ObservedArea mode without normal mapping can always shade, and its colour does not depend on the bound textures |
| ShadingMaterials.ShadingMaterial.constructor | source/MaterialShading.h:47-65 | a shaded material starts in Combined mode with normal mapping on, no texture bound, and zero world, inverse-view and inherited world-view-projection matrices |
| ShadingMaterials.ShadingMaterial.SetMatrix | source/MaterialShading.cpp:70-82 | "WorldViewProj" goes to the base material, "World" to the world matrix, "InvView" to the inverse view; nothing else changes |
| ShadingMaterials.ShadingMaterial.SetTexture | source/MaterialShading.cpp:84-104 | each of the four names binds its own slot only; a missing texture, a missing shader variable or an unknown name leaves all slots as they were |
| ShadingMaterials.ShadingMaterial.SetDiffuse | source/MaterialShading.cpp:236-245 | a present texture is bound when the shader variable exists; the other slots are kept |
| ShadingMaterials.ShadingMaterial.SetNormal | source/MaterialShading.cpp:247-256 | as SetDiffuse, for the normal map |
| ShadingMaterials.ShadingMaterial.SetSpecular | source/MaterialShading.cpp:258-267 | as SetDiffuse, for the specular map |
| ShadingMaterials.ShadingMaterial.SetGlossiness | source/MaterialShading.cpp:269-278 | as SetDiffuse, for the gloss map |
| ShadingMaterials.ShadingMaterial.VertexShading | source/MaterialShading.cpp:106-132 | the output has one vertex per input vertex, in order, each as `TransformVertex` gives it |
| ShadingMaterials.ShadingMaterial.PixelShading | source/MaterialShading.cpp:134-183 | the fragment's colour under the current mode, switch and textures; pure ambient when the normal faces away from the light |
| ShadingMaterials.ShadingMaterial.CycleShading | source/MaterialShading.cpp:185-205 | the mode advances by one, wrapping, and its label is returned; switch, textures and matrices are kept |
| ShadingMaterials.ShadingMaterial.ToggleNormalMap | source/MaterialShading.cpp:207-210 | the normal-map switch flips and its new value is returned; mode, textures and matrices are kept |
| TransparencyMaterials.BindDiffuse | source/MaterialTransparency.cpp:42-51 | the slot changes only for the name "Diffuse", a present texture and a present shader variable, and then only to that texture |
| TransparencyMaterials.BindDiffuseIdempotent | source/MaterialTransparency.cpp:42-51 | binding the same texture twice is binding it once |
| TransparencyMaterials.BindDiffuseLastWins | source/MaterialTransparency.cpp:46-50 | a successful binding replaces whatever was bound before |
| TransparencyMaterials.TransparencyMaterial.constructor | source/MaterialTransparency.cpp:14-21 | a transparency material starts on the point technique with no diffuse texture |
| TransparencyMaterials.TransparencyMaterial.SetTexture | source/MaterialTransparency.cpp:38-52 | the diffuse slot becomes what `BindDiffuse` gives |
| Meshes.ToByte | source/Mesh.cpp:274-277 | a channel in [0, 1] becomes the byte floor(c * 255); at or beyond the ends it becomes 0 or 255 |
| Meshes.FrustumCulling | source/Mesh.cpp:291-298 | a vertex is culled exactly when it leaves [-1, 1] x [-1, 1] x [0, 1] |
| Meshes.NDCToRaster | source/Mesh.cpp:283-289 | z, w and every attribute are kept; an unculled vertex lands in [0, width] x [0, height] |
| Meshes.NDCToRasterInverse | source/Mesh.cpp:283-289 | the raster mapping is undone by x = 2 rx / width - 1 and y = 1 - 2 ry / height |
| Meshes.Remap | source/Mesh.cpp:300-306 | the new value times (max - min) is value - min, and the result flag is true exactly when the new value lies in [0, 1] |
| Meshes.RemapInRange | source/Mesh.cpp:300-306 | a value inside [min, max] is always reported in range |
| Meshes.DepthGray | source/Mesh.cpp:239-245 | the depth view's gray level lies in [0, 1]; it is 0 up to 0.995 and 1 from 1 on, and linear between |
| Meshes.RasterLayout | source/Mesh.cpp:173-195 | the raster vertices, edges v1->v2, v2->v0 and v0->v1 summing to zero, the area as the cross product of the first two, and the box of truncated minima and ceiled maxima clamped into the buffer |
| Meshes.SetupTriangle | source/Mesh.cpp:170-195 | a triangle is dropped exactly when a vertex is culled or its area is below 0.001; a kept one has its raster layout, and with positive depths it is drawable |
| Meshes.Weights | source/Mesh.cpp:212-223 | the three edge-function weights of a pixel always add up to one |
| Meshes.EdgeFunctionsSum | source/Mesh.cpp:216-223 | the three edge functions add up to the signed area wherever the pixel lies |
| Meshes.InterpolatedDepth | source/Mesh.cpp:225-228 | for a covered pixel the interpolated depth lies in (0, 1], so the range test after it never rejects a pixel |
| Meshes.OverClipW | source/Mesh.cpp:251-254 | weights divided by positive clip w stay non-negative and their sum stays positive |
| Meshes.CorrectedWeightsSumToOne | source/Mesh.cpp:251-257 | the perspective-corrected weights, scaled by the corrected depth, add up to one |
| Meshes.Fragment | source/Mesh.cpp:249-266 | the fragment sits at the pixel's corner with the default colour; a uv or world position shared by all three vertices is passed on unchanged; the world position uses the uncorrected weights |
| Meshes.ShadePixel | source/Mesh.cpp:202-277 | box mode paints white and keeps the depth; otherwise the depth never rises, falls exactly when the pixel is covered and nearer, and then becomes the interpolated depth in (0, 1] together with the depth view's gray or the pixel stage's colour; a pixel that is not written keeps its colour |
| Meshes.DrawTriangle | source/Mesh.cpp:164-281 | one triangle drawn into the buffers, which keep their size; what it changes is stated by the three `DrawTriangle…` lemmas below |
| Meshes.Triangles | source/Mesh.cpp:110-116 | an index list gives count / 3 triangles, the t-th made of the vertices named by indices 3t, 3t+1 and 3t+2 |
| Meshes.Cleared | source/Mesh.cpp:102-103 | at the start of the loop every depth is `FLT_MAX` and every colour is what the back buffer held |
| Meshes.DrawTriangleDepth | source/Mesh.cpp:230-234 | a triangle never raises a depth and writes only depths in (0, 1]; in box mode it changes no depth, otherwise it changes a colour only together with its depth |
| Meshes.DrawTriangleOutsideBox | source/Mesh.cpp:192-200 | a dropped triangle changes nothing; a kept one changes nothing outside its box, and never the last column or the last row |
| Meshes.DrawTriangleBoundingBox | source/Mesh.cpp:202-210 | in box mode every pixel of a kept triangle's box turns white and keeps its depth |
| Meshes.DepthTest | source/Mesh.cpp:230-234 | a candidate depth replaces the stored pixel only when it is present and strictly nearer; the depth never rises |
| Meshes.DepthTestCommutes | source/Mesh.cpp:230-234 | two candidates at different depths, or with one missing, give the same pixel in either order |
| Meshes.DepthTestTieFirstWins | source/Mesh.cpp:231 | of two candidates at the same depth the first stays, because the test is strict |
| Meshes.OfferedDepth | source/Mesh.cpp:212-228 | the depth a triangle offers a pixel of its box that the edge functions cover lies in (0, 1] |
| Meshes.DrawTrianglePixel | source/Mesh.cpp:202-277 | outside box mode, drawing a triangle is the depth test of its offered depth and colour at every pixel |
| Meshes.DrawTrianglesCommute | source/Mesh.cpp:202-277 | outside box mode, a pixel that two triangles do not both cover at one and the same depth ends the same whichever triangle is drawn first |
| Meshes.DrawTrianglesTieFirstWins | source/Mesh.cpp:230-234 | where two triangles cover a pixel at the same depth, drawing the second one afterwards leaves that pixel as the first one left it |
| Meshes.RenderTrianglesDepth | source/Mesh.cpp:109-117 | over a whole index list no depth rises, and each either keeps its start value or holds a depth in (0, 1] |
| Meshes.RenderTrianglesBoundingBoxKeepsDepth | source/Mesh.cpp:202-210 | in box mode a whole frame leaves the depth buffer as it was |
| Meshes.RenderTrianglesKeepLastColumnAndRow | source/Mesh.cpp:194-200 | the last raster column and row are never drawn, whatever the triangles |
| Meshes.FrameDepthValues | source/Mesh.cpp:100-117 | after a frame every depth is `FLT_MAX` or a depth in (0, 1] |
| Meshes.CounterClockwiseNdcTriangleIsDropped | source/Mesh.cpp:178-184 | the triangle (-1, -1), (1, -1), (0, 1) turns clockwise under the y-flip, has area -100 on a 10 x 10 buffer and is dropped |
| Meshes.ClockwiseNdcTriangleBox | source/Mesh.cpp:186-195 | the same triangle wound the other way is kept with area 100, and its box is clamped to [0, 9) x [0, 9) |
| Meshes.IndexLoopBound | source/Mesh.cpp:110 | the loop bound `m_Indices.size() - 2` as an unsigned 64-bit value: congruent to count - 2 and never negative |
| Meshes.IndexLoopBoundFromTwo | source/Mesh.cpp:110-116 | for two or more indices the unsigned test i < count - 2 is the guard i + 2 < count |
| Meshes.IndexLoopBoundWrapsBelowTwo | source/Mesh.cpp:110-116 | for fewer than two indices the bound wraps to 2^64 - 2 + count, so the loop reads past the list |
| Meshes.Mesh.constructor | source/Mesh.cpp:16-24 | a mesh draws into the given back buffer, owns a depth buffer of the same size, and starts with both debug views off |
| Meshes.Mesh.ToggleDepthBuffer | source/Mesh.cpp:120-123 | the depth view flips and its new value is returned |
| Meshes.Mesh.ToggleBoundingBox | source/Mesh.cpp:125-128 | the box view flips and its new value is returned |
| Meshes.Mesh.RenderPixel | source/Mesh.cpp:202-277 | one visited pixel changes only its own entry of each buffer, to what `ShadePixel` gives |
| Meshes.Mesh.RenderBox | source/Mesh.cpp:197-280 | the pixel loops leave the buffers as `DrawBox` gives them |
| Meshes.Mesh.RenderColumn | source/Mesh.cpp:200-279 | the row loop of one column shades exactly that column's rows of the box, so the loops then stand at the top of the next column |
| Meshes.Mesh.RenderTriangle | source/Mesh.cpp:164-281 | the buffers end as `DrawTriangle` gives them |
| Meshes.Mesh.ResetDepth | source/Mesh.cpp:103 | every depth becomes `FLT_MAX`; the colours are kept |
| Meshes.Mesh.RenderIndexed | source/Mesh.cpp:109-117 | walking the index list in triples draws the triangles of `Triangles` one after the other, leaving the buffers as `RenderTriangles` gives them |
| Meshes.Mesh.RenderSoftware | source/Mesh.cpp:100-118 | the buffers end as `RenderTriangles` gives them, for the triangles of the index list, starting from the cleared depth buffer |

## Left out

- Direct3D: the hardware render path, effect loading, technique and variable lookups, vertex, index and input-layout buffers, and uploading matrices and textures to the GPU. A technique is an optional handle and a shader variable is a boolean "present".
- The Material constructor uses `m_pTechnique` to build the input layout before assigning it (source/Material.cpp:25 against line 53). This is Direct3D plumbing and is not modelled.
- SDL: packing a colour into the back buffer (`SDL_MapRGB`) and unpacking a texture pixel (`SDL_GetRGB`). Buffers and images hold three bytes per pixel.
- OBJ parsing, mesh transforms (`Translate`, `Rotate`, `Scale` and the setters), the camera, the renderer and the main loop.
- Matrix transforms, normalisation and the two BRDFs: their bodies are not part of this model and are passed in as `MathLib`.
- `ColorRGB::MaxToOne`: its body is not in this repository. It is modelled as dividing all channels by the largest one when that exceeds one (`Geometry.MaxToOne`, `Geometry.ScaledToMax`).
- `Vector2::Cross`, `Vector3::Cross`, the `Vector3` dot product and `Clamp`: their bodies are not in this repository either. They are taken to be the standard formulas (`Geometry.Cross2`, `Geometry.Cross3`, `Geometry.Dot3`, `Geometry.Clamp`). The sign convention of `Cross2` (a.x * b.y - a.y * b.x) decides which winding survives the area test, so `Meshes.CounterClockwiseNdcTriangleIsDropped` and `Meshes.ClockwiseNdcTriangleBox` rest on it.
- Floating point: rounding, infinities and NaN. Reals are exact.
- Meshes.Mesh.RenderTriangle: requires every unculled vertex to have a positive depth z and a positive clip w. The perspective projection gives every vertex in front of the camera a positive w, and the model assumes it; a zero z or w would give infinities or NaN in the source. A negative w would give finite but sign-flipped perspective weights, which the model does not describe.
- Meshes.Mesh.RenderSoftware: requires the same of every vertex the vertex stage produces.
- ShadingMaterials.ShadingMaterial.VertexShading: requires a non-zero clip-space w for every vertex. The source divides by it.
- Meshes.Mesh.RenderSoftware: also requires that every index names a vertex of the vertex stage's output. The base material's vertex stage produces no vertices, so the software path is only meaningful with the shaded material. The source reads out of bounds otherwise.
- ShadingMaterials.ShadingMaterial.PixelShading: requires the textures it samples to be bound and to cover the uv. The source dereferences them unchecked and does no bounds check; see `Textures.SampleAtOneOverruns`.
- Meshes.ToByte: a negative channel is cast to 0. A negative float cast to `uint8_t` is undefined in C++.
- The mesh's fresh depth buffer is uninitialised in the source, and its contents are arbitrary here too (`Meshes.Mesh.constructor` promises only its size). Every frame resets it with `Meshes.Mesh.ResetDepth` before reading it.
- The `Matrix{}` default is taken to be the zero matrix.
- Console messages on failed lookups are not modelled.

## Findings

| source | as written | input that shows it | evidently intended | confidence | as-written member | corrected member |
|---|---|---|---|---|---|---|
| source/Mesh.cpp:110 | the triangle loop runs while `i < m_Indices.size() - 2`, an unsigned subtraction | an index list with 0 or 1 entries: the bound wraps to 2^64 - 2 or 2^64 - 1, and the first iteration reads `m_Indices[0..2]` past the end | loop while i + 2 < count, which is the same for two or more indices and draws nothing otherwise | high (not executed) | Meshes.IndexLoopBoundWrapsBelowTwo | Meshes.Mesh.RenderIndexed |
