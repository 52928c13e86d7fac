/**
 * The two vertex records of the renderer: the mesh's object-space vertex and
 * the vertex stage's output, which keeps the clip-space w next to the
 * divided x, y, z for perspective-correct interpolation.
 */
module Vertices {
  import opened Geometry

  datatype Vertex = Vertex(
    position: Vector3,
    uv: Vector2,
    normal: Vector3,
    tangent: Vector3,
    color: ColorRGB)

  datatype VertexOut = VertexOut(
    position: Vector4,
    uv: Vector2,
    normal: Vector3,
    tangent: Vector3,
    color: ColorRGB,
    worldPosition: Vector3)
}
