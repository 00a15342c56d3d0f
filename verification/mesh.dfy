/** The older model record (src/mesh.ts), which the scene and the cube
    builder still use: a triangle list with a rotation, a translation, an RGB
    colour and an optional texture. */
module Meshes {
  import opened Numerics
  import opened Vectors
  import opened Triangles
  import opened Colors

  datatype Model = Model(tris: seq<Tri>, rotation: Vec3, translation: Vec3, color: RGB, texture: Option<Texture>)

  /** `new Model(tris)`: the list is stored as given (not copied); rotation and
      translation (0, 0, 0), colour (255, 255, 255), no texture. */
  function NewModel(tris: seq<Tri>): (r: Model)
    ensures r.tris == tris
    ensures r.rotation == Point(0.0, 0.0, 0.0) && r.translation == Point(0.0, 0.0, 0.0)
    ensures r.color == RGB(255.0, 255.0, 255.0) && r.texture == None
  {
    Model(tris, Point(0.0, 0.0, 0.0), Point(0.0, 0.0, 0.0), DefaultRGB, None)
  }
}
