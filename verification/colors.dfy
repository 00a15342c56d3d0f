/** Colour and material records (src/rgb.ts, src/rgba.ts, src/material.ts).
    They only hold values; every channel defaults to 255. */
module Colors {
  import opened Numerics

  datatype RGB = RGB(red: real, green: real, blue: real)

  datatype RGBA = RGBA(red: real, green: real, blue: real, alpha: real)

  /** `new RGB()` */
  const DefaultRGB: RGB := RGB(255.0, 255.0, 255.0)

  /** `new RGBA()` */
  const White: RGBA := RGBA(255.0, 255.0, 255.0, 255.0)

  /** A decoded texture image.  Decoding and sampling happen in the host; the
      model only needs to tell textures apart. */
  datatype Texture = Texture(id: nat)

  datatype Material = Material(
    texture: Option<Texture>, color: RGBA, wireframe: bool, wireframeWidth: real, wireframeColor: RGBA)

  /** `new Material()`: white, no wireframe, wireframe width 2, no texture. */
  const DefaultMaterial: Material := Material(None, White, false, 2.0, White)
}
