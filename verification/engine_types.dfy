/** Value types of the host engine that the plugin's core logic passes around.
    Single-precision floats of the engine are modelled as exact reals. */
module EngineTypes {

  /** A two-component integer vector (the engine's `Int2`): a size or a position in pixels. */
  datatype Int2 = Int2(x: int, y: int)

  /** A two-component float vector (the engine's `Float2`). */
  datatype Float2 = Float2(x: real, y: real)

  /** A four-component float vector (the engine's `Float4`). */
  datatype Float4 = Float4(x: real, y: real, z: real, w: real)

  /** An RGBA colour (the engine's `Color`). */
  datatype Color = Color(r: real, g: real, b: real, a: real)

  /** A rendering viewport. The engine stores its fields as floats; every value the plugin
      builds is the floor of something, so the fields are whole numbers here. */
  datatype Viewport = Viewport(x: int, y: int, width: int, height: int)

  /** Both components strictly positive: a size the fitting arithmetic may divide by. */
  predicate IsPositive(size: Int2) {
    size.x > 0 && size.y > 0
  }
}
