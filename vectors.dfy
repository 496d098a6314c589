/** The glm vector values the game uses, with floats modelled as reals. */
module Vectors {

  /** glm::vec2: a position, a size or a velocity. */
  datatype Vec2 = Vec2(x: real, y: real)

  /** glm::vec4: an RGBA colour multiplier. */
  datatype Vec4 = Vec4(r: real, g: real, b: real, a: real)

  /** The value-initialised vector `glm::vec2{}`. */
  const Zero: Vec2 := Vec2(0.0, 0.0)

  /** Opaque white, the default colour multiplier. */
  const White: Vec4 := Vec4(1.0, 1.0, 1.0, 1.0)
}
