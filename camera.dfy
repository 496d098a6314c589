/** The camera and the viewport rectangle its orthographic projection is built from. */
module Cameras {
  import opened Vectors

  /**
   * The camera: the world point at the viewport centre and the viewport size.
   * The renderer owns it and the game holds a reference to the same object.
   */
  class Camera {
    var position: Vec2
    var scale: Vec2

    /** The source leaves both vectors to their default initialisation; here they are given. */
    constructor (position: Vec2, scale: Vec2)
      ensures this.position == position && this.scale == scale
    {
      this.position := position;
      this.scale := scale;
    }
  }

  /** The six arguments of `glm::ortho`: left, right, bottom, top, near, far. */
  datatype Ortho = Ortho(left: real, right: real, bottom: real, top: real, near: real, far: real)

  /**
   * `Camera::getViewProjection`, as the rectangle it passes to `glm::ortho`:
   * spans scale.x by scale.y, is centred on position, and has fixed depth [-1, 1].
   */
  function ViewProjection(position: Vec2, scale: Vec2): (o: Ortho)
    ensures o.right - o.left == scale.x && o.top - o.bottom == scale.y
    ensures (o.left + o.right) / 2.0 == position.x && (o.bottom + o.top) / 2.0 == position.y
    ensures o.near == -1.0 && o.far == 1.0
  {
    Ortho(position.x - scale.x / 2.0, position.x + scale.x / 2.0,
          position.y - scale.y / 2.0, position.y + scale.y / 2.0, -1.0, 1.0)
  }

  /** A non-negative scale gives a well-ordered rectangle that contains the camera position. */
  lemma ViewProjectionOrdered(position: Vec2, scale: Vec2)
    requires scale.x >= 0.0 && scale.y >= 0.0
    ensures ViewProjection(position, scale).left <= position.x <= ViewProjection(position, scale).right
    ensures ViewProjection(position, scale).bottom <= position.y <= ViewProjection(position, scale).top
  {
  }

  /** Moving the camera shifts every bound by the same amount and leaves the size alone. */
  lemma ViewProjectionTranslates(position: Vec2, scale: Vec2, dx: real, dy: real)
    ensures var o, o' := ViewProjection(position, scale), ViewProjection(Vec2(position.x + dx, position.y + dy), scale);
      o'.left == o.left + dx && o'.right == o.right + dx && o'.bottom == o.bottom + dy && o'.top == o.top + dy
  {
  }
}
