/**
 * The entity model: the abstract base `GameObject`, its type tag and the
 * texture sentinel, and the three base constructors.
 */
module GameObjects {
  import opened Vectors

  /** An OpenGL texture name: a 32-bit unsigned integer. */
  type GLuint = x: int | 0 <= x < 0x1_0000_0000

  /** The largest 32-bit unsigned value marks "no texture". */
  const NO_TEXTURE: GLuint := 0xFFFF_FFFF

  /** The type tag; the renderer draws one layer per tag. */
  datatype GameObjectType = Player | Platform | Environment

  /** The fields every game object has (the base-class part). */
  datatype Base = Base(
    position: Vec2,
    scale: Vec2,
    rotation: real,
    colorMultiplier: Vec4,
    textureId: GLuint,
    objectType: GameObjectType)

  /**
   * A game object together with its dynamic class. The class decides what a
   * downcast finds; the tag in `base` decides the render layer, and the two
   * need not agree.
   */
  datatype GameObject =
    | PlayerObject(base: Base, currentRotationTime: real, prevPos: Vec2, velocity: Vec2)
    | PlatformObject(base: Base)
    | BackgroundObject(base: Base)

  /** What every constructor guarantees: geometry and tag as passed, no rotation. */
  predicate Initialised(b: Base, position: Vec2, scale: Vec2, objectType: GameObjectType)
  {
    b.position == position && b.scale == scale && b.objectType == objectType && b.rotation == 0.0
  }

  /** `GameObject(position, scale, type, textureId)`: white, with the given texture. */
  function WithTexture(position: Vec2, scale: Vec2, objectType: GameObjectType, textureId: GLuint): (b: Base)
    ensures Initialised(b, position, scale, objectType)
    ensures b.colorMultiplier == White && b.textureId == textureId
  {
    Base(position, scale, 0.0, White, textureId, objectType)
  }

  /** `GameObject(position, scale, type, colorMultiplier)`: the given colour, no texture. */
  function WithColor(position: Vec2, scale: Vec2, objectType: GameObjectType, colorMultiplier: Vec4): (b: Base)
    ensures Initialised(b, position, scale, objectType)
    ensures b.colorMultiplier == colorMultiplier && b.textureId == NO_TEXTURE
  {
    Base(position, scale, 0.0, colorMultiplier, NO_TEXTURE, objectType)
  }

  /** `GameObject(position, scale, type, colorMultiplier, textureId)`: both as given. */
  function WithColorAndTexture(position: Vec2, scale: Vec2, objectType: GameObjectType,
                               colorMultiplier: Vec4, textureId: GLuint): (b: Base)
    ensures Initialised(b, position, scale, objectType)
    ensures b.colorMultiplier == colorMultiplier && b.textureId == textureId
  {
    Base(position, scale, 0.0, colorMultiplier, textureId, objectType)
  }

  /** NO_TEXTURE is the largest texture name, so no other name exceeds it. */
  lemma NoTextureIsMaximum(t: GLuint)
    ensures t <= NO_TEXTURE
  {
  }

  /** The texture-less constructor and the combined one agree when given NO_TEXTURE. */
  lemma ColorIsColorAndNoTexture(position: Vec2, scale: Vec2, objectType: GameObjectType, colorMultiplier: Vec4)
    ensures WithColor(position, scale, objectType, colorMultiplier)
         == WithColorAndTexture(position, scale, objectType, colorMultiplier, NO_TEXTURE)
  {
  }

  /** The texture-only constructor and the combined one agree when given white. */
  lemma TextureIsWhiteAndTexture(position: Vec2, scale: Vec2, objectType: GameObjectType, textureId: GLuint)
    ensures WithTexture(position, scale, objectType, textureId)
         == WithColorAndTexture(position, scale, objectType, White, textureId)
  {
  }
}
