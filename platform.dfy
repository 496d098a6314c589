/** The `Platform` game object: three constructors that fix the Platform tag. */
module Platforms {
  import opened Vectors
  import opened GameObjects

  /** `Platform(position, scale, textureId = NO_TEXTURE)`: white, with the given texture. */
  function New(position: Vec2, scale: Vec2, textureId: GLuint := NO_TEXTURE): (g: GameObject)
    ensures g.PlatformObject? && Initialised(g.base, position, scale, GameObjectType.Platform)
    ensures g.base.colorMultiplier == White && g.base.textureId == textureId
  {
    PlatformObject(GameObjects.WithTexture(position, scale, GameObjectType.Platform, textureId))
  }

  /** `Platform(position, scale, colorMultiplier)`: the given colour, no texture. */
  function NewWithColor(position: Vec2, scale: Vec2, colorMultiplier: Vec4): (g: GameObject)
    ensures g.PlatformObject? && Initialised(g.base, position, scale, GameObjectType.Platform)
    ensures g.base.colorMultiplier == colorMultiplier && g.base.textureId == NO_TEXTURE
  {
    PlatformObject(GameObjects.WithColor(position, scale, GameObjectType.Platform, colorMultiplier))
  }

  /** `Platform(position, scale, colorMultiplier, textureId)`: both as given. */
  function NewWithColorAndTexture(position: Vec2, scale: Vec2, colorMultiplier: Vec4, textureId: GLuint): (g: GameObject)
    ensures g.PlatformObject? && Initialised(g.base, position, scale, GameObjectType.Platform)
    ensures g.base.colorMultiplier == colorMultiplier && g.base.textureId == textureId
  {
    PlatformObject(GameObjects.WithColorAndTexture(position, scale, GameObjectType.Platform, colorMultiplier, textureId))
  }
}
