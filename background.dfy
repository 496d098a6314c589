/** The `Background` game object: three constructors that fix the Environment tag. */
module Backgrounds {
  import opened Vectors
  import opened GameObjects

  /** `Background(position, scale, textureId = NO_TEXTURE)`: white, with the given texture. */
  function New(position: Vec2, scale: Vec2, textureId: GLuint := NO_TEXTURE): (g: GameObject)
    ensures g.BackgroundObject? && Initialised(g.base, position, scale, GameObjectType.Environment)
    ensures g.base.colorMultiplier == White && g.base.textureId == textureId
  {
    BackgroundObject(GameObjects.WithTexture(position, scale, GameObjectType.Environment, textureId))
  }

  /** `Background(position, scale, colorMultiplier)`: the given colour, no texture. */
  function NewWithColor(position: Vec2, scale: Vec2, colorMultiplier: Vec4): (g: GameObject)
    ensures g.BackgroundObject? && Initialised(g.base, position, scale, GameObjectType.Environment)
    ensures g.base.colorMultiplier == colorMultiplier && g.base.textureId == NO_TEXTURE
  {
    BackgroundObject(GameObjects.WithColor(position, scale, GameObjectType.Environment, colorMultiplier))
  }

  /** `Background(position, scale, colorMultiplier, textureId)`: both as given. */
  function NewWithColorAndTexture(position: Vec2, scale: Vec2, colorMultiplier: Vec4, textureId: GLuint): (g: GameObject)
    ensures g.BackgroundObject? && Initialised(g.base, position, scale, GameObjectType.Environment)
    ensures g.base.colorMultiplier == colorMultiplier && g.base.textureId == textureId
  {
    BackgroundObject(GameObjects.WithColorAndTexture(position, scale, GameObjectType.Environment, colorMultiplier, textureId))
  }
}
