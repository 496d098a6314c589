/** The `Player` game object: its constructors and its tuning constants. */
module Players {
  import opened Vectors
  import opened GameObjects

  /** A chance out of 100. */
  type Percent = x: int | 0 <= x <= 100

  /** Seconds a flip animation lasts. */
  const MaxRotationTime: real := 0.5
  /** Chance, out of 100, that a jump starts a flip. */
  const RotationChance: Percent := 60
  const MaxMovementSpeed: real := 2000.0
  const MovementAcceleration: real := 750.0
  const JumpVelocity: real := 1750.0

  /** What every new Player has beyond its base part: no flip running, zero previous position and velocity. */
  predicate FreshPlayerState(g: GameObject)
  {
    g.PlayerObject? && g.currentRotationTime == 0.0 && g.prevPos == Zero && g.velocity == Zero
  }

  /** `Player(position, scale, textureId = NO_TEXTURE)`: tagged Player, white. */
  function New(position: Vec2, scale: Vec2, textureId: GLuint := NO_TEXTURE): (g: GameObject)
    ensures FreshPlayerState(g)
    ensures Initialised(g.base, position, scale, GameObjectType.Player)
    ensures g.base.colorMultiplier == White && g.base.textureId == textureId
  {
    PlayerObject(GameObjects.WithTexture(position, scale, GameObjectType.Player, textureId), 0.0, Zero, Zero)
  }

  /** `Player(position, scale, colorMultiplier)`: a Player object, but tagged Platform; no texture. */
  function NewWithColor(position: Vec2, scale: Vec2, colorMultiplier: Vec4): (g: GameObject)
    ensures FreshPlayerState(g)
    ensures Initialised(g.base, position, scale, GameObjectType.Platform)
    ensures g.base.colorMultiplier == colorMultiplier && g.base.textureId == NO_TEXTURE
  {
    PlayerObject(GameObjects.WithColor(position, scale, GameObjectType.Platform, colorMultiplier), 0.0, Zero, Zero)
  }

  /** `Player(position, scale, colorMultiplier, textureId)`: a Player object, but tagged Platform. */
  function NewWithColorAndTexture(position: Vec2, scale: Vec2, colorMultiplier: Vec4, textureId: GLuint): (g: GameObject)
    ensures FreshPlayerState(g)
    ensures Initialised(g.base, position, scale, GameObjectType.Platform)
    ensures g.base.colorMultiplier == colorMultiplier && g.base.textureId == textureId
  {
    PlayerObject(GameObjects.WithColorAndTexture(position, scale, GameObjectType.Platform, colorMultiplier, textureId),
                 0.0, Zero, Zero)
  }

  /** Only the texture constructor tags a Player as Player: the two colour constructors put it in the Platform layer. */
  lemma OnlyTextureConstructorTagsPlayer(position: Vec2, scale: Vec2, colorMultiplier: Vec4, textureId: GLuint)
    ensures New(position, scale, textureId).base.objectType == GameObjectType.Player
    ensures NewWithColor(position, scale, colorMultiplier).base.objectType != GameObjectType.Player
    ensures NewWithColorAndTexture(position, scale, colorMultiplier, textureId).base.objectType != GameObjectType.Player
  {
  }
}
