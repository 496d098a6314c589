/**
 * `DoodleGame`: the container that owns every game object, caches the
 * player's index, and ticks the world.
 */
module Doodle {
  import opened Vectors
  import opened GameObjects
  import Players
  import Platforms
  import opened Cameras

  /** The object at `index` exists and is a Player object (what `dynamic_cast<Player*>` needs). */
  predicate PlayerAt(objects: seq<GameObject>, index: int)
  {
    0 <= index < |objects| && objects[index].PlayerObject?
  }

  /** The world the constructor builds: a Player, then two Platforms. */
  function InitialWorld(playerTextureId: GLuint): (w: seq<GameObject>)
    ensures |w| == 3 && PlayerAt(w, 0) && w[1].PlatformObject? && w[2].PlatformObject?
    ensures w[0].base.position == Vec2(0.0, 0.0) && w[0].base.scale == Vec2(200.0, 200.0)
    ensures w[0].base.textureId == playerTextureId && w[0].base.objectType == GameObjectType.Player
    ensures w[1].base.position == Vec2(-50.0, 100.0) && w[1].base.scale == Vec2(200.0, 50.0)
    ensures w[1].base.colorMultiplier == Vec4(0.1, 0.8, 0.9, 1.0) && w[1].base.textureId == NO_TEXTURE
    ensures w[2].base.position == Vec2(50.0, 300.0) && w[2].base.scale == Vec2(220.0, 50.0)
    ensures w[2].base.colorMultiplier == White && w[2].base.textureId == NO_TEXTURE
    ensures forall g | g in w :: g.base.rotation == 0.0
  {
    [ Players.New(Vec2(0.0, 0.0), Vec2(200.0, 200.0), playerTextureId),
      Platforms.NewWithColor(Vec2(-50.0, 100.0), Vec2(200.0, 50.0), Vec4(0.1, 0.8, 0.9, 1.0)),
      Platforms.New(Vec2(50.0, 300.0), Vec2(220.0, 50.0)) ]
  }

  /** One object after a tick's spin. */
  function Rotated(g: GameObject, delta: real): GameObject
  {
    g.(base := g.base.(rotation := g.base.rotation + delta))
  }

  /** Every object of the list spun by `delta`, in place and in order. */
  function Spin(objects: seq<GameObject>, delta: real): seq<GameObject>
  {
    seq(|objects|, i requires 0 <= i < |objects| => Rotated(objects[i], delta))
  }

  /** A spin changes each object's rotation by exactly `delta` and nothing else: not the count, the order, the class or any other field. */
  lemma SpinOnlyRotates(objects: seq<GameObject>, delta: real, i: int)
    requires 0 <= i < |objects|
    ensures |Spin(objects, delta)| == |objects|
    ensures Spin(objects, delta)[i].base.rotation == objects[i].base.rotation + delta
    ensures Spin(objects, delta)[i].(base := objects[i].base) == objects[i]
    ensures Spin(objects, delta)[i].base.(rotation := objects[i].base.rotation) == objects[i].base
  {
  }

  /** A spin keeps the Player exactly where it was. */
  lemma SpinKeepsPlayer(objects: seq<GameObject>, delta: real, index: int)
    ensures PlayerAt(Spin(objects, delta), index) <==> PlayerAt(objects, index)
  {
  }

  /** Two spins are one spin by the sum: each tick adds its own amount once. */
  lemma SpinTwice(objects: seq<GameObject>, a: real, b: real)
    ensures Spin(Spin(objects, a), b) == Spin(objects, a + b)
  {
    var l, r := Spin(Spin(objects, a), b), Spin(objects, a + b);
    assert |l| == |r|;
    forall i | 0 <= i < |l| ensures l[i] == r[i] {
      assert Spin(objects, a)[i] == Rotated(objects[i], a);
    }
  }

  /** The sum of a sequence of frame times. */
  function Total(dts: seq<real>): real
  {
    if dts == [] then 0.0 else dts[0] + Total(dts[1..])
  }

  /** The camera height after one update per frame time in `dts`, starting from `y`. */
  function CameraYAfter(y: real, dts: seq<real>): real
    decreases |dts|
  {
    if dts == [] then y else CameraYAfter(y + dts[0] * 10.0, dts[1..])
  }

  /** The object list after one update per frame time in `dts`. */
  function ObjectsAfter(objects: seq<GameObject>, dts: seq<real>): seq<GameObject>
    decreases |dts|
  {
    if dts == [] then objects else ObjectsAfter(Spin(objects, 100.0 * dts[0]), dts[1..])
  }

  /** With non-negative frame times, repeated updates never lower the camera, and raise it by exactly 10 times the elapsed time. */
  lemma {:induction false} CameraNeverDescends(y: real, dts: seq<real>)
    requires forall i | 0 <= i < |dts| :: dts[i] >= 0.0
    ensures CameraYAfter(y, dts) == y + 10.0 * Total(dts)
    ensures CameraYAfter(y, dts) >= y
    decreases |dts|
  {
    if dts != [] {
      CameraNeverDescends(y + dts[0] * 10.0, dts[1..]);
      TotalNonNegative(dts[1..]);
    }
  }

  lemma {:induction false} TotalNonNegative(dts: seq<real>)
    requires forall i | 0 <= i < |dts| :: dts[i] >= 0.0
    ensures Total(dts) >= 0.0
  {
    if dts != [] {
      TotalNonNegative(dts[1..]);
    }
  }

  /** Repeated updates spin every object by 100 times the elapsed time, and keep the Player in place. */
  lemma {:induction false} UpdatesAccumulate(objects: seq<GameObject>, dts: seq<real>, index: int)
    ensures ObjectsAfter(objects, dts) == Spin(objects, 100.0 * Total(dts))
    ensures PlayerAt(ObjectsAfter(objects, dts), index) <==> PlayerAt(objects, index)
    decreases |dts|
  {
    if dts == [] {
      assert Spin(objects, 0.0) == objects;
    } else {
      UpdatesAccumulate(Spin(objects, 100.0 * dts[0]), dts[1..], index);
      SpinTwice(objects, 100.0 * dts[0], 100.0 * Total(dts[1..]));
      SpinKeepsPlayer(objects, 100.0 * dts[0], index);
    }
  }

  class DoodleGame {
    var gameObjects: seq<GameObject>
    var playerIndex: int
    /** The renderer's camera, shared by reference. */
    const camera: Camera

    /** `gameObjects[playerIndex]` is the Player. */
    ghost predicate Valid()
      reads this
    {
      PlayerAt(gameObjects, playerIndex)
    }

    /** Builds the fixed initial world; `playerTextureId` is what the renderer returned for "android_robot.png". */
    constructor (camera: Camera, playerTextureId: GLuint)
      ensures Valid() && this.camera == camera
      ensures gameObjects == InitialWorld(playerTextureId) && playerIndex == 0
    {
      this.camera := camera;
      gameObjects := [];
      new;
      playerIndex := |gameObjects|;
      gameObjects := gameObjects + [Players.New(Vec2(0.0, 0.0), Vec2(200.0, 200.0), playerTextureId)];
      gameObjects := gameObjects + [Platforms.NewWithColor(Vec2(-50.0, 100.0), Vec2(200.0, 50.0), Vec4(0.1, 0.8, 0.9, 1.0))];
      gameObjects := gameObjects + [Platforms.New(Vec2(50.0, 300.0), Vec2(220.0, 50.0))];
    }

    /** The Player; the source requires that one is at `playerIndex`. */
    function GetPlayer(): (p: GameObject)
      reads this
      requires Valid()
      ensures p == gameObjects[playerIndex] && p.PlayerObject?
    {
      gameObjects[playerIndex]
    }

    /** The stored objects, in storage order. */
    function GetGameObjects(): (objects: seq<GameObject>)
      reads this
      ensures Valid() ==> PlayerAt(objects, playerIndex)
    {
      gameObjects
    }

    /** One tick: scroll the camera up by 10 dt and spin every object by 100 dt. */
    method Update(deltaTime: real)
      modifies this, camera
      ensures camera.position == Vec2(old(camera.position.x), old(camera.position.y) + deltaTime * 10.0)
      ensures camera.scale == old(camera.scale)
      ensures gameObjects == Spin(old(gameObjects), 100.0 * deltaTime)
      ensures playerIndex == old(playerIndex)
      ensures old(Valid()) ==> Valid()
    {
      camera.position := camera.position.(y := camera.position.y + deltaTime * 10.0);

      var i := 0;
      while i < |gameObjects|
        invariant 0 <= i <= |gameObjects| == |old(gameObjects)|
        invariant forall k | 0 <= k < i :: gameObjects[k] == Rotated(old(gameObjects)[k], 100.0 * deltaTime)
        invariant forall k | i <= k < |gameObjects| :: gameObjects[k] == old(gameObjects)[k]
        invariant playerIndex == old(playerIndex)
        invariant camera.position == Vec2(old(camera.position.x), old(camera.position.y) + deltaTime * 10.0)
        invariant camera.scale == old(camera.scale)
      {
        gameObjects := gameObjects[i := Rotated(gameObjects[i], 100.0 * deltaTime)];
        i := i + 1;
      }
      SpinKeepsPlayer(old(gameObjects), 100.0 * deltaTime, playerIndex);
    }
  }
}
