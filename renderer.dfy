/**
 * The renderer's selection and bookkeeping rules: which objects are drawn,
 * in which order and with which texture; when a frame is skipped; when the
 * camera is resized; and how texture names are looked up and loaded.
 * EGL handles are reduced to whether they exist, and what EGL, GL and the
 * asset loader answer is given to each operation as an input.
 */
module Rendering {
  import opened Vectors
  import opened GameObjects
  import opened Cameras
  import Players
  import Platforms
  import Backgrounds
  import Doodle

  datatype Option<T> = None | Some(value: T)

  /** The texture bound for an object: its own, or the placeholder when it has none. */
  function BoundTexture(textureId: GLuint, placeholder: GLuint): (t: GLuint)
    ensures textureId != NO_TEXTURE ==> t == textureId
    ensures textureId == NO_TEXTURE ==> t == placeholder
    ensures placeholder != NO_TEXTURE ==> t != NO_TEXTURE
  {
    if textureId != NO_TEXTURE then textureId else placeholder
  }

  /** One recorded `glDrawArrays`: which stored object, with the texture bound and the uniforms set for it. */
  datatype Draw = Draw(index: nat, texture: GLuint, position: Vec2, rotation: real, scale: Vec2, colorMultiplier: Vec4)

  /** The draw issued for the object at `index`. */
  function DrawOf(objects: seq<GameObject>, index: nat, placeholder: GLuint): Draw
    requires index < |objects|
  {
    var b := objects[index].base;
    Draw(index, BoundTexture(b.textureId, placeholder), b.position, b.rotation, b.scale, b.colorMultiplier)
  }

  /** The draws one layer issues over the first `n` stored objects. */
  function LayerDraws(objects: seq<GameObject>, layer: GameObjectType, placeholder: GLuint, n: nat): seq<Draw>
    requires n <= |objects|
    decreases n
  {
    if n == 0 then []
    else LayerDraws(objects, layer, placeholder, n - 1)
         + (if objects[n - 1].base.objectType == layer then [DrawOf(objects, n - 1, placeholder)] else [])
  }

  /** Some draw refers to the object at `index`. */
  predicate IsDrawn(draws: seq<Draw>, index: int)
  {
    exists p :: 0 <= p < |draws| && draws[p].index == index
  }

  /** Every draw refers to one of the first `n` objects and is that object's own draw. */
  ghost predicate FaithfulDraws(objects: seq<GameObject>, placeholder: GLuint, n: nat, draws: seq<Draw>)
    requires n <= |objects|
  {
    forall p | 0 <= p < |draws| :: draws[p].index < n && draws[p] == DrawOf(objects, draws[p].index, placeholder)
  }

  /** Every draw refers to an object tagged `layer`. */
  ghost predicate OfLayer(objects: seq<GameObject>, layer: GameObjectType, draws: seq<Draw>)
  {
    forall p | 0 <= p < |draws| :: draws[p].index < |objects| && objects[draws[p].index].base.objectType == layer
  }

  /** Indices rise strictly: storage order, each object at most once. */
  ghost predicate InStorageOrder(draws: seq<Draw>)
  {
    forall p, q | 0 <= p < q < |draws| :: draws[p].index < draws[q].index
  }

  /** Every one of the first `n` objects tagged `layer` is drawn. */
  ghost predicate CoversLayer(objects: seq<GameObject>, layer: GameObjectType, n: nat, draws: seq<Draw>)
    requires n <= |objects|
  {
    forall i | 0 <= i < n && objects[i].base.objectType == layer :: IsDrawn(draws, i)
  }

  /** `draws` draws exactly the objects tagged `layer`, each once, in storage order. */
  ghost predicate DrawsExactlyLayer(objects: seq<GameObject>, layer: GameObjectType, placeholder: GLuint, draws: seq<Draw>)
  {
    FaithfulDraws(objects, placeholder, |objects|, draws) && OfLayer(objects, layer, draws)
    && InStorageOrder(draws) && CoversLayer(objects, layer, |objects|, draws)
  }

  /** The draws over `n + 1` objects are those over `n`, then the draw of object `n` if it has the tag. */
  lemma LayerDrawsStep(objects: seq<GameObject>, layer: GameObjectType, placeholder: GLuint, n: nat)
    requires n < |objects|
    ensures var prev, d := LayerDraws(objects, layer, placeholder, n), LayerDraws(objects, layer, placeholder, n + 1);
      (forall p | 0 <= p < |prev| :: d[p] == prev[p])
      && (objects[n].base.objectType == layer ==> |d| == |prev| + 1 && d[|prev|] == DrawOf(objects, n, placeholder))
      && (objects[n].base.objectType != layer ==> d == prev)
  {
  }

  lemma {:induction false} LayerDrawsFaithful(objects: seq<GameObject>, layer: GameObjectType, placeholder: GLuint, n: nat)
    requires n <= |objects|
    ensures var d := LayerDraws(objects, layer, placeholder, n);
      FaithfulDraws(objects, placeholder, n, d) && OfLayer(objects, layer, d)
    decreases n
  {
    if n > 0 {
      LayerDrawsFaithful(objects, layer, placeholder, n - 1);
      LayerDrawsStep(objects, layer, placeholder, n - 1);
    }
  }

  lemma {:induction false} LayerDrawsOrdered(objects: seq<GameObject>, layer: GameObjectType, placeholder: GLuint, n: nat)
    requires n <= |objects|
    ensures InStorageOrder(LayerDraws(objects, layer, placeholder, n))
    decreases n
  {
    if n > 0 {
      LayerDrawsOrdered(objects, layer, placeholder, n - 1);
      LayerDrawsFaithful(objects, layer, placeholder, n - 1);
      LayerDrawsStep(objects, layer, placeholder, n - 1);
    }
  }

  lemma {:induction false} LayerDrawsCovers(objects: seq<GameObject>, layer: GameObjectType, placeholder: GLuint, n: nat)
    requires n <= |objects|
    ensures CoversLayer(objects, layer, n, LayerDraws(objects, layer, placeholder, n))
    decreases n
  {
    if n > 0 {
      LayerDrawsCovers(objects, layer, placeholder, n - 1);
      LayerDrawsStep(objects, layer, placeholder, n - 1);
      var prev := LayerDraws(objects, layer, placeholder, n - 1);
      var d := LayerDraws(objects, layer, placeholder, n);
      forall i | 0 <= i < n && objects[i].base.objectType == layer
        ensures IsDrawn(d, i)
      {
        if i < n - 1 {
          var p :| 0 <= p < |prev| && prev[p].index == i;
          assert d[p].index == i;
        } else {
          assert d[|prev|].index == i;
        }
      }
    }
  }

  /** A layer's draws are exactly the objects with that tag, each once, in storage order, each with its own draw. */
  lemma LayerDrawsSelects(objects: seq<GameObject>, layer: GameObjectType, placeholder: GLuint)
    ensures DrawsExactlyLayer(objects, layer, placeholder, LayerDraws(objects, layer, placeholder, |objects|))
  {
    LayerDrawsFaithful(objects, layer, placeholder, |objects|);
    LayerDrawsOrdered(objects, layer, placeholder, |objects|);
    LayerDrawsCovers(objects, layer, placeholder, |objects|);
  }

  /** `Renderer::renderLayer(type)`: visit the objects in storage order and draw those tagged `layer`. */
  method RenderLayer(objects: seq<GameObject>, layer: GameObjectType, placeholder: GLuint) returns (draws: seq<Draw>)
    ensures draws == LayerDraws(objects, layer, placeholder, |objects|)
    ensures DrawsExactlyLayer(objects, layer, placeholder, draws)
  {
    draws := [];
    var i := 0;
    while i < |objects|
      invariant 0 <= i <= |objects|
      invariant draws == LayerDraws(objects, layer, placeholder, i)
    {
      if objects[i].base.objectType != layer {
        i := i + 1;
        continue;
      }
      draws := draws + [DrawOf(objects, i, placeholder)];
      i := i + 1;
    }
    LayerDrawsSelects(objects, layer, placeholder);
  }

  /** Position of a tag in the drawing order of `render`. */
  function Rank(t: GameObjectType): nat
  {
    match t
    case Environment => 0
    case Platform => 1
    case Player => 2
  }

  /** Draw `a` comes before draw `b` in a frame: a lower layer, or the same layer and an earlier stored object. */
  predicate Before(objects: seq<GameObject>, a: Draw, b: Draw)
  {
    a.index < |objects| && b.index < |objects|
    && var ra, rb := Rank(objects[a.index].base.objectType), Rank(objects[b.index].base.objectType);
       ra < rb || (ra == rb && a.index < b.index)
  }

  /** The draws are strictly ordered by layer, then by storage order. */
  ghost predicate LayeredOrder(objects: seq<GameObject>, draws: seq<Draw>)
  {
    forall p, q | 0 <= p < q < |draws| :: Before(objects, draws[p], draws[q])
  }

  /** The draws of one full frame: the Environment layer, then Platform, then Player. */
  function FrameDraws(objects: seq<GameObject>, placeholder: GLuint): seq<Draw>
  {
    LayerDraws(objects, GameObjectType.Environment, placeholder, |objects|)
    + LayerDraws(objects, GameObjectType.Platform, placeholder, |objects|)
    + LayerDraws(objects, GameObjectType.Player, placeholder, |objects|)
  }

  /** Every draw refers to a stored object whose layer ranks below `r`. */
  ghost predicate RanksBelow(objects: seq<GameObject>, draws: seq<Draw>, r: nat)
  {
    forall p | 0 <= p < |draws| :: draws[p].index < |objects| && Rank(objects[draws[p].index].base.objectType) < r
  }

  lemma LayerRanksBelow(objects: seq<GameObject>, draws: seq<Draw>, layer: GameObjectType, r: nat)
    requires OfLayer(objects, layer, draws) && Rank(layer) < r
    ensures RanksBelow(objects, draws, r)
  {
  }

  lemma RanksBelowAppend(objects: seq<GameObject>, a: seq<Draw>, b: seq<Draw>, r: nat)
    requires RanksBelow(objects, a, r) && RanksBelow(objects, b, r)
    ensures RanksBelow(objects, a + b, r)
  {
    forall p | 0 <= p < |a + b|
      ensures (a + b)[p].index < |objects| && Rank(objects[(a + b)[p].index].base.objectType) < r
    {
      if p < |a| { assert (a + b)[p] == a[p]; } else { assert (a + b)[p] == b[p - |a|]; }
    }
  }

  /** Appending a later layer to draws of earlier layers keeps the frame order. */
  lemma AppendLayer(objects: seq<GameObject>, a: seq<Draw>, b: seq<Draw>, layer: GameObjectType)
    requires LayeredOrder(objects, a) && OfLayer(objects, layer, b) && InStorageOrder(b)
    requires RanksBelow(objects, a, Rank(layer))
    ensures LayeredOrder(objects, a + b)
  {
    var c := a + b;
    forall p, q | 0 <= p < q < |c| ensures Before(objects, c[p], c[q]) {
      if q < |a| {
        assert c[p] == a[p] && c[q] == a[q];
      } else if p >= |a| {
        assert c[p] == b[p - |a|] && c[q] == b[q - |a|];
      } else {
        assert c[p] == a[p] && c[q] == b[q - |a|];
      }
    }
  }

  lemma FaithfulAppend(objects: seq<GameObject>, placeholder: GLuint, a: seq<Draw>, b: seq<Draw>)
    requires FaithfulDraws(objects, placeholder, |objects|, a) && FaithfulDraws(objects, placeholder, |objects|, b)
    ensures FaithfulDraws(objects, placeholder, |objects|, a + b)
  {
    forall p | 0 <= p < |a + b|
      ensures (a + b)[p].index < |objects| && (a + b)[p] == DrawOf(objects, (a + b)[p].index, placeholder)
    {
      if p < |a| { assert (a + b)[p] == a[p]; } else { assert (a + b)[p] == b[p - |a|]; }
    }
  }

  lemma DrawnInAppend(a: seq<Draw>, b: seq<Draw>, index: int)
    requires IsDrawn(a, index) || IsDrawn(b, index)
    ensures IsDrawn(a + b, index)
  {
    if IsDrawn(a, index) {
      var p :| 0 <= p < |a| && a[p].index == index;
      assert (a + b)[p] == a[p];
    } else {
      var p :| 0 <= p < |b| && b[p].index == index;
      assert (a + b)[|a| + p] == b[p];
    }
  }

  /** Every Environment draw comes before any Platform draw, every Platform draw before any Player draw, each layer in storage order. */
  lemma FrameLayered(objects: seq<GameObject>, placeholder: GLuint)
    ensures LayeredOrder(objects, FrameDraws(objects, placeholder))
  {
    var n := |objects|;
    var e := LayerDraws(objects, GameObjectType.Environment, placeholder, n);
    var pl := LayerDraws(objects, GameObjectType.Platform, placeholder, n);
    var py := LayerDraws(objects, GameObjectType.Player, placeholder, n);
    LayerDrawsFaithful(objects, GameObjectType.Environment, placeholder, n);
    LayerDrawsOrdered(objects, GameObjectType.Environment, placeholder, n);
    LayerDrawsFaithful(objects, GameObjectType.Platform, placeholder, n);
    LayerDrawsOrdered(objects, GameObjectType.Platform, placeholder, n);
    LayerDrawsFaithful(objects, GameObjectType.Player, placeholder, n);
    LayerDrawsOrdered(objects, GameObjectType.Player, placeholder, n);
    assert LayeredOrder(objects, []);
    AppendLayer(objects, [], e, GameObjectType.Environment);
    assert [] + e == e;
    LayerRanksBelow(objects, e, GameObjectType.Environment, 1);
    AppendLayer(objects, e, pl, GameObjectType.Platform);
    LayerRanksBelow(objects, e, GameObjectType.Environment, 2);
    LayerRanksBelow(objects, pl, GameObjectType.Platform, 2);
    RanksBelowAppend(objects, e, pl, 2);
    AppendLayer(objects, e + pl, py, GameObjectType.Player);
  }

  /**
   * A frame draws every stored object exactly once, each with its own draw,
   * ordered by layer (Environment, Platform, Player) and within a layer by
   * storage order.
   */
  lemma FrameOrder(objects: seq<GameObject>, placeholder: GLuint)
    ensures var f := FrameDraws(objects, placeholder);
      FaithfulDraws(objects, placeholder, |objects|, f) && LayeredOrder(objects, f)
      && (forall p, q | 0 <= p < q < |f| :: f[p].index != f[q].index)
      && (forall i | 0 <= i < |objects| :: IsDrawn(f, i))
  {
    var n := |objects|;
    var e := LayerDraws(objects, GameObjectType.Environment, placeholder, n);
    var pl := LayerDraws(objects, GameObjectType.Platform, placeholder, n);
    var py := LayerDraws(objects, GameObjectType.Player, placeholder, n);
    LayerDrawsFaithful(objects, GameObjectType.Environment, placeholder, n);
    LayerDrawsCovers(objects, GameObjectType.Environment, placeholder, n);
    LayerDrawsFaithful(objects, GameObjectType.Platform, placeholder, n);
    LayerDrawsCovers(objects, GameObjectType.Platform, placeholder, n);
    LayerDrawsFaithful(objects, GameObjectType.Player, placeholder, n);
    LayerDrawsCovers(objects, GameObjectType.Player, placeholder, n);
    FaithfulAppend(objects, placeholder, e, pl);
    FaithfulAppend(objects, placeholder, e + pl, py);
    FrameLayered(objects, placeholder);
    var f := FrameDraws(objects, placeholder);
    forall i | 0 <= i < n ensures IsDrawn(f, i) {
      if objects[i].base.objectType != GameObjectType.Player {
        DrawnInAppend(e, pl, i);
      }
      DrawnInAppend(e + pl, py, i);
    }
  }

  /**
   * Objects built without a texture are drawn with the placeholder, in the
   * layer of their tag: a Player built with a colour lands in the Platform
   * layer, a Background in the Environment layer.
   */
  lemma ConstructorsDrawPlaceholder(position: Vec2, scale: Vec2, colorMultiplier: Vec4, placeholder: GLuint)
    ensures var objects := [Players.New(position, scale), Players.NewWithColor(position, scale, colorMultiplier),
                            Platforms.New(position, scale), Platforms.NewWithColor(position, scale, colorMultiplier),
                            Backgrounds.New(position, scale), Backgrounds.NewWithColor(position, scale, colorMultiplier)];
      (forall i | 0 <= i < |objects| :: DrawOf(objects, i, placeholder).texture == placeholder)
      && LayerDraws(objects, GameObjectType.Player, placeholder, |objects|) == [DrawOf(objects, 0, placeholder)]
      && LayerDraws(objects, GameObjectType.Environment, placeholder, |objects|)
           == [DrawOf(objects, 4, placeholder), DrawOf(objects, 5, placeholder)]
  {
    var objects := [Players.New(position, scale), Players.NewWithColor(position, scale, colorMultiplier),
                    Platforms.New(position, scale), Platforms.NewWithColor(position, scale, colorMultiplier),
                    Backgrounds.New(position, scale), Backgrounds.NewWithColor(position, scale, colorMultiplier)];
    var player := [DrawOf(objects, 0, placeholder)];
    assert LayerDraws(objects, GameObjectType.Player, placeholder, 1) == player;
    assert LayerDraws(objects, GameObjectType.Player, placeholder, 2) == player;
    assert LayerDraws(objects, GameObjectType.Player, placeholder, 3) == player;
    assert LayerDraws(objects, GameObjectType.Player, placeholder, 4) == player;
    assert LayerDraws(objects, GameObjectType.Player, placeholder, 5) == player;
    assert LayerDraws(objects, GameObjectType.Environment, placeholder, 4) == [];
  }

  /**
   * The first frame of the initial world: the two Platforms in storage
   * order, then the Player, with the placeholder bound for the Platforms.
   */
  lemma InitialFrame(playerTextureId: GLuint, placeholder: GLuint)
    ensures var w := Doodle.InitialWorld(playerTextureId);
      FrameDraws(w, placeholder) == [DrawOf(w, 1, placeholder), DrawOf(w, 2, placeholder), DrawOf(w, 0, placeholder)]
      && FrameDraws(w, placeholder)[0].texture == placeholder && FrameDraws(w, placeholder)[1].texture == placeholder
      && FrameDraws(w, placeholder)[2].texture == BoundTexture(playerTextureId, placeholder)
  {
  }

  /** What EGL, the shader loader and the texture loader answer during `initEGL`. */
  datatype EglEnv = EglEnv(
    display: bool,
    surfaceCreated: bool,
    contextCreated: bool,
    shaderLoaded: bool,
    noneTexture: Option<GLuint>)

  /** What one call of `render` produced. */
  datatype Frame =
    | NothingRendered
    | ClearedOnly(presented: bool)
    | Rendered(viewProjection: Ortho, draws: seq<Draw>)

  /** The renderer's state that `render` reads and writes, including the shared camera. */
  datatype RendererState = RendererState(
    window: bool,
    display: bool,
    surface: bool,
    context: bool,
    width: int,
    height: int,
    shaderLoaded: bool,
    noneTexture: Option<GLuint>,
    assetManager: bool,
    cameraPosition: Vec2,
    cameraScale: Vec2)

  /** `updateRenderArea`, given the surface size EGL reports. */
  function AfterUpdateRenderArea(s: RendererState, surfaceWidth: int, surfaceHeight: int): RendererState
  {
    if !s.display || !s.surface then s
    else if surfaceWidth != s.width || surfaceHeight != s.height then
      s.(width := surfaceWidth, height := surfaceHeight, cameraScale := Vec2(surfaceWidth as real, surfaceHeight as real))
    else s
  }

  /** `initEGL`: nothing without a window; otherwise store the handles, invalidate the size and, with an asset manager, load and resize. */
  function AfterInitEgl(s: RendererState, env: EglEnv, surfaceWidth: int, surfaceHeight: int): RendererState
  {
    if !s.window then s
    else
      var s1 := s.(display := env.display, surface := env.surfaceCreated, context := env.contextCreated,
                   width := -1, height := -1);
      if s.assetManager then
        AfterUpdateRenderArea(s1.(shaderLoaded := env.shaderLoaded, cameraPosition := Zero), surfaceWidth, surfaceHeight)
          .(noneTexture := env.noneTexture)
      else s1
  }

  /** The state once `render` has tried to initialise and has resized. */
  function Prepared(s: RendererState, env: EglEnv, surfaceWidth: int, surfaceHeight: int): RendererState
  {
    var s1 := if s.context then s else AfterInitEgl(s, env, surfaceWidth, surfaceHeight);
    if s1.context then AfterUpdateRenderArea(s1, surfaceWidth, surfaceHeight) else s1
  }

  /** What `render` produces from the prepared state. */
  function FrameOf(s: RendererState, objects: seq<GameObject>): Frame
  {
    if !s.context then NothingRendered
    else if !s.shaderLoaded || s.noneTexture.None? then ClearedOnly(s.display && s.surface)
    else Rendered(ViewProjection(s.cameraPosition, s.cameraScale), FrameDraws(objects, s.noneTexture.value))
  }

  /**
   * The early exits of `render`: with no context after the init attempt it
   * does nothing at all; without shader or placeholder it only clears and
   * presents; otherwise it draws the whole frame through the camera.
   */
  lemma RenderEarlyExits(s: RendererState, env: EglEnv, surfaceWidth: int, surfaceHeight: int, objects: seq<GameObject>)
    ensures var s' := Prepared(s, env, surfaceWidth, surfaceHeight);
      var f := FrameOf(s', objects);
      (f.NothingRendered? <==> !s.context && !(s.window && env.contextCreated))
      && (f.NothingRendered? ==> s' == (if s.window then AfterInitEgl(s, env, surfaceWidth, surfaceHeight) else s))
      && (f.ClearedOnly? <==> s'.context && (!s'.shaderLoaded || s'.noneTexture.None?))
      && (f.Rendered? ==> f.draws == FrameDraws(objects, s'.noneTexture.value)
                          && f.viewProjection == ViewProjection(s'.cameraPosition, s'.cameraScale))
  {
  }

  /** With display and surface, a resize stores the reported size, and rescales the camera exactly when the size differs. */
  lemma UpdateRenderAreaRule(s: RendererState, surfaceWidth: int, surfaceHeight: int)
    ensures var s' := AfterUpdateRenderArea(s, surfaceWidth, surfaceHeight);
      (!s.display || !s.surface ==> s' == s)
      && (s.display && s.surface ==> s'.width == surfaceWidth && s'.height == surfaceHeight)
      && ((s.display && s.surface && (surfaceWidth != s.width || surfaceHeight != s.height))
            ==> s'.cameraScale == Vec2(surfaceWidth as real, surfaceHeight as real))
      && (surfaceWidth == s.width && surfaceHeight == s.height ==> s' == s)
      && s'.(width := s.width, height := s.height, cameraScale := s.cameraScale) == s
  {
  }

  /** Resizing twice to the same size is resizing once. */
  lemma UpdateRenderAreaIdempotent(s: RendererState, surfaceWidth: int, surfaceHeight: int)
    ensures var s' := AfterUpdateRenderArea(s, surfaceWidth, surfaceHeight);
      AfterUpdateRenderArea(s', surfaceWidth, surfaceHeight) == s'
  {
  }

  /** The camera scale equals the stored size. */
  predicate ScaleMatchesSize(s: RendererState)
  {
    s.cameraScale == Vec2(s.width as real, s.height as real)
  }

  /**
   * `initEGL` stores the size (-1, -1), which no surface has, so the resize
   * it then performs always rescales the camera to the surface size.
   */
  lemma InitEglForcesRescale(s: RendererState, env: EglEnv, surfaceWidth: int, surfaceHeight: int)
    requires s.window && s.assetManager && env.display && env.surfaceCreated
    requires surfaceWidth >= 0 && surfaceHeight >= 0
    ensures var s' := AfterInitEgl(s, env, surfaceWidth, surfaceHeight);
      s'.width == surfaceWidth && s'.height == surfaceHeight
      && s'.cameraScale == Vec2(surfaceWidth as real, surfaceHeight as real)
      && s'.cameraPosition == Zero && ScaleMatchesSize(s')
  {
  }

  /** Once the scale matches the stored size, every later resize keeps it so. */
  lemma UpdateRenderAreaKeepsScaleMatched(s: RendererState, surfaceWidth: int, surfaceHeight: int)
    requires ScaleMatchesSize(s)
    ensures ScaleMatchesSize(AfterUpdateRenderArea(s, surfaceWidth, surfaceHeight))
  {
  }

  /**
   * The renderer. `window` and `assetManager` record whether the host has
   * handed those over; `display`, `surface` and `context` whether the EGL
   * handles exist; `shaderLoaded` and `noneTexture` what `initEGL` loaded.
   */
  class Renderer {
    var window: bool
    var display: bool
    var surface: bool
    var context: bool
    var width: int
    var height: int
    var shaderLoaded: bool
    var noneTexture: Option<GLuint>
    var assetManager: bool
    var textures: seq<GLuint>
    var textureFilepathToId: map<string, GLuint>
    /** The camera the renderer owns and the game scrolls. */
    const camera: Camera

    ghost function State(): RendererState
      reads this, camera
    {
      RendererState(window, display, surface, context, width, height, shaderLoaded, noneTexture, assetManager,
                    camera.position, camera.scale)
    }

    /** No window, no EGL handles, size 0 by 0, nothing loaded; the camera's initial vectors are given. */
    constructor (cameraPosition: Vec2, cameraScale: Vec2)
      ensures fresh(camera)
      ensures State() == RendererState(false, false, false, false, 0, 0, false, None, false, cameraPosition, cameraScale)
      ensures textures == [] && textureFilepathToId == map[]
    {
      window, display, surface, context := false, false, false, false;
      width, height := 0, 0;
      shaderLoaded, noneTexture, assetManager := false, None, false;
      textures, textureFilepathToId := [], map[];
      camera := new Camera(cameraPosition, cameraScale);
    }

    method SetAssetManager(present: bool)
      modifies this`assetManager
      ensures assetManager == present
    {
      assetManager := present;
    }

    /** `updateRenderArea`; EGL reports the surface as `surfaceWidth` by `surfaceHeight`. */
    method UpdateRenderArea(surfaceWidth: int, surfaceHeight: int)
      modifies this`width, this`height, camera`scale
      ensures State() == AfterUpdateRenderArea(old(State()), surfaceWidth, surfaceHeight)
    {
      if !display || !surface {
        return;
      }
      if surfaceWidth != width || surfaceHeight != height {
        width := surfaceWidth;
        height := surfaceHeight;
        camera.scale := Vec2(width as real, height as real);
      }
    }

    /** `initEGL`, with what EGL and the loaders answer given by `env`. */
    method InitEgl(env: EglEnv, surfaceWidth: int, surfaceHeight: int)
      modifies this, camera
      ensures State() == AfterInitEgl(old(State()), env, surfaceWidth, surfaceHeight)
      ensures textures == old(textures) && textureFilepathToId == old(textureFilepathToId)
    {
      if !window {
        return;
      }
      display, surface, context := env.display, env.surfaceCreated, env.contextCreated;
      width, height := -1, -1;
      if assetManager {
        shaderLoaded := env.shaderLoaded;
        camera.position := Zero;
        UpdateRenderArea(surfaceWidth, surfaceHeight);
        noneTexture := env.noneTexture;
      }
    }

    /** `render`: initialise if needed, resize, then clear only or draw the three layers. */
    method Render(objects: seq<GameObject>, env: EglEnv, surfaceWidth: int, surfaceHeight: int) returns (frame: Frame)
      modifies this, camera
      ensures State() == Prepared(old(State()), env, surfaceWidth, surfaceHeight)
      ensures frame == FrameOf(State(), objects)
      ensures textures == old(textures) && textureFilepathToId == old(textureFilepathToId)
    {
      if !context {
        InitEgl(env, surfaceWidth, surfaceHeight);
      }
      if !context {
        return NothingRendered;
      }
      UpdateRenderArea(surfaceWidth, surfaceHeight);
      if !shaderLoaded || noneTexture.None? {
        return ClearedOnly(display && surface);
      }
      var viewProjection := ViewProjection(camera.position, camera.scale);
      var environment := RenderLayer(objects, GameObjectType.Environment, noneTexture.value);
      var platforms := RenderLayer(objects, GameObjectType.Platform, noneTexture.value);
      var players := RenderLayer(objects, GameObjectType.Player, noneTexture.value);
      frame := Rendered(viewProjection, environment + platforms + players);
    }

    /**
     * `getTextureId`: the cached name when the path is known; otherwise
     * NO_TEXTURE without an asset manager or when loading fails (`loaded` is
     * what the loader returns); otherwise keep the new texture and return its
     * name. The path-to-name map is never written.
     */
    method GetTextureId(filepath: string, loaded: Option<GLuint>) returns (id: GLuint)
      modifies this`textures
      ensures filepath in textureFilepathToId ==> id == textureFilepathToId[filepath] && textures == old(textures)
      ensures (filepath !in textureFilepathToId && (!assetManager || loaded.None?))
                ==> id == NO_TEXTURE && textures == old(textures)
      ensures (filepath !in textureFilepathToId && assetManager && loaded.Some?)
                ==> id == loaded.value && textures == old(textures) + [loaded.value]
    {
      if filepath in textureFilepathToId {
        return textureFilepathToId[filepath];
      }
      if !assetManager {
        return NO_TEXTURE;
      }
      if loaded.Some? {
        id := loaded.value;
        textures := textures + [loaded.value];
      } else {
        id := NO_TEXTURE;
      }
    }

    /** `getTextureId` as its lookup evidently intends: a successful load is also recorded under its path. */
    method GetTextureIdCached(filepath: string, loaded: Option<GLuint>) returns (id: GLuint)
      modifies this`textures, this`textureFilepathToId
      ensures (filepath in old(textureFilepathToId))
                ==> id == old(textureFilepathToId)[filepath] && textures == old(textures)
                    && textureFilepathToId == old(textureFilepathToId)
      ensures (filepath !in old(textureFilepathToId) && (!assetManager || loaded.None?))
                ==> id == NO_TEXTURE && textures == old(textures) && textureFilepathToId == old(textureFilepathToId)
      ensures (filepath !in old(textureFilepathToId) && assetManager && loaded.Some?)
                ==> id == loaded.value && textures == old(textures) + [loaded.value]
                    && textureFilepathToId == old(textureFilepathToId)[filepath := loaded.value]
    {
      if filepath in textureFilepathToId {
        return textureFilepathToId[filepath];
      }
      if !assetManager {
        return NO_TEXTURE;
      }
      if loaded.Some? {
        id := loaded.value;
        textures := textures + [loaded.value];
        textureFilepathToId := textureFilepathToId[filepath := id];
      } else {
        id := NO_TEXTURE;
      }
    }
  }

  /**
   * As written, asking twice for the same path loads it twice: the second
   * call misses the never-filled map, keeps a second texture and returns the
   * second load's name.
   */
  method RepeatedLookupAsWritten(filepath: string, first: GLuint, second: GLuint)
    returns (id1: GLuint, id2: GLuint, kept: nat)
    ensures id1 == first && id2 == second && kept == 2
  {
    var r := new Renderer(Zero, Zero);
    r.SetAssetManager(true);
    id1 := r.GetTextureId(filepath, Some(first));
    id2 := r.GetTextureId(filepath, Some(second));
    kept := |r.textures|;
  }

  /** With the path recorded, the second call is a cache hit: one texture kept, the same name returned. */
  method RepeatedLookupCached(filepath: string, first: GLuint, second: GLuint)
    returns (id1: GLuint, id2: GLuint, kept: nat)
    ensures id1 == first && id2 == first && kept == 1
  {
    var r := new Renderer(Zero, Zero);
    r.SetAssetManager(true);
    id1 := r.GetTextureIdCached(filepath, Some(first));
    id2 := r.GetTextureIdCached(filepath, Some(second));
    kept := |r.textures|;
  }
}
