# Doodle game core, modelled in Dafny

This project models the native core of the Doodle endless-jumper for Android:

- the entity model: the abstract `GameObject` with its type tag and the `NO_TEXTURE` sentinel, and the `Player`, `Platform` and `Background` constructors;
- `DoodleGame`, which owns the ordered list of game objects, caches the player's index, builds a fixed initial world, and ticks it;
- the camera's viewport rectangle and `Utils::Lerp`;
- the renderer's selection and bookkeeping rules: layer order, texture-or-placeholder choice, the early exits of `render`, the resize rule of `updateRenderArea`, the size sentinel of `initEGL`, and the texture lookup of `getTextureId`.

Floats are modelled as reals. GL and EGL calls are modelled in two ways. Their results are inputs to the operations (`EglEnv`, the reported surface size, the result of the texture loader). What they draw is recorded as values (`Draw`, `Frame`).

Files and modules:

- `vectors.dfy` (`Vectors`): `Vec2`, `Vec4`, the zero vector, and opaque white.
- `game_object.dfy` (`GameObjects`): `GLuint`, `NO_TEXTURE`, the tags `Player | Platform | Environment`, the base fields, the object classes, and the three base constructors.
- `player.dfy`, `platform.dfy`, `background.dfy` (`Players`, `Platforms`, `Backgrounds`): the derived constructors and the Player tuning constants.
- `utils.dfy` (`Utils`): `Lerp`.
- `camera.dfy` (`Cameras`): the `Camera` class and the `glm::ortho` bounds.
- `doodle_game.dfy` (`Doodle`): the `DoodleGame` class and the specification of repeated ticks.
- `renderer.dfy` (`Rendering`): the `Renderer` class, `RenderLayer`, and the pure specification of a frame.

An object's dynamic class is kept apart from its tag. The class is `PlayerObject`, `PlatformObject` or `BackgroundObject`, and it is what the downcast in `getPlayer` needs. The tag is what the renderer filters on. The two disagree for the two colour constructors of `Player`, which tag the object `Platform`; the model keeps that.

The tag set has three values. `app/src/main/cpp/Game/GameObject/GameObject.h` declares an enum with only `Player` and `Platform`, and no `getType()`. `Background.cpp` and `Renderer.cpp` use `GameObjectType::Environment` and `getType()`. The model follows the `.cpp` files.

## Model

| member | source | states |
|---|---|---|
| GameObjects.WithTexture | app/src/main/cpp/Game/GameObject/GameObject.cpp:7-14 | position, scale and tag are as passed; rotation is 0; the colour is opaque white; the texture is as passed |
| GameObjects.WithColor | app/src/main/cpp/Game/GameObject/GameObject.cpp:16-23 | position, scale and tag are as passed; rotation is 0; the colour is as passed; the texture is NO_TEXTURE |
| GameObjects.WithColorAndTexture | app/src/main/cpp/Game/GameObject/GameObject.cpp:25-32 | position, scale, tag, colour and texture are as passed; rotation is 0 |
| GameObjects.NoTextureIsMaximum | app/src/main/cpp/Game/GameObject/GameObject.h:12-13 | NO_TEXTURE is the largest 32-bit unsigned texture name |
| GameObjects.ColorIsColorAndNoTexture | app/src/main/cpp/Game/GameObject/GameObject.cpp:16-32 | the colour-only constructor is the combined one given NO_TEXTURE |
| GameObjects.TextureIsWhiteAndTexture | app/src/main/cpp/Game/GameObject/GameObject.cpp:7-32 | the texture-only constructor is the combined one given opaque white |
| Players.New | app/src/main/cpp/Game/GameObject/Player.cpp:7-9 | a Player object tagged Player, white, with the given texture (NO_TEXTURE when omitted); rotation time 0, prevPos and its own velocity zero |
| Players.NewWithColor | app/src/main/cpp/Game/GameObject/Player.cpp:11-13 | a Player object tagged Platform, with the given colour and NO_TEXTURE; the fresh Player fields |
| Players.NewWithColorAndTexture | app/src/main/cpp/Game/GameObject/Player.cpp:15-17 | a Player object tagged Platform, with the given colour and texture; the fresh Player fields |
| Players.OnlyTextureConstructorTagsPlayer | app/src/main/cpp/Game/GameObject/Player.cpp:7-17 | only the texture constructor tags a Player as Player; both colour constructors do not |
| Platforms.New | app/src/main/cpp/Game/GameObject/Platform.cpp:7-9 | a Platform object tagged Platform, white, with the given texture (NO_TEXTURE by default); geometry as passed; rotation 0 |
| Platforms.NewWithColor | app/src/main/cpp/Game/GameObject/Platform.cpp:11-13 | tagged Platform, with the given colour and NO_TEXTURE |
| Platforms.NewWithColorAndTexture | app/src/main/cpp/Game/GameObject/Platform.cpp:15-17 | tagged Platform, with colour and texture as passed; rotation 0 |
| Backgrounds.New | app/src/main/cpp/Game/GameObject/Background.cpp:7-9 | a Background object tagged Environment, white, with the given texture (NO_TEXTURE by default) |
| Backgrounds.NewWithColor | app/src/main/cpp/Game/GameObject/Background.cpp:11-13 | tagged Environment, with the given colour and NO_TEXTURE |
| Backgrounds.NewWithColorAndTexture | app/src/main/cpp/Game/GameObject/Background.cpp:15-17 | tagged Environment, with colour and texture as passed; rotation 0 |
| Utils.Lerp | app/src/main/cpp/Game/Utils.h:11-13 | t = 0 gives start; t = 1 gives end; equal endpoints give that value for every t |
| Utils.LerpAffine | app/src/main/cpp/Game/Utils.h:11-13 | moving t by d moves the result by (end - start)·d |
| Utils.LerpWithinEndpoints | app/src/main/cpp/Game/Utils.h:11-13 | for t in [0, 1] the result lies between the endpoints |
| Utils.LerpExtrapolates | app/src/main/cpp/Game/Utils.h:11-13 | t is not clamped: outside [0, 1], with distinct endpoints, the result lies outside them |
| Cameras.Camera.constructor | app/src/main/cpp/Graphics/Camera.h:15-17 | the camera holds the given position and scale |
| Cameras.ViewProjection | app/src/main/cpp/Graphics/Camera.cpp:8-14 | right − left = scale.x and top − bottom = scale.y; the rectangle is centred on the position; near is −1 and far is 1 |
| Cameras.ViewProjectionOrdered | app/src/main/cpp/Graphics/Camera.cpp:10-14 | with a non-negative scale, left ≤ x ≤ right and bottom ≤ y ≤ top |
| Cameras.ViewProjectionTranslates | app/src/main/cpp/Graphics/Camera.cpp:10-14 | moving the camera shifts every bound by the same offset |
| Doodle.InitialWorld | app/src/main/cpp/Game/DoodleGame.cpp:17-31 | three objects: the Player at (0,0) sized (200,200) with the loaded texture; a cyan Platform at (−50,100) sized (200,50) with no texture; a white Platform at (50,300) sized (220,50) with no texture; all unrotated |
| Doodle.DoodleGame.constructor | app/src/main/cpp/Game/DoodleGame.cpp:13-32 | the list is the initial world, playerIndex is 0, the object at playerIndex is the Player, and the camera is the one passed in |
| Doodle.DoodleGame.GetPlayer | app/src/main/cpp/Game/DoodleGame.cpp:34-37 | requires a Player at playerIndex and returns that stored Player object |
| Doodle.DoodleGame.GetGameObjects | app/src/main/cpp/Game/DoodleGame.cpp:47-49 | the returned list keeps the Player at playerIndex |
| Doodle.DoodleGame.Update | app/src/main/cpp/Game/DoodleGame.cpp:39-45 | camera y rises by 10·dt; camera x and scale stay the same; the list becomes every object spun by 100·dt; playerIndex and the Player invariant are kept |
| Doodle.SpinOnlyRotates | app/src/main/cpp/Game/DoodleGame.cpp:42-44 | a spin keeps count and order and changes each object's rotation by exactly the delta, and nothing else |
| Doodle.SpinKeepsPlayer | app/src/main/cpp/Game/DoodleGame.cpp:42-44 | a spin keeps the Player at the same index |
| Doodle.SpinTwice | app/src/main/cpp/Game/DoodleGame.cpp:42-44 | two spins equal one spin by their sum, so each tick adds its amount exactly once |
| Doodle.CameraNeverDescends | app/src/main/cpp/Game/DoodleGame.cpp:40 | with non-negative frame times, repeated updates raise the camera by 10 times the elapsed time and never lower it |
| Doodle.UpdatesAccumulate | app/src/main/cpp/Game/DoodleGame.cpp:39-45 | repeated updates spin every object by 100 times the elapsed time and keep the Player at its index |
| Rendering.BoundTexture | app/src/main/cpp/Graphics/Renderer.cpp:279 | the object's own texture unless it is NO_TEXTURE, in which case the placeholder; never NO_TEXTURE when the placeholder is not |
| Rendering.LayerDrawsSelects | app/src/main/cpp/Graphics/Renderer.cpp:272-286 | a layer draws exactly the objects with that tag, each once, in storage order, each with its own texture choice and uniforms |
| Rendering.RenderLayer | app/src/main/cpp/Graphics/Renderer.cpp:272-286 | the loop emits the layer's draws, which are exactly the objects with that tag in storage order |
| Rendering.FrameLayered | app/src/main/cpp/Graphics/Renderer.cpp:191-194 | every Environment draw comes before any Platform draw, and every Platform draw before any Player draw; within a layer, storage order |
| Rendering.FrameOrder | app/src/main/cpp/Graphics/Renderer.cpp:191-194 | a frame draws every stored object exactly once, in layer order and then storage order |
| Rendering.ConstructorsDrawPlaceholder | app/src/main/cpp/Graphics/Renderer.cpp:272-286 | objects built without a texture are drawn with the placeholder; a colour-built Player is not in the Player layer; Backgrounds are in the Environment layer |
| Rendering.InitialFrame | app/src/main/cpp/Graphics/Renderer.cpp:191-194 | the initial world's frame draws Platform 1, then Platform 2, then the Player, with the placeholder for both Platforms |
| Rendering.RenderEarlyExits | app/src/main/cpp/Graphics/Renderer.cpp:165-199 | nothing is done exactly when no context exists after the init attempt; only clear and present when the shader or placeholder is missing; otherwise the full frame through the camera rectangle |
| Rendering.UpdateRenderAreaRule | app/src/main/cpp/Graphics/Renderer.cpp:148-163 | no-op without display or surface; otherwise the reported size is stored, and the camera is rescaled exactly when the size differs; nothing else changes |
| Rendering.UpdateRenderAreaIdempotent | app/src/main/cpp/Graphics/Renderer.cpp:148-163 | a second resize to the same size changes nothing |
| Rendering.InitEglForcesRescale | app/src/main/cpp/Graphics/Renderer.cpp:106-137 | the (−1, −1) sentinel makes the resize inside initEGL always set the camera scale to the surface size and recentre the camera |
| Rendering.UpdateRenderAreaKeepsScaleMatched | app/src/main/cpp/Graphics/Renderer.cpp:157-162 | once the camera scale equals the stored size, every resize keeps it so |
| Rendering.Renderer.constructor | app/src/main/cpp/Graphics/Renderer.cpp:20-30 | no window, no EGL handles, size 0 by 0, no asset manager, nothing loaded, empty texture list and map |
| Rendering.Renderer.SetAssetManager | app/src/main/cpp/Graphics/Renderer.h:42 | records whether an asset manager is present |
| Rendering.Renderer.UpdateRenderArea | app/src/main/cpp/Graphics/Renderer.cpp:148-163 | the new state is the resize rule applied to the old state; only width, height and the camera scale may change |
| Rendering.Renderer.InitEgl | app/src/main/cpp/Graphics/Renderer.cpp:41-146 | without a window nothing changes; otherwise the handles are stored and the size becomes (−1, −1); with an asset manager the shader is loaded, the camera is recentred and resized, and the placeholder is loaded |
| Rendering.Renderer.Render | app/src/main/cpp/Graphics/Renderer.cpp:165-199 | the state is the init-then-resize preparation; the frame is the one the prepared state selects; the texture list and map are unchanged |
| Rendering.Renderer.GetTextureId | app/src/main/cpp/Graphics/Renderer.cpp:211-237 | a known path returns its mapped name; otherwise NO_TEXTURE without an asset manager or on load failure; on success exactly one texture is appended and its name returned; the map is never written |
| Rendering.RepeatedLookupAsWritten | app/src/main/cpp/Graphics/Renderer.cpp:211-237 | two lookups of one path load it twice, keep two textures and return the second name |
| Rendering.Renderer.GetTextureIdCached | app/src/main/cpp/Graphics/Renderer.cpp:211-237 | as GetTextureId, and a successful load is also recorded under its path |
| Rendering.RepeatedLookupCached | app/src/main/cpp/Graphics/Renderer.cpp:211-237 | with the corrected lookup, the second call hits the cache: one texture kept, the same name returned |

## Left out

- Floating-point rounding: floats are reals. `EGLint` sizes are unbounded integers.
- The base `GameObject::velocity` is never initialised by any constructor, so it is not modelled. `Player` has its own `velocity`, which is modelled.
- The engine reference held by `DoodleGame` is left out. Its camera reference is modelled as the `Camera` object it shares with the renderer. The texture that the constructor obtains through `engine.getTextureId("android_robot.png")` is a constructor parameter.
- Cameras.Camera.constructor: the source leaves the camera's vectors default-initialised, so their initial values are taken as parameters.
- Doodle.DoodleGame.GetPlayer: returns the Player as a value. The source returns a reference through which callers may mutate it.
- Objects are held through `unique_ptr` and updated in place. The model holds them as a sequence of values that `Update` reassigns. No other component keeps a pointer to them.
- `renderLayer` takes the tag as an `int`. The model takes the tag itself. The numeric values of the enum are not modelled, only the order in which `render` passes the three tags.
- EGL and GL plumbing are left out: config selection, logging, debug `assert`s, `glClearColor`, blending, `glViewport`, `glActiveTexture`, shader activation and uniforms, `terminateEGL`, `setWindow` with its mutex, the destructor, and `isReady`. Window and asset-manager presence are fields that the host sets.
- `calculateModelMatrix` and the `glm` matrix entries are left out. A recorded draw carries the position, rotation and scale that the matrix is built from.
- Shader, audio, JNI, the Engine's sensor and input handling, the Kotlin UI and the Room database are left out. They are OS, library or foreign calls.
- The `ResetGame` and `StartGame` calls in the JNI bridge are left out. `DoodleGame` does not declare them.

## Findings

| source | as written | input that shows it | evidently intended | confidence | as-written member | corrected member |
|---|---|---|---|---|---|---|
| app/src/main/cpp/Graphics/Renderer.cpp:211-237 | `getTextureId` looks the path up in `textureFilepathToId` but never inserts into it, so the cache never hits | with an asset manager, call `getTextureId("android_robot.png")` twice with two successful loads: two textures are kept and the second name is returned | record the loaded name under its path, as the comments at lines 212 and 215 ("First we check if this texture is already loaded", "This texture is already loaded") describe, so the second call returns the first name and loads nothing | medium, not executed | Rendering.RepeatedLookupAsWritten | Rendering.RepeatedLookupCached |
