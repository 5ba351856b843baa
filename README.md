# Solar system viewer — a verified model of its control logic

This project models in Dafny the discrete control logic of the OpenGL solar-system
viewer. It proves properties of that model. Three parts of the program are modelled.

- **`Solar_viewer`** (src/solar_viewer.cpp, src/solar_viewer.hh) is modelled as a class
  whose methods change its members in place:
  - `keyboard` chooses the target body, follows the ship, clamps the zoom, cycles the
    curve overlay, scales the time step and turns the view;
  - `timer` advances the six bodies, then places the planets and the moon;
  - `randomize_planets` runs one timer step with a borrowed time step;
  - `resize`; `paint`, which chooses the camera by priority and sets the billboard angles;
  - `draw_scene`, a fixed sequence of shader, uniform, texture, draw and blend commands.

  Every method is proved to leave the object in the state computed by a function of
  module `ViewerModel`, applied to the state before the call. Lemmas in `ViewerFacts`
  and `SceneFacts` state what those functions guarantee:
  - the ship/target invariant and the zoom bounds over any run of callbacks;
  - the timer's step order;
  - the camera branches;
  - the drawing order with the fall-through curve overlays;
  - every draw is issued with its object's shader bound;
  - blending is on only around the glow.
- **`Shader`** (src/shader.cpp, src/shader.hh) is modelled over an abstract GL context
  (module `Gl`). The context is a set of live object names, a counter that hands out
  fresh names, and the trace of calls issued.
  - `cleanup` deletes exactly the nonzero handles.
  - `reload` has three failure modes:
    - a missing file skips that stage;
    - a compile error is caught;
    - a link error escapes.
  - `use`, `disable` and `set_uniform` are guarded by `pid_`.
  - `ShaderReloadFacts` states what `reload` does in each case.
  - `ShaderRelease` is the reload with its failure paths releasing what they created.
- **`Texture`** (src/texture.cpp):
  - `uploadImage` has its two guards and its in-place vertical flip, proved to produce
    the mirrored buffer and to be an involution;
  - `createSunBillboardTexture` fills the 900×900 RGBA buffer in nested loops, with the
    green channel carried from pixel to pixel;
  - `init`, `bind` and the destructor.

Inputs to the model:
- the rotation matrices, billboard angles and ship updates (`Geometry` and `Env` values);
- the start poses of the planets;
- the stages' fates and the link status of a shader build;
- the fade-zone alpha of the billboard;
- the value `rand()` returns.

The members of `Solar_viewer` are grouped in `Viewer.SolarViewer` into seven fields:
- the seven planets;
- the ship;
- the animation members;
- the display members;
- the camera members;
- the viewport size;
- the trace of calls made.

`Value()` flattens them into the one record, `ViewerModel.State`, that the
specification functions take.

The locked camera sits `dist_factor_` times the target's *radius* from it
(src/solar_viewer.cpp:341-343); for the earth that is 9 × 0.25 = 2.25
(`ViewerFacts.EarthView`). The orbital distance plays no part in it.

## Model

| member | source | states |
|---|---|---|
| Bodies.BodyAt | src/solar_viewer.cpp:52-55 | key `1 + i` selects the i-th of sun, mercury, venus, earth, moon, mars |
| Bodies.InitialPlanet | src/solar_viewer.cpp:22-27 | the bodies keep the start pose they are given; the sun has orbit rate 0, radius 1 and distance 0; the earth has radius 0.25 and distance -3.3 |
| Bodies.TimeStep | src/solar_viewer.cpp:233-238 | a time step changes only the two angles; rates, radius, distance and position are kept |
| Bodies.StepsAdd | src/solar_viewer.cpp:233-238 | a step of dt1 followed by a step of dt2 equals one step of dt1 + dt2 |
| Bodies.OrbitCircle | src/solar_viewer.cpp:199-213 | with a rotation about the y axis, `place_orbiting` puts the body on the horizontal circle of radius abs(distance) round the centre (w = 1, the centre's height) |
| Vectors.Translate | src/solar_viewer.cpp:211-212 | translating a point adds the offset to x, y and z and keeps w = 1 |
| ViewerModel.CRem | src/solar_viewer.cpp:117 | C++ `%`: the magnitude stays below the divisor; it agrees with Dafny's `%` on non-negative operands and is never positive for a negative one |
| ViewerFacts.InitialState | src/solar_viewer.cpp:18-39 | the constructed viewer targets the sun from 9 radii at angles -90 and 0. It is not in the ship and runs the timer at 1/24 day per tick. Greyscale is off when it starts, and the ship sits 9 sun radii from the sun towards -z, facing +z. The curve mode is whatever was there. The invariant holds |
| ViewerFacts.OnlyPressesAct | src/solar_viewer.cpp:49 | an action other than press or repeat leaves the whole state unchanged |
| ViewerFacts.SelectionKeys | src/solar_viewer.cpp:52-65 | keys 1–6 leave the ship and target sun, mercury, venus, earth, moon, mars in that order, changing nothing else; key 7 clears the target and follows the ship |
| ViewerFacts.ShipKeys | src/solar_viewer.cpp:91-114 | W/S/A/D change nothing unless the ship is followed; then they change only the ship, through accelerate(±0.001) or accelerate_angular(±0.02) |
| ViewerFacts.ZoomKeys | src/solar_viewer.cpp:67-77 | key 8 changes only the distance factor, to max(2.5, d - 0.1); key 9 changes only it, to min(20, d + 0.1) |
| ViewerFacts.ModeCycle | src/solar_viewer.hh:110-116 | the curve modes advance NONE → PATH → PATH_CP → PATH_FRAME → NONE |
| ViewerFacts.FourPressesCycle | src/solar_viewer.cpp:116-118 | with C++ `%`, four presses of C return any valid mode to itself, and bring any mode into 0..3 |
| ViewerFacts.CurveKey | src/solar_viewer.cpp:116-118 | key C changes only the curve mode, to the next mode |
| ViewerFacts.TimeStepKeys | src/solar_viewer.cpp:154-170 | P, keypad + and = double the time step and change nothing else. M, keypad - and - halve it. A doubling then a halving restores the state, and 1/24 doubles to 1/12 |
| ViewerFacts.ReloadKey | src/solar_viewer.cpp:172-180 | key J issues the reloads of the color, phong, earth and sun shaders in that order and changes nothing else; their outcomes are not part of the viewer model (see "## Left out") |
| ViewerFacts.TimerPaused | src/solar_viewer.cpp:229-231 | with the timer off, `timer` changes nothing |
| ViewerFacts.TimerRuns | src/solar_viewer.cpp:229-250 | with the timer on, every body is stepped by the same time step and the sun moves to the origin. The four planets are placed round the sun, and the moon round the earth's new position. The ship is updated, the path parameter ends at 0 and the frame is aligned there. Nothing else changes |
| ViewerFacts.TimerOrbits | src/solar_viewer.cpp:194-224 | after a tick, each planet lies at its orbital distance from the sun, and the moon at its distance from the earth, whatever the angles |
| ViewerFacts.RandomizeRestores | src/solar_viewer.cpp:529-536 | `randomize_planets` restores the time step exactly; it changes nothing when the timer is off, and otherwise steps every body by `rnd % 20000` days |
| ViewerFacts.TimerKeeps | src/solar_viewer.cpp:229-250 | `timer` keeps the invariant: ship followed exactly when no target, distance factor in [2.5, 20], positive time step |
| ViewerFacts.RandomizeKeeps | src/solar_viewer.cpp:529-536 | `randomize_planets` keeps the invariant |
| ViewerFacts.KeyboardKeeps | src/solar_viewer.cpp:45-189 | every key event keeps the invariant |
| ViewerFacts.KeyCommandKeeps | src/solar_viewer.cpp:57-187 | every case of the key `switch` keeps the invariant |
| ViewerFacts.OtherKeysKeep | src/solar_viewer.cpp:85-186 | the keys other than R, 7, 8, 9 and the time-step keys leave the ship flag, the target, the distance factor and the time step as they were |
| ViewerFacts.PaintKeeps | src/solar_viewer.cpp:328-378 | `paint` keeps the invariant and the curve mode |
| ViewerFacts.SessionKeeps | src/solar_viewer.cpp:45-378 | any sequence of key, timer, paint and resize callbacks keeps the invariant |
| ViewerFacts.SessionFromStart | src/solar_viewer.hh:144-153 | from the constructed state, after any sequence of callbacks, the ship is followed exactly when no body is targeted and the distance factor is in [2.5, 20] |
| ViewerFacts.CameraFollowsShip | src/solar_viewer.cpp:336-339 | when following the ship, the camera looks at the ship from 2 directions behind it and 0.5 above |
| ViewerFacts.LockedEyeOffset | src/solar_viewer.cpp:340-348 | the locked eye is the offset (0, 0, dist), turned about x and then y, added to the centre |
| ViewerFacts.CameraLocked | src/solar_viewer.cpp:340-348 | with a target and not in the ship, the camera looks at the target from dist_factor × radius on +z, turned by the x and then the y angle |
| ViewerFacts.CameraDefault | src/solar_viewer.cpp:349-353 | with neither ship nor target, the eye is (0, 0, 7, 1) looking at the sun |
| ViewerFacts.LockedEyeDistance | src/solar_viewer.cpp:340-348 | with rotations that keep lengths, the locked eye is dist_factor × radius from the target |
| ViewerFacts.EarthView | src/solar_viewer.cpp:52-55 | pressing 4 in the constructed viewer looks at the earth from 2.25 on +z, turned by -90 about x |
| ViewerFacts.PaintEffect | src/solar_viewer.cpp:328-378 | `paint` issues clear, look_at and perspective (45, width, height, 0.01, 20), then sets the billboard angles from eye minus sun. Then the scene is drawn with the advanced sun time. Nothing else changes |
| SceneFacts.OverlayOrder | src/solar_viewer.cpp:385-400 | the overlay `switch` falls through: PATH_FRAME draws frame, control polygon and path; PATH_CP draws control polygon and path; PATH draws the path; any other mode draws nothing |
| SceneFacts.SunDraws | src/solar_viewer.cpp:416-428 | the sun pass draws exactly the sun |
| SceneFacts.PlanetDraws | src/solar_viewer.cpp:456-475 | a planet pass draws exactly that planet |
| SceneFacts.HaloDraws | src/solar_viewer.cpp:505-523 | the glow pass draws exactly the halo |
| SceneFacts.SceneOrder | src/solar_viewer.cpp:385-527 | `draw_scene` draws the overlays of its mode, then sun, stars, mercury, venus, mars, earth, moon, ship and glow, in that order and nothing else |
| SceneFacts.OverlaysSound | src/solar_viewer.cpp:385-400 | the curve overlays are drawn with the solid-color shader bound and leave blending off |
| SceneFacts.PlanetSound | src/solar_viewer.cpp:456-475 | a planet pass sets its uniforms and draws with the phong shader bound, blending off |
| SceneFacts.HaloSound | src/solar_viewer.cpp:505-523 | blending is switched on for the glow draw alone, with the color shader bound, and off afterwards |
| SceneFacts.SceneSound | src/solar_viewer.cpp:385-527 | every uniform in `draw_scene` goes to the program in use, and every body is drawn with its shader. Blending is on only for the glow draw and off at the end |
| SceneFacts.GreyscaleUniforms | src/solar_viewer.cpp:416-523 | every `greyscale` uniform in the scene carries 1 when greyscale is on and 0 otherwise |
| SceneFacts.SunTimeUniform | src/solar_viewer.cpp:413-423 | the sun time advances by 0.01 exactly when the timer is on, and that value is sent as the optional uniform `t` of the sun shader |
| Viewer.SolarViewer.constructor | src/solar_viewer.cpp:18-41 | the members after construction are the initial state of `ViewerModel.Init` (its properties: `ViewerFacts.InitialState`) |
| Viewer.SolarViewer.Keyboard | src/solar_viewer.cpp:45-189 | the members change as `ViewerModel.Keyboard` says: presses and repeats only, keys 1–6 select before the `switch` |
| Viewer.SolarViewer.KeyCommand | src/solar_viewer.cpp:57-187 | the members change as `ViewerModel.KeyCommand` says for every key |
| Viewer.SolarViewer.Follow | src/solar_viewer.cpp:60-77 | keys 7, 8 and 9 change the members as the `switch` does |
| Viewer.SolarViewer.Toggle | src/solar_viewer.cpp:85-151 | keys G, C and space flip greyscale, advance the curve mode and flip the timer |
| Viewer.SolarViewer.ChangeSpeed | src/solar_viewer.cpp:154-170 | the time-step keys double or halve the time step |
| Viewer.SolarViewer.SteerShip | src/solar_viewer.cpp:91-114 | W/S/A/D update the ship only when it is followed |
| Viewer.SolarViewer.Turn | src/solar_viewer.cpp:124-146 | the arrow keys turn the view by 10 degrees about y or about x |
| Viewer.SolarViewer.UpdateBodyPositions | src/solar_viewer.cpp:194-224 | the members change as `ViewerModel.UpdateBodyPositions` says: sun to the origin, then the planets, then the moon round the new earth |
| Viewer.SolarViewer.Timer | src/solar_viewer.cpp:229-251 | the members change as `ViewerModel.Timer` says (properties: `ViewerFacts.TimerRuns`, `ViewerFacts.TimerPaused`) |
| Viewer.SolarViewer.RandomizePlanets | src/solar_viewer.cpp:529-536 | the members change as `ViewerModel.Randomize` says (properties: `ViewerFacts.RandomizeRestores`) |
| Viewer.SolarViewer.Resize | src/solar_viewer.cpp:257-262 | the viewport size is stored and the viewport call recorded, nothing else changes |
| Viewer.SolarViewer.Paint | src/solar_viewer.cpp:328-378 | the imperative camera equals `ViewerModel.CameraOf`, and the members change as `ViewerModel.Paint` says (properties: `ViewerFacts.PaintEffect`) |
| Viewer.SolarViewer.DrawScene | src/solar_viewer.cpp:383-527 | the members change as `ViewerModel.DrawScene` says (properties: `SceneFacts.SceneOrder`, `SceneFacts.SceneSound`) |
| ShaderProgram.CleanupCalls | src/shader.cpp:42-50 | cleanup deletes the program when `pid_` is nonzero and each nonzero stage, and issues no other call |
| ShaderProgram.CleanupGpu | src/shader.cpp:42-50 | after cleanup exactly the held handles are gone from the live set and the calls are recorded |
| ShaderProgram.CleanupIdempotent | src/shader.cpp:42-50 | a cleanup after a cleanup changes nothing |
| ShaderProgram.LoadAndCompile | src/shader.cpp:132-182 | an unreadable file or a missing shader object yields 0; a compile error deletes the new shader and throws; a compiled stage yields a fresh live id |
| ShaderProgram.CompileAndAttach | src/shader.cpp:78-95 | a stage that yields a shader is attached; the live set grows by exactly that shader; a compile error leaves nothing new |
| ShaderProgram.BuildProgram | src/shader.cpp:76-125 | it returns false exactly when a compiled stage fails, and throws exactly when all compile but the link fails. On either failure no handle is kept. New live names are fresh |
| ShaderProgram.Reload | src/shader.cpp:67-126 | the context stays consistent: live names positive and below the counter |
| ShaderReloadFacts.ReloadOutcome | src/shader.cpp:67-126 | `reload` returns false exactly on a compile error and throws exactly on a link failure. Otherwise it returns true; the fields are all 0 unless it returns true |
| ShaderReloadFacts.ReloadCleansFirst | src/shader.cpp:67-73 | `reload` starts with the cleanup's deletions and then creates the program; none of the old handles is alive afterwards |
| ShaderReloadFacts.BuildProgramSuccess | src/shader.cpp:98-125 | on success the handles are the program and each compiled stage; the geometry stage counts only with a geometry file; they are distinct and new |
| ShaderReloadFacts.ReloadSuccess | src/shader.cpp:117-125 | on success `reload` returns true, and the fields hold the new program and the stages that compiled. `gid_` is 0 without a geometry file. The handles are distinct |
| ShaderReloadFacts.ReloadLiveSplit | src/shader.cpp:67-125 | on success the live set is the old one minus the old handles plus the new program and stages |
| ShaderReloadFacts.ReloadOwns | src/shader.cpp:67-126 | whatever the outcome, the fields after `reload` name only live objects: none on failure, the new program and stages on success |
| ShaderReloadFacts.ReloadNoLeak | src/shader.cpp:117-125 | a successful reload owns exactly what it added, and it added nothing already alive |
| ShaderReloadFacts.ReloadTwiceNoGrowth | src/shader.cpp:67-125 | two successful reloads in a row leave as many live objects as one |
| ShaderReloadFacts.ReloadCompileErrorLeaks | src/shader.cpp:165-178 | as written: after a compile error the new program is still alive with no field holding it, and so is the vertex stage when it compiled before a later stage failed |
| ShaderReloadFacts.ReloadLinkFailureThrows | src/shader.cpp:99-115 | as written: a link failure throws, and the program and the compiled vertex stage stay alive with no field holding them |
| ShaderRelease.BuildReleasing | src/shader.cpp:76-125 | corrected build: the context stays consistent |
| ShaderRelease.ReloadReleasing | src/shader.cpp:67-126 | corrected reload: the context stays consistent |
| ShaderRelease.BuildReleasingFailure | src/shader.cpp:112-114 | corrected build: any failure returns false with no handles and only the program removed from the live set |
| ShaderRelease.BuildReleasingSuccess | src/shader.cpp:117-125 | corrected build: on success it is the build as written |
| ShaderRelease.ReloadReleasingNoLeak | src/shader.cpp:67-126 | the corrected reload never throws. It returns false exactly on a compile or link failure, and then the live set is the old one minus the old handles. On success it is the reload as written |
| Shaders.UploadCall | src/shader.hh:80-86 | each value goes through the overload for its type, at the given location; bools and ints go through `glUniform1i` |
| Shaders.UploadDelivers | src/shader.hh:80-86 | the call decodes back to the value that was sent, a bool as 0 or 1 |
| Shaders.SetUniformEffect | src/shader.hh:89-98 | without a program there is no call and no diagnostic. Otherwise the location is looked up first, and the diagnostic is printed exactly for a missing non-optional uniform. An upload happens exactly when the location is found, and it delivers the value there |
| Shaders.NoProgramNoUniforms | src/shader.hh:90 | with `pid_ == 0`, `set_uniform` does nothing at all |
| Shaders.Shader.constructor | src/shader.cpp:24-27 | all four handles start at 0 |
| Shaders.Shader.Cleanup | src/shader.cpp:42-50 | the context changes as `CleanupGpu` says and all four handles become 0, so the fields name only live objects (`Owns`) |
| Shaders.Shader.LoadAndCompile | src/shader.cpp:132-182 | the id, the context and the exception are those of `ShaderProgram.LoadAndCompile` |
| Shaders.Shader.CompileStage | src/shader.cpp:78-95 | compiles and attaches one stage as `CompileAndAttach` says |
| Shaders.Shader.Reload | src/shader.cpp:67-126 | the outcome, handles and context are those of `ShaderProgram.Reload`, with the geometry stage present exactly when `gfile_` is non-empty; afterwards the fields name only live objects (`Owns`), so the reload lemmas apply to the next call |
| Shaders.Shader.Build | src/shader.cpp:76-125 | the stages and link after the program exists, as `BuildProgram` says |
| Shaders.Shader.Load | src/shader.cpp:56-65 | the three paths are stored, the result is that of `reload`, and the fields name only live objects |
| Shaders.Shader.Use | src/shader.cpp:188-191 | the program is bound only when `pid_` is nonzero |
| Shaders.Shader.Disable | src/shader.cpp:197-200 | program 0 is always bound |
| Shaders.Shader.SetUniform | src/shader.hh:89-98 | the calls and the diagnostic are those of `SetUniformEffect` for the location the context reports |
| Flip.Index | src/texture.cpp:69-70 | the byte of channel c of pixel (x, y) is at (y·w + x)·4 + c, inside the image |
| Flip.Flipped | src/texture.cpp:66-73 | the flip keeps the buffer's length |
| Flip.MirrorFacts | src/texture.cpp:66-73 | the mirrored index stays inside the image, mirroring twice gives the index back, and with an even height it swaps the two halves |
| Flip.MirrorOfPixel | src/texture.cpp:69-70 | the byte swapped with (y, x, c) is (h - 1 - y, x, c) |
| Flip.FlippedPixels | src/texture.cpp:66-73 | after the flip every (y, x, c) holds the old (h - 1 - y, x, c), and bytes past w·h·4 are untouched |
| Flip.FlipTwice | src/texture.cpp:66-73 | flipping twice restores the buffer |
| SunGlow.AlphaByte | src/texture.cpp:134-151 | inner pixels are opaque (255), outer ones transparent (0) |
| SunGlow.FadeGreen | src/texture.cpp:144 | the green set in the fade zone is between 120 and 200 |
| SunGlow.Billboard | src/texture.cpp:100-102 | the billboard has 900·900·4 bytes |
| SunGlow.BillboardColours | src/texture.cpp:121-156 | every pixel has red 255 and blue 50; squared distance below 150² gives alpha 255, at least 450² gives alpha 0 |
| SunGlow.GreenBeforeFirstFade | src/texture.cpp:122-154 | green is 110 for every pixel before the first fade-zone pixel in row-major order |
| SunGlow.GreenFromLatestFade | src/texture.cpp:144-154 | a pixel's green is the value set at the most recent fade-zone pixel |
| SunGlow.GreenRange | src/texture.cpp:122-154 | every pixel's green is 110 or between 120 and 200 |
| SunGlow.FirstFadePixel | src/texture.cpp:126-145 | the first fade-zone pixel is number 900 + 421 (row 1, column 421), and every pixel before it keeps green 110 |
| Texturing.UploadCalls | src/texture.cpp:76-87 | the upload activates the unit, binds, sets both alignments to 1 and uploads the image. It generates a mipmap exactly when the min filter is `GL_LINEAR_MIPMAP_LINEAR` |
| Texturing.Texture.constructor | src/texture.cpp:20-23 | the texture starts with id 0 |
| Texturing.Texture.Init | src/texture.cpp:167-186 | unit, target and min filter are stored, a fresh texture name is created and bound, and the four parameters are set |
| Texturing.Texture.Bind | src/texture.cpp:192-197 | activates the unit and binds the texture; requires an id, as the source's assertion does |
| Texturing.Texture.Destroy | src/texture.cpp:29-32 | the texture is deleted only when it has an id |
| Texturing.Texture.UploadImage | src/texture.cpp:56-90 | without an id it returns false, and with an odd height it throws. In both cases the buffer and context are unchanged. Otherwise the buffer is flipped in place, the upload calls are issued on it and it returns true |
| Texturing.Texture.CreateSunBillboardTexture | src/texture.cpp:95-161 | fills the billboard, then uploads it flipped; returns true exactly when the texture has an id |
| Texturing.FillSunBillboard | src/texture.cpp:126-159 | the nested loops leave exactly the billboard in the buffer |
| Texturing.FillPixel | src/texture.cpp:129-157 | one iteration writes the pixel's four bytes and carries the green on |

## Left out

- Floating point: lengths, angles, the time step and the distance factor are reals. No `float` rounding is modelled, and `1.0f/24.0f` is the real 1/24.
- Trigonometry and matrices:
  - `rotate_x`, `rotate_y` and the billboard `atan2`/`asin` angles are function values that callers supply (`Geometry`);
  - `look_at` and `perspective` are recorded as events;
  - the modelview, projection and normal matrices are the uniform value `Computed`.
- `Planet`: its source is not part of this model.
  - `time_step` is taken to advance both angles by rate × dt.
  - The planets' start angles and positions come from their constructor and are inputs.
- `Ship`: `update_ship`, `accelerate` and `accelerate_angular` are functions that callers supply (`Env`). The ship's own constructor is taken to leave it at the origin facing +z at rest.
- Path, Frame, Sphere and billboard meshes are not modelled; their draws and `toggleParallelTransport`/`alignTo` are recorded as events.
  - The shader the path frame binds inside `Frame::draw` is not checked.
  - The path tangent is not computed.
- `ship_speed` in `timer` is unused by the code and is not modelled.
- `width_`, `height_` and `curve_display_mode_` have no initialiser, so they are constructor inputs. A mode outside 0..3 draws no overlay.
- `billboard_x_angle_` and `billboard_y_angle_` have no initialiser either (src/solar_viewer.hh:155-157). The model starts them at 0. Nothing reads them before `paint` sets them.
- `sun_animation_time`, a static local of `draw_scene`, is a member of the model state.
- `rand()` is the parameter `rnd`. `srand(0)` is not modelled.
- Console output, file reading (`std::ifstream`) and GLSL sources are not modelled. The info logs and `glCheckError` diagnostics are also left out, and `Texture::loadPNG` (PNG decoding) is not modelled.
- Each shader stage's fate (unreadable, no shader object, compile error, compiled) and the link status are inputs. The GL context is a set of live names, a counter and a trace of calls.
- `Shader::~Shader` runs `cleanup`; it is covered by `Shaders.Shader.Cleanup` and has no separate member.
- The `initialize` method, src/main.cpp, src/glfw_window.hh and src/billboard.hh hold window and buffer setup, and are not part of this model.
- Viewer.SolarViewer: the members are grouped into seven record fields rather than 24 separate fields. The states the methods reach are the same.
- Viewer.SolarViewer.Follow: this method and the other key helpers state their effect for `rnd = 0`, because only key R reads `rnd`.
- ViewerFacts.ReloadKey: the viewer records each of the four `reload()` calls of key J as a `ReloadShader` event. It does not model their outcomes. A link error escaping from an earlier reload (src/shader.cpp:110) would leave `keyboard` and skip the later reloads; the viewer does not model that. The reload outcomes themselves are modelled by `ShaderProgram.Reload` and `ShaderReloadFacts`.
- SceneFacts.SceneSound: it treats every `UseShader` event as binding that program. After a failed reload `pid_` is 0 and `use()` binds nothing (src/shader.cpp:188-191). The viewer model does not cover that case.
- `glCreateProgram` (src/shader.cpp:71) and `glGenTextures` (src/texture.cpp:178) never fail in the model: `Gl.Alloc` always hands out a positive name. `use`, `bind` and `uploadImage` would treat a 0 from either call as "no object". Only `glCreateShader` returning 0 is modelled (`NoShaderObject`).
- Shaders.Shader.Reload: it follows the code as written, including the two leaks under "## Findings". The corrected reload is `ShaderRelease.ReloadReleasing`.
- ShaderProgram.Reload: its own contract states only that the context stays consistent; what it does in each case is stated by the `ShaderReloadFacts` lemmas.
- Flip.Flipped: its own contract states only the length; the pixel mapping is `Flip.FlippedPixels`.

## Findings

| source | as written | input that shows it | evidently intended | confidence | as-written member | corrected member |
|---|---|---|---|---|---|---|
| src/shader.cpp:165-178 | a compile error deletes only the failing stage and returns false from the handler at src/shader.cpp:121-122; the program created at line 73 and any stage compiled before stay alive, held by no field | a reload whose vertex stage compiles and whose fragment stage fails to compile | the reload releases the program and the stages it created before returning false | not executed | ShaderReloadFacts.ReloadCompileErrorLeaks | ShaderRelease.ReloadReleasingNoLeak |
| src/shader.cpp:99-115 | a link failure throws `runtime_error`, which the handler at src/shader.cpp:121 does not catch; the `cleanup(); return false;` after the throw cannot run, and the program and stages stay alive | a reload whose stages compile and whose link fails | the reload releases what it created and returns false | not executed | ShaderReloadFacts.ReloadLinkFailureThrows | ShaderRelease.ReloadReleasingNoLeak |
