/**
 * The state of `Solar_viewer` (src/solar_viewer.hh) as a value, and what each
 * of its callbacks does to it (src/solar_viewer.cpp): `keyboard`, `timer`,
 * `update_body_positions`, `randomize_planets`, `resize`, `paint` and
 * `draw_scene`. GL calls, ship and path-frame calls and shader reloads are
 * appended to an event trace; what the ship, the rotations and the billboard
 * angles compute is supplied from outside (`Env`).
 */
module ViewerModel {
  import opened Wrappers
  import opened Vectors
  import opened Bodies

  // ----- GLFW constants --------------------------------------------------------

  const Release: int := 0
  const Press: int := 1
  const Repeat: int := 2

  const KeySpace: int := 32
  const KeyMinus: int := 45
  const Key1: int := 49
  const Key6: int := 54
  const Key7: int := 55
  const Key8: int := 56
  const Key9: int := 57
  const KeyEqual: int := 61
  const KeyA: int := 65
  const KeyC: int := 67
  const KeyD: int := 68
  const KeyG: int := 71
  const KeyJ: int := 74
  const KeyM: int := 77
  const KeyP: int := 80
  const KeyR: int := 82
  const KeyS: int := 83
  const KeyT: int := 84
  const KeyW: int := 87
  const KeyEscape: int := 256
  const KeyRight: int := 262
  const KeyLeft: int := 263
  const KeyDown: int := 264
  const KeyUp: int := 265
  const KeyKpSubtract: int := 333
  const KeyKpAdd: int := 334

  // ----- the curve display mode --------------------------------------------------

  const CurveNone: int := 0
  const CurvePath: int := 1
  const CurvePathCp: int := 2
  const CurvePathFrame: int := 3
  const CurveModes: int := 4

  /** C's `%`, which truncates toward zero: the result takes the sign of `a`. */
  function CRem(a: int, b: int): (r: int)
    requires b > 0
    ensures -b < r < b
    ensures a >= 0 ==> r == a % b
    ensures a < 0 ==> r <= 0
  {
    if a >= 0 then a % b else -((-a) % b)
  }

  /** The C key: the mode cast to int, plus one, modulo the number of modes. */
  function NextMode(m: int): int {
    CRem(m + 1, CurveModes)
  }

  // ----- camera constants ------------------------------------------------------------

  const Fovy: real := 45.0
  const Near: real := 0.01
  const Far: real := 20.0

  // ----- the state ------------------------------------------------------------------

  /** The spaceship's public state (src/ship.hh). */
  datatype Ship = Ship(pos: Vec4, angle: real, direction: Vec4, speed: real, angularSpeed: real)

  /** A default-constructed ship. */
  const InitialShip: Ship := Ship(Origin, 0.0, Vec4(0.0, 0.0, 1.0, 0.0), 0.0, 0.0)

  /**
   * What the core calls but the model does not compute: the rotations and
   * billboard angles, and the ship's `update_ship`, `accelerate` and
   * `accelerate_angular`.
   */
  datatype Env = Env(
    geo: Geometry,
    updateShip: Ship -> Ship,
    accelerate: (Ship, real) -> Ship,
    accelerateAngular: (Ship, real) -> Ship)

  /** The shader programs the viewer owns. */
  datatype ShaderName = ColorShader | PhongShader | EarthShader | SunShader | SolidColorShader

  /** What is drawn. */
  datatype Object =
    | PathFrame | ControlPolygon | PathCurve
    | Celestial(body: BodyName) | StarSphere | Spaceship | Halo

  /** A uniform's value; `Computed` stands for the matrices and the view-space
      light position, which are floating-point products the model leaves out. */
  datatype Arg = Computed | IntArg(i: int) | RealArg(r: real) | ColorArg(c: Vec4)

  /** What the viewer asks of GL and of its collaborators, in order. */
  datatype Event =
    | ToggleParallelTransport
    | AlignFrameToTangent(param: real)
    | ReloadShader(shader: ShaderName)
    | CloseWindow
    | Viewport(width: int, height: int)
    | Clear
    | LookAt(eye: Vec4, center: Vec4, up: Vec4)
    | Perspective(fovy: real, width: int, height: int, near: real, far: real)
    | UseShader(shader: ShaderName)
    | SetUniform(shader: ShaderName, name: string, arg: Arg, optional: bool)
    | BindTexture(obj: Object)
    | Draw(obj: Object)
    | EnableBlend
    | BlendFunc
    | DisableBlend
    | CheckError

  /**
   * The `Solar_viewer` members the core reads or writes. `target` is
   * `planet_to_look_at_` (None for the null pointer); `sunTime` is the static
   * `sun_animation_time` of `draw_scene`.
   */
  datatype State = State(
    sun: Planet, mercury: Planet, venus: Planet, earth: Planet, moon: Planet, mars: Planet,
    stars: Planet,
    ship: Ship,
    timerActive: bool, timeStep: real, greyscale: bool,
    curveMode: int, shipPathParam: real,
    target: Option<BodyName>, xAngle: real, yAngle: real, distFactor: real, inShip: bool,
    billboardX: real, billboardY: real,
    width: int, height: int,
    sunTime: real,
    trace: seq<Event>)

  function Body(s: State, b: BodyName): Planet {
    match b
    case Sun => s.sun
    case Mercury => s.mercury
    case Venus => s.venus
    case Earth => s.earth
    case Moon => s.moon
    case Mars => s.mars
  }

  /**
   * The state after construction. The planets' own constructor is not part
   * of this model, so their start angles and positions are inputs; so are the
   * curve mode and the viewport size, which nothing initialises.
   */
  function Init(start: BodyName -> Pose, starsPose: Pose, mode: int, width: int, height: int): State {
    var sun := InitialPlanet(Sun, start(Sun));
    var distFactor := 9.0;
    State(
      sun, InitialPlanet(Mercury, start(Mercury)), InitialPlanet(Venus, start(Venus)),
      InitialPlanet(Earth, start(Earth)), InitialPlanet(Moon, start(Moon)),
      InitialPlanet(Mars, start(Mars)), InitialStars(starsPose),
      InitialShip.(pos := Sub(sun.pos, Vec4(0.0, 0.0, distFactor * sun.radius, 0.0)),
                   direction := Vec4(0.0, 0.0, 1.0, 0.0)),
      true, 1.0 / 24.0, false,
      mode, 0.0,
      Some(Sun), -90.0, 0.0, distFactor, false,
      0.0, 0.0,
      width, height,
      0.0,
      [])
  }

  // ----- update_body_positions, timer, randomize_planets ----------------------------

  /** The sun to the origin, the four planets around it, then the moon around
      the earth's new position. */
  function UpdateBodyPositions(geo: Geometry, s: State): State {
    var sun := s.sun.(pos := Origin);
    var mercury := s.mercury.(pos := PlaceOrbiting(geo, s.mercury, sun.pos));
    var venus := s.venus.(pos := PlaceOrbiting(geo, s.venus, sun.pos));
    var earth := s.earth.(pos := PlaceOrbiting(geo, s.earth, sun.pos));
    var mars := s.mars.(pos := PlaceOrbiting(geo, s.mars, sun.pos));
    var moon := s.moon.(pos := PlaceOrbiting(geo, s.moon, earth.pos));
    s.(sun := sun, mercury := mercury, venus := venus, earth := earth, mars := mars, moon := moon)
  }

  /** One animation tick: when the timer is active, step the six bodies,
      place them, update the ship, reset the path parameter and align the
      path frame with the tangent there. */
  function Timer(env: Env, s: State): State {
    if !s.timerActive then s
    else
      var dt := s.timeStep;
      var stepped := s.(
        sun := TimeStep(s.sun, dt), mercury := TimeStep(s.mercury, dt),
        venus := TimeStep(s.venus, dt), earth := TimeStep(s.earth, dt),
        moon := TimeStep(s.moon, dt), mars := TimeStep(s.mars, dt));
      var placed := UpdateBodyPositions(env.geo, stepped);
      placed.(ship := env.updateShip(placed.ship), shipPathParam := 0.0,
              trace := placed.trace + [AlignFrameToTangent(0.0)])
  }

  /** `randomize_planets`, `rnd` being what `rand()` returned: one tick with a
      step of `rnd % 20000` days, then the saved step back. */
  function Randomize(env: Env, s: State, rnd: nat): State {
    var saved := s.timeStep;
    Timer(env, s.(timeStep := (rnd % 20000) as real)).(timeStep := saved)
  }

  // ----- keyboard --------------------------------------------------------------------

  /** The `switch (key)` of `keyboard`. */
  function KeyCommand(env: Env, s: State, key: int, rnd: nat): State {
    if key == Key7 then s.(target := None, inShip := true)
    else if key == Key8 then
      s.(distFactor := if 2.5 < s.distFactor - 0.1 then s.distFactor - 0.1 else 2.5)
    else if key == Key9 then
      s.(distFactor := if s.distFactor + 0.1 < 20.0 then s.distFactor + 0.1 else 20.0)
    else if key == KeyR then Randomize(env, s, rnd)
    else if key == KeyG then s.(greyscale := !s.greyscale)
    else if key == KeyW then (if s.inShip then s.(ship := env.accelerate(s.ship, 0.001)) else s)
    else if key == KeyS then (if s.inShip then s.(ship := env.accelerate(s.ship, -0.001)) else s)
    else if key == KeyA then (if s.inShip then s.(ship := env.accelerateAngular(s.ship, 0.02)) else s)
    else if key == KeyD then (if s.inShip then s.(ship := env.accelerateAngular(s.ship, -0.02)) else s)
    else if key == KeyC then s.(curveMode := NextMode(s.curveMode))
    else if key == KeyT then s.(trace := s.trace + [ToggleParallelTransport])
    else if key == KeyLeft then s.(yAngle := s.yAngle - 10.0)
    else if key == KeyRight then s.(yAngle := s.yAngle + 10.0)
    else if key == KeyDown then s.(xAngle := s.xAngle + 10.0)
    else if key == KeyUp then s.(xAngle := s.xAngle - 10.0)
    else if key == KeySpace then s.(timerActive := !s.timerActive)
    else if key == KeyP || key == KeyKpAdd || key == KeyEqual then s.(timeStep := s.timeStep * 2.0)
    else if key == KeyM || key == KeyKpSubtract || key == KeyMinus then s.(timeStep := s.timeStep * 0.5)
    else if key == KeyJ then
      s.(trace := s.trace + [ReloadShader(ColorShader), ReloadShader(PhongShader),
                             ReloadShader(EarthShader), ReloadShader(SunShader)])
    else if key == KeyEscape then s.(trace := s.trace + [CloseWindow])
    else s
  }

  /** `keyboard`: only presses and repeats act; keys 1 to 6 first select a body. */
  function Keyboard(env: Env, s: State, key: int, action: int, rnd: nat): State {
    if action != Press && action != Repeat then s
    else
      var selected := if Key1 <= key <= Key6 then s.(inShip := false, target := Some(BodyAt(key - Key1))) else s;
      KeyCommand(env, selected, key, rnd)
  }

  // ----- resize, paint ---------------------------------------------------------------

  function Resize(s: State, width: int, height: int): State {
    s.(width := width, height := height, trace := s.trace + [Viewport(width, height)])
  }

  datatype Camera = Camera(eye: Vec4, center: Vec4, up: Vec4)

  const Up: Vec4 := Vec4(0.0, 1.0, 0.0, 0.0)

  /** The camera `paint` computes: behind the ship, around the target, or the
      default view of the sun, in that order of priority. */
  function CameraOf(geo: Geometry, s: State): Camera {
    if s.inShip then
      Camera(Add(Sub(s.ship.pos, Scale(2.0, s.ship.direction)), Vec4(0.0, 0.5, 0.0, 0.0)), s.ship.pos, Up)
    else if s.target.Some? then
      var b := Body(s, s.target.value);
      Camera(LockedEye(geo, s.xAngle, s.yAngle, Mul(s.distFactor, b.radius), b.pos), b.pos, Up)
    else
      Camera(Vec4(0.0, 0.0, 7.0, 1.0), s.sun.pos, Up)
  }

  /** The eye of the locked branch: `dist` (the distance factor times the
      body's radius) in front of `center`, turned about it by the x and then
      the y angle. */
  function LockedEye(geo: Geometry, xAngle: real, yAngle: real, dist: real, center: Vec4): Vec4 {
    var eye := Add(center, Vec4(0.0, 0.0, dist, 0.0));
    Add(geo.rotY(yAngle, geo.rotX(xAngle, Sub(eye, center))), center)
  }

  /** `paint`: clear, set up the view and the projection, orient the glow
      billboard towards the eye, then `draw_scene`. */
  function Paint(env: Env, s: State): State {
    var cam := CameraOf(env.geo, s);
    var toEye := Sub(cam.eye, s.sun.pos);
    var viewed := s.(
      trace := s.trace + [Clear, LookAt(cam.eye, cam.center, cam.up),
                          Perspective(Fovy, s.width, s.height, Near, Far)],
      billboardY := env.geo.yaw(toEye), billboardX := env.geo.pitch(toEye));
    DrawScene(viewed)
  }

  // ----- draw_scene ------------------------------------------------------------------

  function Uniform(sh: ShaderName, name: string, arg: Arg): Event {
    SetUniform(sh, name, arg, false)
  }

  /** The matrix, texture unit and greyscale uniforms most objects set. */
  function Textured(sh: ShaderName, grey: bool): seq<Event> {
    [Uniform(sh, "modelview_projection_matrix", Computed), Uniform(sh, "tex", IntArg(0)),
     Uniform(sh, "greyscale", IntArg(if grey then 1 else 0))]
  }

  /** Use a program, set uniforms, bind the object's texture and draw it. */
  function Pass(sh: ShaderName, uniforms: seq<Event>, o: Object): seq<Event> {
    [UseShader(sh)] + uniforms + [BindTexture(o), Draw(o)]
  }

  /** An overlay curve in a solid colour. */
  function CurvePass(color: Vec4, o: Object): seq<Event> {
    [UseShader(SolidColorShader), Uniform(SolidColorShader, "modelview_projection_matrix", Computed),
     Uniform(SolidColorShader, "color", ColorArg(color)), Draw(o)]
  }

  /** The overlay `switch`: each case falls through into the next. */
  function Overlays(mode: int): seq<Event> {
    (if mode == CurvePathFrame then [Draw(PathFrame)] else [])
    + (if mode == CurvePathFrame || mode == CurvePathCp
       then CurvePass(Vec4(0.8, 0.8, 0.8, 1.0), ControlPolygon) else [])
    + (if mode == CurvePathFrame || mode == CurvePathCp || mode == CurvePath
       then CurvePass(Vec4(1.0, 0.0, 0.0, 1.0), PathCurve) else [])
  }

  function PlanetPass(b: BodyName, grey: bool): seq<Event> {
    Pass(PhongShader,
         Textured(PhongShader, grey)
         + [Uniform(PhongShader, "modelview_matrix", Computed), Uniform(PhongShader, "normal_matrix", Computed),
            Uniform(PhongShader, "light_position", Computed)],
         Celestial(b))
  }

  function SunPass(t: real, grey: bool): seq<Event> {
    Pass(SunShader,
         [Uniform(SunShader, "modelview_projection_matrix", Computed),
          SetUniform(SunShader, "t", RealArg(t), true),
          Uniform(SunShader, "tex", IntArg(0)),
          Uniform(SunShader, "greyscale", IntArg(if grey then 1 else 0))],
         Celestial(Sun))
  }

  /** The glow billboard, the only draw with blending on. */
  function HaloPass(grey: bool): seq<Event> {
    [EnableBlend, UseShader(ColorShader)] + Textured(ColorShader, grey)
    + [BlendFunc, BindTexture(Halo), Draw(Halo), DisableBlend]
  }

  /** The commands of one `draw_scene` call, the sun's time already advanced. */
  function SceneEvents(s: State): seq<Event> {
    Overlays(s.curveMode)
    + SunPass(s.sunTime, s.greyscale)
    + Pass(ColorShader, Textured(ColorShader, s.greyscale), StarSphere)
    + PlanetPass(Mercury, s.greyscale) + PlanetPass(Venus, s.greyscale)
    + PlanetPass(Mars, s.greyscale) + PlanetPass(Earth, s.greyscale) + PlanetPass(Moon, s.greyscale)
    + Pass(ColorShader, Textured(ColorShader, s.greyscale), Spaceship)
    + HaloPass(s.greyscale)
    + [CheckError]
  }

  /** `draw_scene`: the sun's animation time advances by 0.01 when the timer
      is active, then the scene's commands are issued. */
  function DrawScene(s: State): State {
    var t := s.(sunTime := if s.timerActive then s.sunTime + 0.01 else s.sunTime);
    t.(trace := t.trace + SceneEvents(t))
  }

  // ----- a run of callbacks ------------------------------------------------------------

  /** One callback the window driver makes. */
  datatype Input = KeyInput(key: int, action: int, rnd: nat) | Tick | Repaint | Resized(width: int, height: int)

  function Handle(env: Env, s: State, i: Input): State {
    match i
    case KeyInput(key, action, rnd) => Keyboard(env, s, key, action, rnd)
    case Tick => Timer(env, s)
    case Repaint => Paint(env, s)
    case Resized(w, h) => Resize(s, w, h)
  }

  function Session(env: Env, s: State, inputs: seq<Input>): State
    decreases |inputs|
  {
    if inputs == [] then s else Session(env, Handle(env, s, inputs[0]), inputs[1..])
  }
}
