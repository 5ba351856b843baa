/**
 * `Solar_viewer` as an object (src/solar_viewer.hh, src/solar_viewer.cpp):
 * the members its callbacks update in place, and each callback as a method
 * proved to leave the object in the state the corresponding function of
 * `ViewerModel` computes from the state before the call.
 */
module Viewer {
  import opened Wrappers
  import opened Vectors
  import opened Bodies
  import opened ViewerModel

  /** The seven `Planet` members. */
  datatype Planets = Planets(
    sun: Planet, mercury: Planet, venus: Planet, earth: Planet, moon: Planet, mars: Planet,
    stars: Planet)

  /** What the animation timer reads and writes: `timer_active_`, `time_step_`,
      `ship_path_param_` and the static animation time of `draw_scene`. */
  datatype Animation = Animation(timerActive: bool, timeStep: real, shipPathParam: real, sunTime: real)

  /** How the scene is drawn: `greyscale_`, `curve_display_mode_` and the two
      billboard angles. */
  datatype Display = Display(greyscale: bool, curveMode: int, billboardX: real, billboardY: real)

  /** Where the camera is: `planet_to_look_at_`, the two angles about it, the
      distance factor and `in_ship_`. */
  datatype View = View(target: Option<BodyName>, xAngle: real, yAngle: real, distFactor: real, inShip: bool)

  /** `width_` and `height_`. */
  datatype Extent = Extent(width: int, height: int)

  class SolarViewer {
    /** The rotations, billboard angles and ship updates the viewer calls. */
    const env: Env

    var planets: Planets
    var ship: Ship
    var animation: Animation
    var display: Display
    var view: View
    var extent: Extent
    /** The calls made so far to GL and to the collaborators. */
    var trace: seq<Event>

    /** The object's members as a value. */
    function Value(): State
      reads this
    {
      State(planets.sun, planets.mercury, planets.venus, planets.earth, planets.moon, planets.mars,
            planets.stars, ship,
            animation.timerActive, animation.timeStep, display.greyscale, display.curveMode,
            animation.shipPathParam,
            view.target, view.xAngle, view.yAngle, view.distFactor, view.inShip,
            display.billboardX, display.billboardY,
            extent.width, extent.height, animation.sunTime, trace)
    }

    /** The constructor with the member initialisers of the class: the sun
        targeted from 9 radii at angles -90 and 0, the timer running at one
        hour per tick, and the ship 9 sun radii in front of the sun. */
    constructor (env: Env, start: BodyName -> Pose, starsPose: Pose, mode: int, width: int, height: int)
      ensures this.env == env
      ensures Value() == Init(start, starsPose, mode, width, height)
    {
      this.env := env;
      planets := Planets(
        InitialPlanet(Sun, start(Sun)), InitialPlanet(Mercury, start(Mercury)),
        InitialPlanet(Venus, start(Venus)), InitialPlanet(Earth, start(Earth)),
        InitialPlanet(Moon, start(Moon)), InitialPlanet(Mars, start(Mars)),
        InitialStars(starsPose));
      view := View(Some(Sun), -90.0, 0.0, 9.0, false);
      display := Display(false, mode, 0.0, 0.0);
      extent := Extent(width, height);
      trace := [];
      animation := Animation(true, 1.0 / 24.0, 0.0, 0.0);
      var looked := InitialPlanet(Sun, start(Sun));
      var placed := InitialShip.(pos := Sub(looked.pos, Vec4(0.0, 0.0, 9.0 * looked.radius, 0.0)));
      ship := placed.(direction := Vec4(0.0, 0.0, 1.0, 0.0));
    }

    /** `keyboard`: presses and repeats only; keys 1 to 6 select a body before
        the `switch`. */
    method Keyboard(key: int, action: int, rnd: nat)
      modifies this
      ensures Value() == ViewerModel.Keyboard(env, old(Value()), key, action, rnd)
    {
      if action == Press || action == Repeat {
        if Key1 <= key <= Key6 {
          view := view.(inShip := false, target := Some(BodyAt(key - Key1)));
        }
        KeyCommand(key, rnd);
      }
    }

    /** The `switch (key)` of `keyboard`, its cases gathered by the members
        they change. */
    method KeyCommand(key: int, rnd: nat)
      modifies this
      ensures Value() == ViewerModel.KeyCommand(env, old(Value()), key, rnd)
    {
      if key == Key7 || key == Key8 || key == Key9 {
        Follow(key);
      } else if key == KeyR {
        RandomizePlanets(rnd);
      } else if key == KeyW || key == KeyS || key == KeyA || key == KeyD {
        SteerShip(key);
      } else if key == KeyLeft || key == KeyRight || key == KeyDown || key == KeyUp {
        Turn(key);
      } else if key == KeyG || key == KeyC || key == KeySpace {
        Toggle(key);
      } else if key == KeyP || key == KeyKpAdd || key == KeyEqual || key == KeyM || key == KeyKpSubtract || key == KeyMinus {
        ChangeSpeed(key);
      } else if key == KeyT {
        trace := trace + [ToggleParallelTransport];
      } else if key == KeyJ {
        trace := trace + [ReloadShader(ColorShader), ReloadShader(PhongShader),
                          ReloadShader(EarthShader), ReloadShader(SunShader)];
      } else if key == KeyEscape {
        trace := trace + [CloseWindow];
      }
    }

    /** 7 follows the ship; 8 and 9 move the eye closer or farther, between
        2.5 and 20 radii. (Only R reads `rnd`, so these helpers pass 0.) */
    method Follow(key: int)
      requires key == Key7 || key == Key8 || key == Key9
      modifies this
      ensures Value() == ViewerModel.KeyCommand(env, old(Value()), key, 0)
    {
      if key == Key7 {
        view := view.(target := None, inShip := true);
      } else if key == Key8 {
        var d := view.distFactor - 0.1;
        view := view.(distFactor := if 2.5 < d then d else 2.5);
      } else {
        var d := view.distFactor + 0.1;
        view := view.(distFactor := if d < 20.0 then d else 20.0);
      }
    }

    /** G switches greyscale, C the curve display mode, space the timer. */
    method Toggle(key: int)
      requires key == KeyG || key == KeyC || key == KeySpace
      modifies this
      ensures Value() == ViewerModel.KeyCommand(env, old(Value()), key, 0)
    {
      if key == KeyG {
        display := display.(greyscale := !display.greyscale);
      } else if key == KeyC {
        display := display.(curveMode := NextMode(display.curveMode));
      } else {
        animation := animation.(timerActive := !animation.timerActive);
      }
    }

    /** P, keypad + and = double the time step; M, keypad - and - halve it. */
    method ChangeSpeed(key: int)
      requires key == KeyP || key == KeyKpAdd || key == KeyEqual || key == KeyM || key == KeyKpSubtract || key == KeyMinus
      modifies this
      ensures Value() == ViewerModel.KeyCommand(env, old(Value()), key, 0)
    {
      if key == KeyP || key == KeyKpAdd || key == KeyEqual {
        animation := animation.(timeStep := animation.timeStep * 2.0);
      } else {
        animation := animation.(timeStep := animation.timeStep * 0.5);
      }
    }

    /** W, S, A and D: accelerate or turn the ship, only when following it. */
    method SteerShip(key: int)
      requires key == KeyW || key == KeyS || key == KeyA || key == KeyD
      modifies this
      ensures Value() == ViewerModel.KeyCommand(env, old(Value()), key, 0)
    {
      if view.inShip {
        if key == KeyW {
          ship := env.accelerate(ship, 0.001);
        } else if key == KeyS {
          ship := env.accelerate(ship, -0.001);
        } else if key == KeyA {
          ship := env.accelerateAngular(ship, 0.02);
        } else {
          ship := env.accelerateAngular(ship, -0.02);
        }
      }
    }

    /** The arrow keys: turn the view about the target by 10 degrees. */
    method Turn(key: int)
      requires key == KeyLeft || key == KeyRight || key == KeyDown || key == KeyUp
      modifies this
      ensures Value() == ViewerModel.KeyCommand(env, old(Value()), key, 0)
    {
      if key == KeyLeft {
        view := view.(yAngle := view.yAngle - 10.0);
      } else if key == KeyRight {
        view := view.(yAngle := view.yAngle + 10.0);
      } else if key == KeyDown {
        view := view.(xAngle := view.xAngle + 10.0);
      } else {
        view := view.(xAngle := view.xAngle - 10.0);
      }
    }

    /** `update_body_positions`: the sun to the origin, the four planets
        around it, the moon around the earth's new position. */
    method UpdateBodyPositions()
      modifies this
      ensures Value() == ViewerModel.UpdateBodyPositions(env.geo, old(Value()))
    {
      var p := planets;
      p := p.(sun := p.sun.(pos := Origin));
      p := p.(mercury := p.mercury.(pos := PlaceOrbiting(env.geo, p.mercury, p.sun.pos)));
      p := p.(venus := p.venus.(pos := PlaceOrbiting(env.geo, p.venus, p.sun.pos)));
      p := p.(earth := p.earth.(pos := PlaceOrbiting(env.geo, p.earth, p.sun.pos)));
      p := p.(mars := p.mars.(pos := PlaceOrbiting(env.geo, p.mars, p.sun.pos)));
      p := p.(moon := p.moon.(pos := PlaceOrbiting(env.geo, p.moon, p.earth.pos)));
      planets := p;
    }

    /** `timer`. */
    method Timer()
      modifies this
      ensures Value() == ViewerModel.Timer(env, old(Value()))
    {
      if animation.timerActive {
        var dt := animation.timeStep;
        planets := planets.(
          sun := TimeStep(planets.sun, dt), mercury := TimeStep(planets.mercury, dt),
          venus := TimeStep(planets.venus, dt), earth := TimeStep(planets.earth, dt),
          moon := TimeStep(planets.moon, dt), mars := TimeStep(planets.mars, dt));
        UpdateBodyPositions();
        ship := env.updateShip(ship);
        animation := animation.(shipPathParam := 0.0);
        trace := trace + [AlignFrameToTangent(animation.shipPathParam)];
      }
    }

    /** `randomize_planets`, `rnd` being what `rand()` returns: save the time
        step, tick once with `rnd % 20000` days, restore the step. */
    method RandomizePlanets(rnd: nat)
      modifies this
      ensures Value() == Randomize(env, old(Value()), rnd)
    {
      var saved := animation.timeStep;
      animation := animation.(timeStep := (rnd % 20000) as real);
      Timer();
      animation := animation.(timeStep := saved);
    }

    /** `resize`. */
    method Resize(w: int, h: int)
      modifies this
      ensures Value() == ViewerModel.Resize(old(Value()), w, h)
    {
      extent := Extent(w, h);
      trace := trace + [Viewport(w, h)];
    }

    /** `paint`: the camera, the view and projection, the billboard angles,
        then `draw_scene`. */
    method Paint()
      modifies this
      ensures Value() == ViewerModel.Paint(env, old(Value()))
    {
      var eye, center, up := Vec4(0.0, 0.0, 0.0, 0.0), Vec4(0.0, 0.0, 0.0, 0.0), Up;
      if view.inShip {
        eye := Add(Sub(ship.pos, Scale(2.0, ship.direction)), Vec4(0.0, 0.5, 0.0, 0.0));
        center := ship.pos;
      } else if view.target.Some? {
        var looked := Body(Value(), view.target.value);
        center := looked.pos;
        eye := Add(center, Vec4(0.0, 0.0, Mul(view.distFactor, looked.radius), 0.0));
        eye := Add(env.geo.rotY(view.yAngle, env.geo.rotX(view.xAngle, Sub(eye, center))), center);
      } else {
        center := planets.sun.pos;
        eye := Vec4(0.0, 0.0, 7.0, 1.0);
      }
      assert Camera(eye, center, up) == CameraOf(env.geo, old(Value()));
      trace := trace + [Clear, LookAt(eye, center, up), Perspective(Fovy, extent.width, extent.height, Near, Far)];
      var toCam := Sub(eye, planets.sun.pos);
      display := display.(billboardY := env.geo.yaw(toCam));
      display := display.(billboardX := env.geo.pitch(toCam));
      DrawScene();
    }

    /** `draw_scene`: the sun's animation time advances when the timer is
        active, then the scene is drawn. */
    method DrawScene()
      modifies this
      ensures Value() == ViewerModel.DrawScene(old(Value()))
    {
      if animation.timerActive {
        animation := animation.(sunTime := animation.sunTime + 0.01);
      }
      var drawn := Value();
      assert drawn.trace == old(Value()).trace;
      trace := trace + SceneEvents(drawn);
    }
  }
}
