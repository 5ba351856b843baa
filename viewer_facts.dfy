/**
 * What `keyboard`, `timer`, `randomize_planets` and `paint` guarantee about
 * the viewer's state (src/solar_viewer.cpp, src/solar_viewer.hh).
 */
module ViewerFacts {
  import opened Wrappers
  import opened Vectors
  import opened Bodies
  import opened ViewerModel

  /**
   * What every callback keeps: the ship is followed exactly when no body is
   * targeted, the zoom factor stays in [2.5, 20] and the time step positive.
   */
  predicate Inv(s: State) {
    && (s.inShip <==> s.target == None)
    && 2.5 <= s.distFactor <= 20.0
    && s.timeStep > 0.0
  }

  // ----- the initial state -------------------------------------------------------

  /** The viewer starts looking at the sun from 9 radii, not in the ship, with
      the timer running one hour per tick; that state satisfies `Inv`. */
  lemma InitialState(start: BodyName -> Pose, starsPose: Pose, mode: int, width: int, height: int)
    ensures var s := Init(start, starsPose, mode, width, height);
      && s.target == Some(Sun) && !s.inShip && s.distFactor == 9.0
      && s.xAngle == -90.0 && s.yAngle == 0.0 && s.shipPathParam == 0.0
      && s.timerActive && s.timeStep == 1.0 / 24.0 && !s.greyscale
      && s.curveMode == mode && s.trace == []
      && s.ship.pos == Vec4(start(Sun).pos.x, start(Sun).pos.y, start(Sun).pos.z - 9.0, start(Sun).pos.w)
      && s.ship.direction == Vec4(0.0, 0.0, 1.0, 0.0)
      && Inv(s)
  {
  }

  // ----- keyboard ------------------------------------------------------------------

  /** A release (or any action other than press and repeat) changes nothing. */
  lemma OnlyPressesAct(env: Env, s: State, key: int, action: int, rnd: nat)
    requires action != Press && action != Repeat
    ensures Keyboard(env, s, key, action, rnd) == s
  {
  }

  /** Keys 1 to 6 leave the ship and look at the sun, mercury, venus, earth,
      moon and mars in that order; key 7 follows the ship and drops the target. */
  lemma SelectionKeys(env: Env, s: State, key: int, action: int, rnd: nat)
    requires action == Press || action == Repeat
    ensures Key1 <= key <= Key6 ==>
      Keyboard(env, s, key, action, rnd)
        == s.(inShip := false, target := Some([Sun, Mercury, Venus, Earth, Moon, Mars][key - Key1]))
    ensures key == Key7 ==> Keyboard(env, s, key, action, rnd) == s.(target := None, inShip := true)
  {
  }

  /** W, S, A and D reach the ship only while it is followed. */
  lemma ShipKeys(env: Env, s: State, key: int, action: int, rnd: nat)
    requires action == Press || action == Repeat
    requires key == KeyW || key == KeyS || key == KeyA || key == KeyD
    ensures var r := Keyboard(env, s, key, action, rnd);
      && (!s.inShip ==> r == s)
      && (s.inShip ==> r == s.(ship := r.ship))
      && (s.inShip && key == KeyW ==> r.ship == env.accelerate(s.ship, 0.001))
      && (s.inShip && key == KeyS ==> r.ship == env.accelerate(s.ship, -0.001))
      && (s.inShip && key == KeyA ==> r.ship == env.accelerateAngular(s.ship, 0.02))
      && (s.inShip && key == KeyD ==> r.ship == env.accelerateAngular(s.ship, -0.02))
  {
  }

  /** Key 8 never zooms in closer than 2.5, key 9 never out beyond 20, from
      any factor; each moves by 0.1 when that stays inside and stops at the
      bound otherwise. */
  lemma ZoomKeys(env: Env, s: State, action: int, rnd: nat)
    requires action == Press || action == Repeat
    ensures var r := Keyboard(env, s, Key8, action, rnd);
      && 2.5 <= r.distFactor && r == s.(distFactor := r.distFactor)
      && (s.distFactor - 0.1 > 2.5 ==> r.distFactor == s.distFactor - 0.1)
      && (s.distFactor - 0.1 <= 2.5 ==> r.distFactor == 2.5)
    ensures var r := Keyboard(env, s, Key9, action, rnd);
      && r.distFactor <= 20.0 && r == s.(distFactor := r.distFactor)
      && (s.distFactor + 0.1 < 20.0 ==> r.distFactor == s.distFactor + 0.1)
      && (s.distFactor + 0.1 >= 20.0 ==> r.distFactor == 20.0)
  {
  }

  /** The curve modes in cycle order. */
  lemma ModeCycle()
    ensures NextMode(CurveNone) == CurvePath && NextMode(CurvePath) == CurvePathCp
    ensures NextMode(CurvePathCp) == CurvePathFrame && NextMode(CurvePathFrame) == CurveNone
  {
  }

  /** Four C presses bring a valid mode back; from any value, even one never
      initialised, one press lands in (-4, 4) and four presses in [0, 4). */
  lemma FourPressesCycle(m: int)
    ensures -CurveModes < NextMode(m) < CurveModes
    ensures 0 <= NextMode(NextMode(NextMode(NextMode(m)))) < CurveModes
    ensures 0 <= m < CurveModes ==> NextMode(NextMode(NextMode(NextMode(m)))) == m
  {
    var a := NextMode(m);
    if a < 0 {
      assert NextMode(a) == a + 1;
      assert NextMode(a + 1) == a + 2 || a + 2 >= 0;
    }
  }

  lemma CurveKey(env: Env, s: State, action: int, rnd: nat)
    requires action == Press || action == Repeat
    ensures Keyboard(env, s, KeyC, action, rnd) == s.(curveMode := NextMode(s.curveMode))
  {
  }

  /** P, keypad + and = double the time step; M, keypad - and - halve it;
      halving undoes doubling; from one hour (1/24 day) a doubling gives 1/12. */
  lemma TimeStepKeys(env: Env, s: State, action: int, rnd: nat)
    requires action == Press || action == Repeat
    ensures forall key | key in {KeyP, KeyKpAdd, KeyEqual} ::
      Keyboard(env, s, key, action, rnd) == s.(timeStep := 2.0 * s.timeStep)
    ensures forall key | key in {KeyM, KeyKpSubtract, KeyMinus} ::
      Keyboard(env, s, key, action, rnd) == s.(timeStep := s.timeStep / 2.0)
    ensures Keyboard(env, Keyboard(env, s, KeyP, action, rnd), KeyM, action, rnd) == s
    ensures s.timeStep == 1.0 / 24.0 ==> Keyboard(env, s, KeyP, action, rnd).timeStep == 1.0 / 12.0
  {
    var d := Keyboard(env, s, KeyP, action, rnd);
    assert d.timeStep * 0.5 == s.timeStep;
  }

  /** J reloads the colour, phong, earth and sun shaders, in that order, and
      changes nothing else. */
  lemma ReloadKey(env: Env, s: State, action: int, rnd: nat)
    requires action == Press || action == Repeat
    ensures Keyboard(env, s, KeyJ, action, rnd) == s.(trace := s.trace +
      [ReloadShader(ColorShader), ReloadShader(PhongShader), ReloadShader(EarthShader), ReloadShader(SunShader)])
  {
  }

  // ----- timer and randomize_planets ---------------------------------------------

  /** A paused timer changes nothing. */
  lemma TimerPaused(env: Env, s: State)
    requires !s.timerActive
    ensures Timer(env, s) == s
  {
  }

  /**
   * A running timer steps all six bodies by the same `time_step_`, puts the
   * sun at the origin, the planets around it and the moon around the earth's
   * new position, updates the ship, resets `ship_path_param_` to 0 and aligns
   * the path frame there; nothing else changes.
   */
  lemma TimerRuns(env: Env, s: State)
    requires s.timerActive
    ensures var r := Timer(env, s);
      && (forall b :: Body(r, b) == TimeStep(Body(s, b), s.timeStep).(pos := Body(r, b).pos))
      && r.sun.pos == Origin
      && r.mercury.pos == PlaceOrbiting(env.geo, r.mercury, r.sun.pos)
      && r.venus.pos == PlaceOrbiting(env.geo, r.venus, r.sun.pos)
      && r.earth.pos == PlaceOrbiting(env.geo, r.earth, r.sun.pos)
      && r.mars.pos == PlaceOrbiting(env.geo, r.mars, r.sun.pos)
      && r.moon.pos == PlaceOrbiting(env.geo, r.moon, r.earth.pos)
      && r.ship == env.updateShip(s.ship) && r.shipPathParam == 0.0
      && r.trace == s.trace + [AlignFrameToTangent(0.0)]
      && r == s.(sun := r.sun, mercury := r.mercury, venus := r.venus, earth := r.earth,
                 moon := r.moon, mars := r.mars, ship := r.ship, shipPathParam := 0.0, trace := r.trace)
  {
    var r := Timer(env, s);
    forall b
      ensures Body(r, b) == TimeStep(Body(s, b), s.timeStep).(pos := Body(r, b).pos)
    {
      match b
      case Sun =>
      case Mercury =>
      case Venus =>
      case Earth =>
      case Moon =>
      case Mars =>
    }
  }

  /** With a genuine rotation about y, after a tick every planet lies on its
      orbit circle at its distance from the sun, and the moon at its distance
      from the earth. */
  lemma TimerOrbits(env: Env, s: State)
    requires s.timerActive && AboutVertical(env.geo.rotY)
    ensures var r := Timer(env, s);
      && Norm2(Sub(r.mercury.pos, r.sun.pos)) == s.mercury.distance * s.mercury.distance
      && Norm2(Sub(r.venus.pos, r.sun.pos)) == s.venus.distance * s.venus.distance
      && Norm2(Sub(r.earth.pos, r.sun.pos)) == s.earth.distance * s.earth.distance
      && Norm2(Sub(r.mars.pos, r.sun.pos)) == s.mars.distance * s.mars.distance
      && Norm2(Sub(r.moon.pos, r.earth.pos)) == s.moon.distance * s.moon.distance
  {
    TimerRuns(env, s);
    var r := Timer(env, s);
    OrbitCircle(env.geo, r.mercury, r.sun.pos);
    OrbitCircle(env.geo, r.venus, r.sun.pos);
    OrbitCircle(env.geo, r.earth, r.sun.pos);
    OrbitCircle(env.geo, r.mars, r.sun.pos);
    OrbitCircle(env.geo, r.moon, r.earth.pos);
  }

  /** `randomize_planets` steps every body by `rnd % 20000` days (one tick,
      when the timer runs) and gives `time_step_` back exactly. */
  lemma RandomizeRestores(env: Env, s: State, rnd: nat)
    ensures var r := Randomize(env, s, rnd);
      && r.timeStep == s.timeStep
      && (!s.timerActive ==> r == s)
      && (s.timerActive ==> forall b :: Body(r, b) == TimeStep(Body(s, b), (rnd % 20000) as real).(pos := Body(r, b).pos))
  {
    var t := s.(timeStep := (rnd % 20000) as real);
    if s.timerActive {
      TimerRuns(env, t);
      var r := Randomize(env, s, rnd);
      forall b
        ensures Body(r, b) == TimeStep(Body(s, b), (rnd % 20000) as real).(pos := Body(r, b).pos)
      {
        assert Body(r, b) == Body(Timer(env, t), b) && Body(t, b) == Body(s, b);
      }
    }
  }

  // ----- the invariant -----------------------------------------------------------

  lemma TimerKeeps(env: Env, s: State)
    requires Inv(s)
    ensures Inv(Timer(env, s))
  {
  }

  lemma RandomizeKeeps(env: Env, s: State, rnd: nat)
    requires Inv(s)
    ensures Inv(Randomize(env, s, rnd))
  {
    var t := s.(timeStep := (rnd % 20000) as real);
    assert Timer(env, t).inShip == s.inShip && Timer(env, t).target == s.target;
    assert Timer(env, t).distFactor == s.distFactor;
  }

  lemma KeyboardKeeps(env: Env, s: State, key: int, action: int, rnd: nat)
    requires Inv(s)
    ensures Inv(Keyboard(env, s, key, action, rnd))
  {
    if action == Press || action == Repeat {
      var selected := if Key1 <= key <= Key6 then s.(inShip := false, target := Some(BodyAt(key - Key1))) else s;
      KeyCommandKeeps(env, selected, key, rnd);
    }
  }

  lemma KeyCommandKeeps(env: Env, s: State, key: int, rnd: nat)
    requires Inv(s)
    ensures Inv(KeyCommand(env, s, key, rnd))
  {
    if key == KeyR {
      RandomizeKeeps(env, s, rnd);
    } else if key == Key7 || key == Key8 || key == Key9 {
    } else if key == KeyP || key == KeyKpAdd || key == KeyEqual || key == KeyM || key == KeyKpSubtract || key == KeyMinus {
    } else {
      OtherKeysKeep(env, s, key, rnd);
    }
  }

  /** The keys that touch neither the target, the distance nor the time step. */
  lemma OtherKeysKeep(env: Env, s: State, key: int, rnd: nat)
    requires key !in {KeyR, Key7, Key8, Key9, KeyP, KeyKpAdd, KeyEqual, KeyM, KeyKpSubtract, KeyMinus}
    ensures var r := KeyCommand(env, s, key, rnd);
      r.inShip == s.inShip && r.target == s.target && r.distFactor == s.distFactor && r.timeStep == s.timeStep
  {
  }

  lemma PaintKeeps(env: Env, s: State)
    requires Inv(s)
    ensures Inv(Paint(env, s))
    ensures Paint(env, s).curveMode == s.curveMode
  {
  }

  /** Any run of callbacks from a state satisfying `Inv` keeps it; in
      particular from the initial state the ship is followed exactly when
      no body is targeted, whatever keys are pressed. */
  lemma {:induction false} SessionKeeps(env: Env, s: State, inputs: seq<Input>)
    requires Inv(s)
    ensures Inv(Session(env, s, inputs))
    decreases |inputs|
  {
    if inputs != [] {
      var i := inputs[0];
      match i {
        case KeyInput(key, action, rnd) => KeyboardKeeps(env, s, key, action, rnd);
        case Tick => TimerKeeps(env, s);
        case Repaint => PaintKeeps(env, s);
        case Resized(w, h) =>
      }
      SessionKeeps(env, Handle(env, s, i), inputs[1..]);
    }
  }

  lemma SessionFromStart(env: Env, start: BodyName -> Pose, starsPose: Pose, mode: int,
                         width: int, height: int, inputs: seq<Input>)
    ensures var s := Session(env, Init(start, starsPose, mode, width, height), inputs);
      (s.inShip <==> s.target == None) && 2.5 <= s.distFactor <= 20.0
  {
    InitialState(start, starsPose, mode, width, height);
    SessionKeeps(env, Init(start, starsPose, mode, width, height), inputs);
  }

  // ----- the camera -------------------------------------------------------------

  /** `paint`'s camera when the ship is followed: behind and above it,
      looking at it, whatever the target. */
  lemma CameraFollowsShip(geo: Geometry, s: State)
    requires s.inShip
    ensures var cam := CameraOf(geo, s);
      && cam.center == s.ship.pos && cam.up == Vec4(0.0, 1.0, 0.0, 0.0)
      && cam.eye == Vec4(s.ship.pos.x - 2.0 * s.ship.direction.x,
                         s.ship.pos.y - 2.0 * s.ship.direction.y + 0.5,
                         s.ship.pos.z - 2.0 * s.ship.direction.z,
                         s.ship.pos.w - 2.0 * s.ship.direction.w)
  {
  }

  /** The locked eye is the centre plus the offset (0, 0, dist) turned by
      the x and then the y rotation. */
  lemma LockedEyeOffset(geo: Geometry, xAngle: real, yAngle: real, dist: real, center: Vec4)
    ensures LockedEye(geo, xAngle, yAngle, dist, center)
      == Add(geo.rotY(yAngle, geo.rotX(xAngle, Vec4(0.0, 0.0, dist, 0.0))), center)
  {
    AddThenSub(center, Vec4(0.0, 0.0, dist, 0.0));
  }

  /** Otherwise, with a target, the camera looks at the target from the
      locked eye. */
  lemma CameraLocked(geo: Geometry, s: State)
    requires !s.inShip && s.target.Some?
    ensures CameraOf(geo, s).center == Body(s, s.target.value).pos
    ensures CameraOf(geo, s).up == Vec4(0.0, 1.0, 0.0, 0.0)
    ensures CameraOf(geo, s).eye == Add(geo.rotY(s.yAngle, geo.rotX(s.xAngle,
      Vec4(0.0, 0.0, s.distFactor * Body(s, s.target.value).radius, 0.0))), Body(s, s.target.value).pos)
  {
    assert Mul(s.distFactor, Body(s, s.target.value).radius) == s.distFactor * Body(s, s.target.value).radius;
    LockedEyeOffset(geo, s.xAngle, s.yAngle, Mul(s.distFactor, Body(s, s.target.value).radius), Body(s, s.target.value).pos);
  }

  /** Otherwise the default view: the sun from (0, 0, 7). */
  lemma CameraDefault(geo: Geometry, s: State)
    requires !s.inShip && s.target.None?
    ensures var cam := CameraOf(geo, s);
      cam.eye == Vec4(0.0, 0.0, 7.0, 1.0) && cam.center == s.sun.pos && cam.up == Vec4(0.0, 1.0, 0.0, 0.0)
  {
  }

  /** What a rotation keeps: the length of (x, y, z) and w. */
  ghost predicate Rigid(rot: (real, Vec4) -> Vec4) {
    forall a: real, v: Vec4 {:trigger rot(a, v)} :: Norm2(rot(a, v)) == Norm2(v) && rot(a, v).w == v.w
  }

  /** With genuine rotations the locked eye stays factor * radius away from
      the body it looks at, whatever the two angles. */
  lemma LockedEyeDistance(geo: Geometry, s: State)
    requires Rigid(geo.rotX) && Rigid(geo.rotY)
    requires !s.inShip && s.target.Some?
    ensures var cam := CameraOf(geo, s);
      var d := s.distFactor * Body(s, s.target.value).radius;
      Norm2(Sub(cam.eye, cam.center)) == d * d
  {
    CameraLocked(geo, s);
    var b := Body(s, s.target.value);
    var off := Vec4(0.0, 0.0, s.distFactor * b.radius, 0.0);
    var v := geo.rotY(s.yAngle, geo.rotX(s.xAngle, off));
    assert Norm2(v) == Norm2(geo.rotX(s.xAngle, off)) == Norm2(off);
    AddThenSub(b.pos, v);
  }

  /** Pressing 4 in the initial state looks at the earth (radius 0.25) from
      9 radii: the eye is the earth's position plus (0, 0, 2.25) turned by
      the initial angles -90 and 0 degrees. */
  lemma EarthView(env: Env, start: BodyName -> Pose, starsPose: Pose, mode: int,
                  width: int, height: int, rnd: nat)
    ensures var s := Keyboard(env, Init(start, starsPose, mode, width, height), Key1 + 3, Press, rnd);
      var cam := CameraOf(env.geo, s);
      && cam.center == start(Earth).pos
      && cam.eye == Add(env.geo.rotY(0.0, env.geo.rotX(-90.0, Vec4(0.0, 0.0, 2.25, 0.0))), start(Earth).pos)
  {
    var s := Keyboard(env, Init(start, starsPose, mode, width, height), Key1 + 3, Press, rnd);
    assert s.target == Some(Earth) && !s.inShip && s.distFactor == 9.0;
    CameraLocked(env.geo, s);
  }

  /** `paint` issues clear, look-at, perspective (45 degrees, near 0.01,
      far 20) and then the scene; it sets the billboard angles and advances
      the sun's time, and changes nothing else. */
  lemma PaintEffect(env: Env, s: State)
    ensures var r := Paint(env, s);
      var cam := CameraOf(env.geo, s);
      var t := if s.timerActive then s.sunTime + 0.01 else s.sunTime;
      && r.trace == s.trace + [Clear, LookAt(cam.eye, cam.center, cam.up),
                               Perspective(45.0, s.width, s.height, 0.01, 20.0)]
                            + SceneEvents(s.(sunTime := t, billboardX := r.billboardX, billboardY := r.billboardY))
      && r.billboardY == env.geo.yaw(Sub(cam.eye, s.sun.pos))
      && r.billboardX == env.geo.pitch(Sub(cam.eye, s.sun.pos))
      && r == s.(sunTime := t, billboardX := r.billboardX, billboardY := r.billboardY, trace := r.trace)
  {
  }
}
