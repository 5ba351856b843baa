/**
 * What one `draw_scene` call draws and with which GL state
 * (src/solar_viewer.cpp): the order of the objects, the program in use at
 * each draw and at each uniform upload, and blending being on for the glow
 * billboard alone.
 */
module SceneFacts {
  import opened Wrappers
  import opened Vectors
  import opened Bodies
  import opened ViewerModel

  // ----- the objects drawn --------------------------------------------------------

  /** The objects a command sequence draws, in order. */
  function Draws(t: seq<Event>): (r: seq<Object>)
    ensures |r| <= |t|
    decreases |t|
  {
    if t == [] then []
    else (if t[0].Draw? then [t[0].obj] else []) + Draws(t[1..])
  }

  lemma {:induction false} DrawsAppend(a: seq<Event>, b: seq<Event>)
    ensures Draws(a + b) == Draws(a) + Draws(b)
    decreases |a|
  {
    if a == [] {
      assert a + b == b;
    } else {
      assert (a + b)[0] == a[0];
      assert (a + b)[1..] == a[1..] + b;
      DrawsAppend(a[1..], b);
    }
  }

  /** What one command draws. */
  lemma DrawsOne(e: Event)
    ensures Draws([e]) == if e.Draw? then [e.obj] else []
  {
    assert [e][1..] == [];
  }

  /** The overlays each curve mode shows, as a table. */
  function OverlayDraws(mode: int): seq<Object> {
    if mode == CurvePathFrame then [PathFrame, ControlPolygon, PathCurve]
    else if mode == CurvePathCp then [ControlPolygon, PathCurve]
    else if mode == CurvePath then [PathCurve]
    else []
  }

  lemma {:induction false} UniformsDrawNothing(t: seq<Event>)
    requires forall e :: e in t ==> e.SetUniform?
    ensures Draws(t) == []
    decreases |t|
  {
    if t != [] {
      assert t[0] in t;
      assert forall e :: e in t[1..] ==> e in t;
      UniformsDrawNothing(t[1..]);
    }
  }

  lemma BindDrawDraws(o: Object)
    ensures Draws([BindTexture(o), Draw(o)]) == [o]
  {
    DrawsOne(BindTexture(o));
    DrawsOne(Draw(o));
    DrawsAppend([BindTexture(o)], [Draw(o)]);
    assert [BindTexture(o)] + [Draw(o)] == [BindTexture(o), Draw(o)];
  }

  /** A program, uniforms and one object: the object alone is drawn. */
  lemma PassDraws(sh: ShaderName, uniforms: seq<Event>, o: Object)
    requires forall e :: e in uniforms ==> e.SetUniform?
    ensures Draws(Pass(sh, uniforms, o)) == [o]
  {
    DrawsOne(UseShader(sh));
    UniformsDrawNothing(uniforms);
    DrawsAppend([UseShader(sh)], uniforms);
    BindDrawDraws(o);
    DrawsAppend([UseShader(sh)] + uniforms, [BindTexture(o), Draw(o)]);
  }

  lemma CurvePassDraws(color: Vec4, o: Object)
    ensures Draws(CurvePass(color, o)) == [o]
  {
    var us := [Uniform(SolidColorShader, "modelview_projection_matrix", Computed),
               Uniform(SolidColorShader, "color", ColorArg(color))];
    DrawsOne(UseShader(SolidColorShader));
    UniformsDrawNothing(us);
    DrawsAppend([UseShader(SolidColorShader)], us);
    DrawsOne(Draw(o));
    DrawsAppend([UseShader(SolidColorShader)] + us, [Draw(o)]);
    assert CurvePass(color, o) == [UseShader(SolidColorShader)] + us + [Draw(o)];
  }

  /** The overlay `switch` with its fall-through draws what the table says. */
  lemma OverlayOrder(mode: int)
    ensures Draws(Overlays(mode)) == OverlayDraws(mode)
  {
    var frame := if mode == CurvePathFrame then [Draw(PathFrame)] else [];
    var cp := if mode == CurvePathFrame || mode == CurvePathCp
              then CurvePass(Vec4(0.8, 0.8, 0.8, 1.0), ControlPolygon) else [];
    var path := if mode == CurvePathFrame || mode == CurvePathCp || mode == CurvePath
                then CurvePass(Vec4(1.0, 0.0, 0.0, 1.0), PathCurve) else [];
    assert Draws(frame) == if mode == CurvePathFrame then [PathFrame] else [] by {
      DrawsOne(Draw(PathFrame));
    }
    assert Draws(cp) == if mode == CurvePathFrame || mode == CurvePathCp then [ControlPolygon] else [] by {
      CurvePassDraws(Vec4(0.8, 0.8, 0.8, 1.0), ControlPolygon);
    }
    assert Draws(path) == if mode == CurvePathFrame || mode == CurvePathCp || mode == CurvePath
                          then [PathCurve] else [] by {
      CurvePassDraws(Vec4(1.0, 0.0, 0.0, 1.0), PathCurve);
    }
    DrawsAppend(frame, cp);
    DrawsAppend(frame + cp, path);
  }

  /** The objects after the overlays, in drawing order. */
  const BodyDraws: seq<Object> := [
    Celestial(Sun), StarSphere, Celestial(Mercury), Celestial(Venus), Celestial(Mars),
    Celestial(Earth), Celestial(Moon), Spaceship, Halo]

  lemma HaloTailDraws()
    ensures Draws([BlendFunc, BindTexture(Halo), Draw(Halo), DisableBlend]) == [Halo]
  {
    DrawsOne(BlendFunc);
    BindDrawDraws(Halo);
    DrawsAppend([BlendFunc], [BindTexture(Halo), Draw(Halo)]);
    DrawsOne(DisableBlend);
    DrawsAppend([BlendFunc] + [BindTexture(Halo), Draw(Halo)], [DisableBlend]);
    assert [BlendFunc] + [BindTexture(Halo), Draw(Halo)] + [DisableBlend]
        == [BlendFunc, BindTexture(Halo), Draw(Halo), DisableBlend];
  }

  lemma HaloDraws(grey: bool)
    ensures Draws(HaloPass(grey)) == [Halo]
  {
    var start := [EnableBlend, UseShader(ColorShader)];
    assert Draws(start) == [] by {
      DrawsOne(EnableBlend);
      DrawsOne(UseShader(ColorShader));
      DrawsAppend([EnableBlend], [UseShader(ColorShader)]);
      assert [EnableBlend] + [UseShader(ColorShader)] == start;
    }
    UniformsDrawNothing(Textured(ColorShader, grey));
    DrawsAppend(start, Textured(ColorShader, grey));
    HaloTailDraws();
    DrawsAppend(start + Textured(ColorShader, grey), [BlendFunc, BindTexture(Halo), Draw(Halo), DisableBlend]);
  }

  lemma PlanetDraws(b: BodyName, grey: bool)
    ensures Draws(PlanetPass(b, grey)) == [Celestial(b)]
  {
    PassDraws(PhongShader,
              Textured(PhongShader, grey)
              + [Uniform(PhongShader, "modelview_matrix", Computed), Uniform(PhongShader, "normal_matrix", Computed),
                 Uniform(PhongShader, "light_position", Computed)],
              Celestial(b));
  }

  lemma SunDraws(t: real, grey: bool)
    ensures Draws(SunPass(t, grey)) == [Celestial(Sun)]
  {
    PassDraws(SunShader, [Uniform(SunShader, "modelview_projection_matrix", Computed),
                          SetUniform(SunShader, "t", RealArg(t), true),
                          Uniform(SunShader, "tex", IntArg(0)),
                          Uniform(SunShader, "greyscale", IntArg(if grey then 1 else 0))], Celestial(Sun));
  }

  /** Draws of pieces laid end to end, for up to four pieces after a prefix. */
  lemma DrawsAfter(p: seq<Event>, a: seq<Event>, b: seq<Event>, c: seq<Event>, d: seq<Event>)
    ensures Draws(p + a + b + c + d) == Draws(p) + Draws(a) + Draws(b) + Draws(c) + Draws(d)
  {
    DrawsAppend(p, a);
    DrawsAppend(p + a, b);
    DrawsAppend(p + a + b, c);
    DrawsAppend(p + a + b + c, d);
  }

  /** The sun, the stars, mercury and venus after any prefix. */
  lemma FirstDraws(p: seq<Event>, t: real, g: bool)
    ensures Draws(p + SunPass(t, g) + Pass(ColorShader, Textured(ColorShader, g), StarSphere)
                  + PlanetPass(Mercury, g) + PlanetPass(Venus, g))
      == Draws(p) + [Celestial(Sun), StarSphere, Celestial(Mercury), Celestial(Venus)]
  {
    SunDraws(t, g);
    PassDraws(ColorShader, Textured(ColorShader, g), StarSphere);
    PlanetDraws(Mercury, g);
    PlanetDraws(Venus, g);
    DrawsAfter(p, SunPass(t, g), Pass(ColorShader, Textured(ColorShader, g), StarSphere),
               PlanetPass(Mercury, g), PlanetPass(Venus, g));
  }

  /** Mars, the earth, the moon and the ship after any prefix. */
  lemma MiddleDraws(p: seq<Event>, g: bool)
    ensures Draws(p + PlanetPass(Mars, g) + PlanetPass(Earth, g) + PlanetPass(Moon, g)
                  + Pass(ColorShader, Textured(ColorShader, g), Spaceship))
      == Draws(p) + [Celestial(Mars), Celestial(Earth), Celestial(Moon), Spaceship]
  {
    PlanetDraws(Mars, g);
    PlanetDraws(Earth, g);
    PlanetDraws(Moon, g);
    PassDraws(ColorShader, Textured(ColorShader, g), Spaceship);
    DrawsAfter(p, PlanetPass(Mars, g), PlanetPass(Earth, g), PlanetPass(Moon, g),
               Pass(ColorShader, Textured(ColorShader, g), Spaceship));
  }

  /** The glow and the error check after any prefix. */
  lemma LastDraws(p: seq<Event>, g: bool)
    ensures Draws(p + HaloPass(g) + [CheckError]) == Draws(p) + [Halo]
  {
    HaloDraws(g);
    DrawsOne(CheckError);
    DrawsAppend(p, HaloPass(g));
    DrawsAppend(p + HaloPass(g), [CheckError]);
  }

  /** `draw_scene` draws the overlays of the current curve mode, then the
      sun, the stars, mercury, venus, mars, the earth, the moon, the ship
      and last the glow. */
  lemma SceneOrder(s: State)
    ensures Draws(SceneEvents(s)) == OverlayDraws(s.curveMode) + BodyDraws
  {
    var g := s.greyscale;
    var first := Overlays(s.curveMode) + SunPass(s.sunTime, g) + Pass(ColorShader, Textured(ColorShader, g), StarSphere)
                 + PlanetPass(Mercury, g) + PlanetPass(Venus, g);
    var middle := first + PlanetPass(Mars, g) + PlanetPass(Earth, g) + PlanetPass(Moon, g)
                  + Pass(ColorShader, Textured(ColorShader, g), Spaceship);
    OverlayOrder(s.curveMode);
    FirstDraws(Overlays(s.curveMode), s.sunTime, g);
    MiddleDraws(first, g);
    LastDraws(middle, g);
    assert SceneEvents(s) == middle + HaloPass(g) + [CheckError];
  }

  // ----- the GL state each command sees -----------------------------------------------

  /** The GL state the scene depends on: the program in use and `GL_BLEND`. */
  datatype Binding = Binding(program: Option<ShaderName>, blend: bool)

  function Apply(g: Binding, e: Event): Binding {
    match e
    case UseShader(sh) => g.(program := Some(sh))
    case EnableBlend => g.(blend := true)
    case DisableBlend => g.(blend := false)
    case _ => g
  }

  /** The state after a command sequence. */
  function Exec(g: Binding, t: seq<Event>): Binding
    decreases |t|
  {
    if t == [] then g else Exec(Apply(g, t[0]), t[1..])
  }

  /** The program meant for each object (the path frame uses its own). */
  function ShaderFor(o: Object): ShaderName {
    match o
    case PathFrame | ControlPolygon | PathCurve => SolidColorShader
    case Celestial(b) => if b == Sun then SunShader else PhongShader
    case StarSphere | Spaceship | Halo => ColorShader
  }

  /** A command is issued correctly in `g`: a uniform goes to the program in
      use; an object is drawn with its program (the path frame excepted),
      with blending on for the glow and off for everything else. */
  predicate StepOk(g: Binding, e: Event) {
    match e
    case SetUniform(sh, _, _, _) => g.program == Some(sh)
    case Draw(o) => (o != PathFrame ==> g.program == Some(ShaderFor(o))) && (g.blend <==> o == Halo)
    case _ => true
  }

  /** Every command of `t` is issued correctly, starting from `g`. */
  predicate Sound(g: Binding, t: seq<Event>)
    decreases |t|
  {
    t == [] || (StepOk(g, t[0]) && Sound(Apply(g, t[0]), t[1..]))
  }

  lemma {:induction false} ExecAppend(g: Binding, a: seq<Event>, b: seq<Event>)
    ensures Exec(g, a + b) == Exec(Exec(g, a), b)
    decreases |a|
  {
    if a == [] {
      assert a + b == b;
    } else {
      assert (a + b)[0] == a[0];
      assert (a + b)[1..] == a[1..] + b;
      ExecAppend(Apply(g, a[0]), a[1..], b);
    }
  }

  lemma {:induction false} SoundAppend(g: Binding, a: seq<Event>, b: seq<Event>)
    ensures Sound(g, a + b) <==> Sound(g, a) && Sound(Exec(g, a), b)
    decreases |a|
  {
    if a == [] {
      assert a + b == b;
    } else {
      assert (a + b)[0] == a[0];
      assert (a + b)[1..] == a[1..] + b;
      SoundAppend(Apply(g, a[0]), a[1..], b);
    }
  }

  /** `t` is issued correctly from `g` and leaves `h`. */
  predicate Runs(g: Binding, t: seq<Event>, h: Binding) {
    Sound(g, t) && Exec(g, t) == h
  }

  /** Two pieces that run one after the other make a whole that runs. */
  lemma Compose(g: Binding, a: seq<Event>, h: Binding, b: seq<Event>, k: Binding)
    requires Runs(g, a, h) && Runs(h, b, k)
    ensures Runs(g, a + b, k)
  {
    SoundAppend(g, a, b);
    ExecAppend(g, a, b);
  }

  /** One command runs exactly when it is issued correctly. */
  lemma Step(g: Binding, e: Event)
    ensures Runs(g, [e], Apply(g, e)) <==> StepOk(g, e)
  {
    assert [e] != [] && [e][0] == e && [e][1..] == [];
    assert Sound(Apply(g, e), []) && Exec(Apply(g, e), []) == Apply(g, e);
    assert Sound(g, [e]) <==> StepOk(g, e) && Sound(Apply(g, e), [e][1..]);
    assert Exec(g, [e]) == Exec(Apply(g, e), [e][1..]);
  }

  /** Uniforms all meant for the program in use run and change nothing. */
  lemma {:induction false} QuietUniforms(g: Binding, t: seq<Event>)
    requires g.program.Some?
    requires forall e :: e in t ==> e.SetUniform? && e.shader == g.program.value
    ensures Runs(g, t, g)
    decreases |t|
  {
    if t != [] {
      assert t[0] in t;
      assert forall e :: e in t[1..] ==> e in t;
      QuietUniforms(g, t[1..]);
    }
  }

  /** Binding a texture and drawing with the object's program, blending off. */
  lemma BindDraw(g: Binding, o: Object)
    requires StepOk(g, Draw(o))
    ensures Runs(g, [BindTexture(o), Draw(o)], g)
  {
    Step(g, BindTexture(o));
    Step(g, Draw(o));
    Compose(g, [BindTexture(o)], g, [Draw(o)], g);
    assert [BindTexture(o)] + [Draw(o)] == [BindTexture(o), Draw(o)];
  }

  /** A textured pass with its own program's uniforms, blending off. */
  lemma PassSound(g: Binding, sh: ShaderName, uniforms: seq<Event>, o: Object)
    requires !g.blend && ShaderFor(o) == sh && o != Halo
    requires forall e :: e in uniforms ==> e.SetUniform? && e.shader == sh
    ensures Runs(g, Pass(sh, uniforms, o), Binding(Some(sh), false))
  {
    var h := Binding(Some(sh), false);
    Step(g, UseShader(sh));
    QuietUniforms(h, uniforms);
    Compose(g, [UseShader(sh)], h, uniforms, h);
    BindDraw(h, o);
    Compose(g, [UseShader(sh)] + uniforms, h, [BindTexture(o), Draw(o)], h);
  }

  lemma CurvePassSound(g: Binding, color: Vec4, o: Object)
    requires !g.blend && ShaderFor(o) == SolidColorShader && o != PathFrame
    ensures Runs(g, CurvePass(color, o), Binding(Some(SolidColorShader), false))
  {
    var h := Binding(Some(SolidColorShader), false);
    var us := [Uniform(SolidColorShader, "modelview_projection_matrix", Computed),
               Uniform(SolidColorShader, "color", ColorArg(color))];
    Step(g, UseShader(SolidColorShader));
    QuietUniforms(h, us);
    Compose(g, [UseShader(SolidColorShader)], h, us, h);
    Step(h, Draw(o));
    Compose(g, [UseShader(SolidColorShader)] + us, h, [Draw(o)], h);
    assert CurvePass(color, o) == [UseShader(SolidColorShader)] + us + [Draw(o)];
  }

  /** The overlays, blending off: they run, and blending stays off. */
  lemma OverlaysSound(g: Binding, mode: int)
    requires !g.blend
    ensures Sound(g, Overlays(mode)) && !Exec(g, Overlays(mode)).blend
  {
    var frame := if mode == CurvePathFrame then [Draw(PathFrame)] else [];
    var cp := if mode == CurvePathFrame || mode == CurvePathCp
              then CurvePass(Vec4(0.8, 0.8, 0.8, 1.0), ControlPolygon) else [];
    var path := if mode == CurvePathFrame || mode == CurvePathCp || mode == CurvePath
                then CurvePass(Vec4(1.0, 0.0, 0.0, 1.0), PathCurve) else [];
    var solid := Binding(Some(SolidColorShader), false);
    Step(g, Draw(PathFrame));
    assert Runs(g, frame, g);
    var g1 := if mode == CurvePathFrame || mode == CurvePathCp then solid else g;
    CurvePassSound(g, Vec4(0.8, 0.8, 0.8, 1.0), ControlPolygon);
    assert Runs(g, cp, g1);
    Compose(g, frame, g, cp, g1);
    var g2 := if mode == CurvePathFrame || mode == CurvePathCp || mode == CurvePath then solid else g1;
    CurvePassSound(g1, Vec4(1.0, 0.0, 0.0, 1.0), PathCurve);
    assert Runs(g1, path, g2);
    Compose(g, frame + cp, g1, path, g2);
  }

  /** Turning blending on and the colour program in use. */
  lemma HaloStart(g: Binding)
    ensures Runs(g, [EnableBlend, UseShader(ColorShader)], Binding(Some(ColorShader), true))
  {
    Step(g, EnableBlend);
    Step(g.(blend := true), UseShader(ColorShader));
    Compose(g, [EnableBlend], g.(blend := true), [UseShader(ColorShader)], Binding(Some(ColorShader), true));
    assert [EnableBlend] + [UseShader(ColorShader)] == [EnableBlend, UseShader(ColorShader)];
  }

  /** Drawing the glow with blending on, then turning blending off. */
  lemma HaloEnd()
    ensures Runs(Binding(Some(ColorShader), true), [BlendFunc, BindTexture(Halo), Draw(Halo), DisableBlend],
                 Binding(Some(ColorShader), false))
  {
    var on := Binding(Some(ColorShader), true);
    BindDraw(on, Halo);
    Step(on, BlendFunc);
    Compose(on, [BlendFunc], on, [BindTexture(Halo), Draw(Halo)], on);
    Step(on, DisableBlend);
    Compose(on, [BlendFunc] + [BindTexture(Halo), Draw(Halo)], on, [DisableBlend], Binding(Some(ColorShader), false));
    assert [BlendFunc] + [BindTexture(Halo), Draw(Halo)] + [DisableBlend]
        == [BlendFunc, BindTexture(Halo), Draw(Halo), DisableBlend];
  }

  /** The glow pass, blending off beforehand: the only draw with blending on,
      and blending is off again afterwards. */
  lemma HaloSound(g: Binding, grey: bool)
    requires !g.blend
    ensures Runs(g, HaloPass(grey), Binding(Some(ColorShader), false))
  {
    var on := Binding(Some(ColorShader), true);
    HaloStart(g);
    QuietUniforms(on, Textured(ColorShader, grey));
    Compose(g, [EnableBlend, UseShader(ColorShader)], on, Textured(ColorShader, grey), on);
    HaloEnd();
    Compose(g, [EnableBlend, UseShader(ColorShader)] + Textured(ColorShader, grey), on,
            [BlendFunc, BindTexture(Halo), Draw(Halo), DisableBlend], Binding(Some(ColorShader), false));
  }

  lemma PlanetSound(g: Binding, b: BodyName, grey: bool)
    requires !g.blend && b != Sun
    ensures Runs(g, PlanetPass(b, grey), Binding(Some(PhongShader), false))
  {
    PassSound(g, PhongShader,
              Textured(PhongShader, grey)
              + [Uniform(PhongShader, "modelview_matrix", Computed), Uniform(PhongShader, "normal_matrix", Computed),
                 Uniform(PhongShader, "light_position", Computed)],
              Celestial(b));
  }

  /** A prefix and four pieces run one after the other. */
  lemma RunsAfter(g: Binding, p: seq<Event>, h: Binding, a: seq<Event>, ha: Binding, b: seq<Event>, hb: Binding,
                  c: seq<Event>, hc: Binding, d: seq<Event>, hd: Binding)
    requires Runs(g, p, h) && Runs(h, a, ha) && Runs(ha, b, hb) && Runs(hb, c, hc) && Runs(hc, d, hd)
    ensures Runs(g, p + a + b + c + d, hd)
  {
    Compose(g, p, h, a, ha);
    Compose(g, p + a, ha, b, hb);
    Compose(g, p + a + b, hb, c, hc);
    Compose(g, p + a + b + c, hc, d, hd);
  }

  /** The sun, the stars, mercury and venus after a prefix that left blending off. */
  lemma FirstRuns(g: Binding, p: seq<Event>, h: Binding, t: real, gr: bool)
    requires Runs(g, p, h) && !h.blend
    ensures Runs(g, p + SunPass(t, gr) + Pass(ColorShader, Textured(ColorShader, gr), StarSphere)
                 + PlanetPass(Mercury, gr) + PlanetPass(Venus, gr), Binding(Some(PhongShader), false))
  {
    var sun := Binding(Some(SunShader), false);
    var color := Binding(Some(ColorShader), false);
    var phong := Binding(Some(PhongShader), false);
    PassSound(h, SunShader, [Uniform(SunShader, "modelview_projection_matrix", Computed),
                             SetUniform(SunShader, "t", RealArg(t), true),
                             Uniform(SunShader, "tex", IntArg(0)),
                             Uniform(SunShader, "greyscale", IntArg(if gr then 1 else 0))], Celestial(Sun));
    PassSound(sun, ColorShader, Textured(ColorShader, gr), StarSphere);
    PlanetSound(color, Mercury, gr);
    PlanetSound(phong, Venus, gr);
    RunsAfter(g, p, h, SunPass(t, gr), sun, Pass(ColorShader, Textured(ColorShader, gr), StarSphere), color,
              PlanetPass(Mercury, gr), phong, PlanetPass(Venus, gr), phong);
  }

  /** Mars, the earth, the moon and the ship after the other planets. */
  lemma MiddleRuns(g: Binding, p: seq<Event>, gr: bool)
    requires Runs(g, p, Binding(Some(PhongShader), false))
    ensures Runs(g, p + PlanetPass(Mars, gr) + PlanetPass(Earth, gr) + PlanetPass(Moon, gr)
                 + Pass(ColorShader, Textured(ColorShader, gr), Spaceship), Binding(Some(ColorShader), false))
  {
    var phong := Binding(Some(PhongShader), false);
    PlanetSound(phong, Mars, gr);
    PlanetSound(phong, Earth, gr);
    PlanetSound(phong, Moon, gr);
    PassSound(phong, ColorShader, Textured(ColorShader, gr), Spaceship);
    RunsAfter(g, p, phong, PlanetPass(Mars, gr), phong, PlanetPass(Earth, gr), phong,
              PlanetPass(Moon, gr), phong, Pass(ColorShader, Textured(ColorShader, gr), Spaceship),
              Binding(Some(ColorShader), false));
  }

  /** The glow and the error check after the ship. */
  lemma LastRuns(g: Binding, p: seq<Event>, gr: bool)
    requires Runs(g, p, Binding(Some(ColorShader), false))
    ensures Runs(g, p + HaloPass(gr) + [CheckError], Binding(Some(ColorShader), false))
  {
    var color := Binding(Some(ColorShader), false);
    HaloSound(color, gr);
    Compose(g, p, color, HaloPass(gr), color);
    Step(color, CheckError);
    Compose(g, p + HaloPass(gr), color, [CheckError], color);
  }

  /** Started with blending off, `draw_scene` sets every uniform on the
      program in use, draws every object but the path frame with its own
      program, blends the glow alone and leaves blending off. */
  lemma SceneSound(g: Binding, s: State)
    requires !g.blend
    ensures Sound(g, SceneEvents(s)) && !Exec(g, SceneEvents(s)).blend
  {
    var gr := s.greyscale;
    var first := Overlays(s.curveMode) + SunPass(s.sunTime, gr)
                 + Pass(ColorShader, Textured(ColorShader, gr), StarSphere)
                 + PlanetPass(Mercury, gr) + PlanetPass(Venus, gr);
    var middle := first + PlanetPass(Mars, gr) + PlanetPass(Earth, gr) + PlanetPass(Moon, gr)
                  + Pass(ColorShader, Textured(ColorShader, gr), Spaceship);
    OverlaysSound(g, s.curveMode);
    FirstRuns(g, Overlays(s.curveMode), Exec(g, Overlays(s.curveMode)), s.sunTime, gr);
    MiddleRuns(g, first, gr);
    LastRuns(g, middle, gr);
    assert SceneEvents(s) == middle + HaloPass(gr) + [CheckError];
  }

  // ----- uniform values -------------------------------------------------------------------

  /** Every `greyscale` uniform in `t` is set to `v`. */
  predicate GreyOk(t: seq<Event>, v: int) {
    forall e :: e in t && e.SetUniform? && e.name == "greyscale" ==> e.arg == IntArg(v)
  }

  lemma GreyAppend(a: seq<Event>, b: seq<Event>, v: int)
    requires GreyOk(a, v) && GreyOk(b, v)
    ensures GreyOk(a + b, v)
  {
  }

  lemma GreyPass(sh: ShaderName, uniforms: seq<Event>, o: Object, v: int)
    requires GreyOk(uniforms, v)
    ensures GreyOk(Pass(sh, uniforms, o), v)
  {
    GreyAppend([UseShader(sh)], uniforms, v);
    GreyAppend([UseShader(sh)] + uniforms, [BindTexture(o), Draw(o)], v);
  }

  lemma GreyPieces(s: State)
    ensures var g := s.greyscale;
      var v := if g then 1 else 0;
      && GreyOk(Overlays(s.curveMode), v)
      && GreyOk(SunPass(s.sunTime, g), v)
      && GreyOk(Pass(ColorShader, Textured(ColorShader, g), StarSphere), v)
      && (forall b :: GreyOk(PlanetPass(b, g), v))
      && GreyOk(Pass(ColorShader, Textured(ColorShader, g), Spaceship), v)
      && GreyOk(HaloPass(g), v)
  {
    var g := s.greyscale;
    var v := if g then 1 else 0;
    GreyPass(SunShader, [Uniform(SunShader, "modelview_projection_matrix", Computed),
                         SetUniform(SunShader, "t", RealArg(s.sunTime), true),
                         Uniform(SunShader, "tex", IntArg(0)),
                         Uniform(SunShader, "greyscale", IntArg(v))], Celestial(Sun), v);
    GreyPass(ColorShader, Textured(ColorShader, g), StarSphere, v);
    GreyPass(ColorShader, Textured(ColorShader, g), Spaceship, v);
    forall b
      ensures GreyOk(PlanetPass(b, g), v)
    {
      var us := Textured(PhongShader, g)
                + [Uniform(PhongShader, "modelview_matrix", Computed), Uniform(PhongShader, "normal_matrix", Computed),
                   Uniform(PhongShader, "light_position", Computed)];
      GreyPass(PhongShader, us, Celestial(b), v);
    }
  }

  /** Every `greyscale` uniform of the scene is the viewer's greyscale flag. */
  lemma GreyscaleUniforms(s: State)
    ensures GreyOk(SceneEvents(s), if s.greyscale then 1 else 0)
  {
    var g := s.greyscale;
    var v := if g then 1 else 0;
    GreyPieces(s);
    var p0 := Overlays(s.curveMode);
    var p1 := p0 + SunPass(s.sunTime, g);
    var p2 := p1 + Pass(ColorShader, Textured(ColorShader, g), StarSphere);
    var p3 := p2 + PlanetPass(Mercury, g);
    var p4 := p3 + PlanetPass(Venus, g);
    var p5 := p4 + PlanetPass(Mars, g);
    var p6 := p5 + PlanetPass(Earth, g);
    var p7 := p6 + PlanetPass(Moon, g);
    var p8 := p7 + Pass(ColorShader, Textured(ColorShader, g), Spaceship);
    var p9 := p8 + HaloPass(g);
    GreyAppend(p0, SunPass(s.sunTime, g), v);
    GreyAppend(p1, Pass(ColorShader, Textured(ColorShader, g), StarSphere), v);
    GreyAppend(p2, PlanetPass(Mercury, g), v);
    GreyAppend(p3, PlanetPass(Venus, g), v);
    GreyAppend(p4, PlanetPass(Mars, g), v);
    GreyAppend(p5, PlanetPass(Earth, g), v);
    GreyAppend(p6, PlanetPass(Moon, g), v);
    GreyAppend(p7, Pass(ColorShader, Textured(ColorShader, g), Spaceship), v);
    GreyAppend(p8, HaloPass(g), v);
    GreyAppend(p9, [CheckError], v);
    assert SceneEvents(s) == p9 + [CheckError];
  }

  /** After `draw_scene` the sun shader's time is the advanced animation time,
      0.01 further on exactly when the timer is active. */
  lemma SunTimeUniform(s: State)
    ensures var t := if s.timerActive then s.sunTime + 0.01 else s.sunTime;
      && DrawScene(s).sunTime == t
      && SetUniform(SunShader, "t", RealArg(t), true) in DrawScene(s).trace
  {
    var d := DrawScene(s);
    assert SetUniform(SunShader, "t", RealArg(d.sunTime), true) in SceneEvents(d.(trace := s.trace));
  }
}
