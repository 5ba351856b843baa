/**
 * `reload` as evidently intended: when a stage fails to compile or the
 * program fails to link, the objects this reload created are deleted and
 * `false` is returned, so that nothing is left alive that no field refers
 * to. On success it is the reload as written.
 */
module ShaderRelease {
  import opened Gl
  import opened ShaderProgram
  import opened ShaderReloadFacts

  /** Gives up a partial build: deletes the program and the stages kept so far. */
  function Abandon(kept: Handles, g: Gpu): Reloaded {
    Reloaded(Returned(false), NoHandles, CleanupGpu(kept, g))
  }

  /** `BuildProgram` with every failure path releasing what it created. */
  function BuildReleasing(pid: int, hasGeometry: bool, b: Build, g: Gpu): (r: Reloaded)
    requires Valid(g) && 0 < pid < g.next
    ensures Valid(r.gpu)
  {
    var v := CompileAndAttach(pid, VertexShader, b.vertex, g);
    if v.threw then Abandon(Handles(pid, 0, 0, 0), v.gpu)
    else
      var f := CompileAndAttach(pid, FragmentShader, b.fragment, v.gpu);
      if f.threw then Abandon(Handles(pid, v.id, 0, 0), f.gpu)
      else
        var gs := if hasGeometry then CompileAndAttach(pid, GeometryShader, b.geometry, f.gpu)
                  else Compiled(0, f.gpu, false);
        if gs.threw then Abandon(Handles(pid, v.id, f.id, 0), gs.gpu)
        else
          var g5 := Record(gs.gpu, LinkProgram(pid));
          if !b.links then Abandon(Handles(pid, v.id, f.id, gs.id), g5)
          else Reloaded(Returned(true), Handles(pid, v.id, f.id, gs.id), g5)
  }

  /** The corrected `reload`: cleanup, create the program, build, releasing on failure. */
  function ReloadReleasing(h: Handles, hasGeometry: bool, b: Build, g: Gpu): (r: Reloaded)
    requires Valid(g)
    ensures Valid(r.gpu)
  {
    var g1 := CleanupGpu(h, g);
    BuildReleasing(g1.next, hasGeometry, b, Alloc(g1, CreateProgram(g1.next)))
  }

  lemma Discard(a: set<int>, p: int, added: set<int>, kept: set<int>)
    requires added !! a && kept == {p} + added
    ensures (a + added) - kept == a - {p}
  {
  }

  /** A failed corrected build leaves exactly what was alive before, minus
      the program: every stage it compiled is deleted again. */
  lemma BuildReleasingFailure(pid: int, hasGeometry: bool, b: Build, g: Gpu)
    requires Valid(g) && 0 < pid < g.next
    requires CompileFails(hasGeometry, b) || !b.links
    ensures var r := BuildReleasing(pid, hasGeometry, b, g);
      && r.outcome == Returned(false) && r.handles == NoHandles
      && r.gpu.live == g.live - {pid}
  {
    var v := CompileAndAttach(pid, VertexShader, b.vertex, g);
    var f := CompileAndAttach(pid, FragmentShader, b.fragment, v.gpu);
    var gs := if hasGeometry then CompileAndAttach(pid, GeometryShader, b.geometry, f.gpu)
              else Compiled(0, f.gpu, false);
    var stages := HandleSet(Handles(0, v.id, f.id, gs.id));
    StageChain(pid, g, v, f, gs);
    assert stages !! g.live;
    if v.threw {
      HandleSetSplit(Handles(pid, 0, 0, 0));
      Discard(g.live, pid, {}, HandleSet(Handles(pid, 0, 0, 0)));
    } else if f.threw {
      HandleSetSplit(Handles(pid, v.id, 0, 0));
      Discard(g.live, pid, Ids(v.id), HandleSet(Handles(pid, v.id, 0, 0)));
    } else if gs.threw {
      HandleSetSplit(Handles(pid, v.id, f.id, 0));
      Discard(g.live, pid, Ids(v.id) + Ids(f.id), HandleSet(Handles(pid, v.id, f.id, 0)));
    } else {
      HandleSetSplit(Handles(pid, v.id, f.id, gs.id));
      Discard(g.live, pid, stages, HandleSet(Handles(pid, v.id, f.id, gs.id)));
    }
  }

  /** A corrected build that passes is the build as written. */
  lemma BuildReleasingSuccess(pid: int, hasGeometry: bool, b: Build, g: Gpu)
    requires Valid(g) && 0 < pid < g.next
    requires !CompileFails(hasGeometry, b) && b.links
    ensures BuildReleasing(pid, hasGeometry, b, g) == BuildProgram(pid, hasGeometry, b, g)
  {
  }

  /** The corrected reload never throws, returns false exactly when a stage
      fails to compile or the link fails, and on failure leaks nothing: the
      context holds what it held before minus the shader's old handles. */
  lemma ReloadReleasingNoLeak(h: Handles, hasGeometry: bool, b: Build, g: Gpu)
    requires Valid(g) && Owned(h, g)
    ensures var r := ReloadReleasing(h, hasGeometry, b, g);
      && r.outcome != ThrewLinkError
      && (r.outcome == Returned(false) <==> CompileFails(hasGeometry, b) || !b.links)
      && (r.outcome == Returned(false) ==> r.handles == NoHandles && r.gpu.live == g.live - HandleSet(h))
      && (r.outcome == Returned(true) ==> r == Reload(h, hasGeometry, b, g))
  {
    var g1 := CleanupGpu(h, g);
    var g2 := Alloc(g1, CreateProgram(g1.next));
    if CompileFails(hasGeometry, b) || !b.links {
      BuildReleasingFailure(g1.next, hasGeometry, b, g2);
      assert g2.live - {g.next} == g.live - HandleSet(h);
    } else {
      BuildReleasingSuccess(g1.next, hasGeometry, b, g2);
      BuildProgramSuccess(g1.next, hasGeometry, b, g2);
    }
  }
}
