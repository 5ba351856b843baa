/**
 * The shader program manager (src/shader.hh, src/shader.cpp): four GL object
 * handles, a staged reload with its three failure modes, and the guarded
 * `use` and `set_uniform` commands. The stages' fates (file missing, no
 * shader object, compile error, compiled) and the link status are inputs,
 * in a `Build`.
 */
module ShaderProgram {
  import opened Gl
  import opened Vectors

  /** The handle fields `pid_`, `vid_`, `fid_`, `gid_`; 0 means "none". */
  datatype Handles = Handles(pid: int, vid: int, fid: int, gid: int)

  const NoHandles: Handles := Handles(0, 0, 0, 0)

  function Ids(id: int): set<int> {
    if id != 0 then {id} else {}
  }

  /** The set of GL names a shader holds. */
  function HandleSet(h: Handles): set<int> {
    Ids(h.pid) + Ids(h.vid) + Ids(h.fid) + Ids(h.gid)
  }

  /** The number of nonzero handles. */
  function Count(h: Handles): nat {
    |Ids(h.pid)| + |Ids(h.vid)| + |Ids(h.fid)| + |Ids(h.gid)|
  }

  /** No two nonzero handles are the same name. */
  predicate Distinct(h: Handles) {
    (h.pid != 0 ==> h.pid != h.vid && h.pid != h.fid && h.pid != h.gid) &&
    (h.vid != 0 ==> h.vid != h.fid && h.vid != h.gid) &&
    (h.fid != 0 ==> h.fid != h.gid)
  }

  lemma HandleSetSize(h: Handles)
    requires Distinct(h)
    ensures |HandleSet(h)| == Count(h)
  {
    var a, b, c, d := Ids(h.pid), Ids(h.vid), Ids(h.fid), Ids(h.gid);
    assert a !! b && a !! c && a !! d && b !! c && b !! d && c !! d;
    assert |a + b| == |a| + |b|;
    assert (a + b) !! c;
    assert |a + b + c| == |a| + |b| + |c|;
    assert (a + b + c) !! d;
  }

  /** Every handle the shader holds names a live object of the context. */
  ghost predicate Owned(h: Handles, g: Gpu) {
    HandleSet(h) <= g.live
  }

  // ----- cleanup -------------------------------------------------------------

  /** The delete calls `cleanup` issues, program first, then the stages in order. */
  function CleanupCalls(h: Handles): (r: seq<Call>)
    ensures h == NoHandles ==> r == []
    ensures forall c :: c in r ==> (c.DeleteProgram? && c.program == h.pid && h.pid != 0) ||
                                    (c.DeleteShader? && c.shader in Ids(h.vid) + Ids(h.fid) + Ids(h.gid))
    ensures h.pid != 0 ==> DeleteProgram(h.pid) in r
    ensures forall s :: s in {h.vid, h.fid, h.gid} - {0} ==> DeleteShader(s) in r
  {
    (if h.pid != 0 then [DeleteProgram(h.pid)] else []) +
    (if h.vid != 0 then [DeleteShader(h.vid)] else []) +
    (if h.fid != 0 then [DeleteShader(h.fid)] else []) +
    (if h.gid != 0 then [DeleteShader(h.gid)] else [])
  }

  function FreeIf(g: Gpu, id: int, c: Call): Gpu {
    if id != 0 then Free(g, id, c) else g
  }

  /** The context after `cleanup`: exactly the nonzero handles are released. */
  function CleanupGpu(h: Handles, g: Gpu): (r: Gpu)
    ensures Valid(g) ==> Valid(r)
    ensures r.live == g.live - HandleSet(h) && r.next == g.next
    ensures r.calls == g.calls + CleanupCalls(h)
  {
    var g1 := FreeIf(g, h.pid, DeleteProgram(h.pid));
    var g2 := FreeIf(g1, h.vid, DeleteShader(h.vid));
    var g3 := FreeIf(g2, h.fid, DeleteShader(h.fid));
    var a := if h.pid != 0 then [DeleteProgram(h.pid)] else [];
    var b := if h.vid != 0 then [DeleteShader(h.vid)] else [];
    var c := if h.fid != 0 then [DeleteShader(h.fid)] else [];
    var d := if h.gid != 0 then [DeleteShader(h.gid)] else [];
    assert g3.calls == g.calls + (a + b + c) by {
      assert g1.calls == g.calls + a;
      assert g2.calls == g.calls + a + b;
    }
    assert g.calls + (a + b + c) + d == g.calls + (a + b + c + d);
    assert g3.live == g.live - (Ids(h.pid) + Ids(h.vid) + Ids(h.fid)) && g3.next == g.next by {
      assert g1.live == g.live - Ids(h.pid);
      assert g2.live == g.live - (Ids(h.pid) + Ids(h.vid));
    }
    FreeIf(g3, h.gid, DeleteShader(h.gid))
  }

  /** A second `cleanup` deletes nothing and changes nothing. */
  lemma CleanupIdempotent(h: Handles, g: Gpu)
    ensures CleanupGpu(NoHandles, CleanupGpu(h, g)) == CleanupGpu(h, g)
  {
    assert CleanupCalls(NoHandles) == [];
  }

  // ----- load_and_compile ----------------------------------------------------

  /** What happens to one stage: the file cannot be opened, glCreateShader
      returns 0, the compiler reports an error, or it compiles. */
  datatype Stage = Unreadable | NoShaderObject | CompileError | Compiles

  /** The fates of the three stages and the link status, for one reload. */
  datatype Build = Build(vertex: Stage, fragment: Stage, geometry: Stage, links: bool)

  /** `load_and_compile`'s result: the shader id (0 for none), the context
      afterwards, and whether it threw `cannot_compile_shader`. */
  datatype Compiled = Compiled(id: int, gpu: Gpu, threw: bool)

  function LoadAndCompile(kind: StageKind, s: Stage, g: Gpu): (r: Compiled)
    requires Valid(g)
    ensures Valid(r.gpu) && r.gpu.next >= g.next
    ensures r.threw <==> s == CompileError
    ensures r.id != 0 <==> s == Compiles
    ensures r.id != 0 ==> r.id == g.next && r.gpu.live == g.live + {r.id}
    ensures r.id == 0 ==> r.gpu.live == g.live
    ensures |r.gpu.calls| >= |g.calls| && r.gpu.calls[..|g.calls|] == g.calls
  {
    match s
    case Unreadable => Compiled(0, g, false)
    case NoShaderObject => Compiled(0, Record(g, CreateShader(kind, 0)), false)
    case CompileError =>
      var id := g.next;
      var g1 := Record(Alloc(g, CreateShader(kind, id)), CompileShader(id));
      Compiled(0, Free(g1, id, DeleteShader(id)), true)
    case Compiles =>
      var id := g.next;
      Compiled(id, Record(Alloc(g, CreateShader(kind, id)), CompileShader(id)), false)
  }

  // ----- reload --------------------------------------------------------------

  /** `r` continues `g`: the counter never goes back and the trace only grows. */
  ghost predicate Extends(g: Gpu, r: Gpu) {
    g.next <= r.next && g.calls <= r.calls
  }

  /** How `reload` ends: it returns a bool, or the link error's
      `runtime_error` escapes (the handler only catches compile errors). */
  datatype Outcome = Returned(ok: bool) | ThrewLinkError

  datatype Reloaded = Reloaded(outcome: Outcome, handles: Handles, gpu: Gpu)

  function AttachIf(g: Gpu, pid: int, id: int): (r: Gpu)
    ensures r.live == g.live && r.next == g.next && g.calls <= r.calls
    ensures Valid(g) ==> Valid(r)
  {
    if id != 0 then Record(g, AttachShader(pid, id)) else g
  }

  /** One stage of `reload`: compile it and, if it produced a shader, attach
      it to the program. A compile error leaves nothing new alive. */
  function CompileAndAttach(pid: int, kind: StageKind, s: Stage, g: Gpu): (r: Compiled)
    requires Valid(g)
    ensures Valid(r.gpu) && Extends(g, r.gpu)
    ensures r.threw <==> s == CompileError
    ensures r.id != 0 <==> s == Compiles
    ensures r.id != 0 ==> r.id == g.next && r.gpu.next == g.next + 1
    ensures r.gpu.live == g.live + Ids(r.id)
  {
    var c := LoadAndCompile(kind, s, g);
    assert c.gpu.calls[..|g.calls|] == g.calls;
    if c.threw then c else Compiled(c.id, AttachIf(c.gpu, pid, c.id), false)
  }

  /** Some stage that is compiled throws a compile error. */
  predicate CompileFails(hasGeometry: bool, b: Build) {
    b.vertex == CompileError || b.fragment == CompileError ||
    (hasGeometry && b.geometry == CompileError)
  }

  /** The number of stages a successful reload keeps. */
  function StagesKept(hasGeometry: bool, b: Build): nat {
    (if b.vertex == Compiles then 1 else 0) + (if b.fragment == Compiles then 1 else 0) +
    (if hasGeometry && b.geometry == Compiles then 1 else 0)
  }

  /** Three stages compiled one after the other receive increasing fresh names. */
  lemma StageChain(pid: int, g: Gpu, v: Compiled, f: Compiled, gs: Compiled)
    requires pid < g.next <= v.gpu.next <= f.gpu.next <= gs.gpu.next
    requires v.id != 0 ==> v.id == g.next < v.gpu.next
    requires f.id != 0 ==> f.id == v.gpu.next < f.gpu.next
    requires gs.id != 0 ==> gs.id == f.gpu.next < gs.gpu.next
    requires v.gpu.live == g.live + Ids(v.id)
    requires f.gpu.live == v.gpu.live + Ids(f.id)
    requires gs.gpu.live == f.gpu.live + Ids(gs.id)
    ensures Distinct(Handles(pid, v.id, f.id, gs.id))
    ensures HandleSet(Handles(0, v.id, f.id, gs.id)) == Ids(v.id) + Ids(f.id) + Ids(gs.id)
    ensures gs.gpu.live == g.live + HandleSet(Handles(0, v.id, f.id, gs.id))
    ensures forall id :: id in HandleSet(Handles(0, v.id, f.id, gs.id)) ==> g.next <= id < gs.gpu.next
  {
  }

  /** `reload` after the program `pid` exists: the vertex, fragment and (when
      `gfile_` is non-empty) geometry stages, then the link; the fields are
      assigned only when everything has passed. */
  function BuildProgram(pid: int, hasGeometry: bool, b: Build, g: Gpu): (r: Reloaded)
    requires Valid(g) && 0 < pid < g.next
    ensures Valid(r.gpu) && Extends(g, r.gpu)
    ensures r.outcome == Returned(false) <==> CompileFails(hasGeometry, b)
    ensures r.outcome == ThrewLinkError <==> !CompileFails(hasGeometry, b) && !b.links
    ensures r.outcome != Returned(true) ==> r.handles == NoHandles
    ensures g.live <= r.gpu.live
    ensures forall id :: id in r.gpu.live && id !in g.live ==> g.next <= id
  {
    var v := CompileAndAttach(pid, VertexShader, b.vertex, g);
    if v.threw then Reloaded(Returned(false), NoHandles, v.gpu)
    else
      var f := CompileAndAttach(pid, FragmentShader, b.fragment, v.gpu);
      if f.threw then Reloaded(Returned(false), NoHandles, f.gpu)
      else
        var gs := if hasGeometry then CompileAndAttach(pid, GeometryShader, b.geometry, f.gpu)
                  else Compiled(0, f.gpu, false);
        if gs.threw then Reloaded(Returned(false), NoHandles, gs.gpu)
        else
          var g5 := Record(gs.gpu, LinkProgram(pid));
          if !b.links then Reloaded(ThrewLinkError, NoHandles, g5)
          else Reloaded(Returned(true), Handles(pid, v.id, f.id, gs.id), g5)
  }

  /** The reload as written: cleanup, create the program, then build it. */
  function Reload(h: Handles, hasGeometry: bool, b: Build, g: Gpu): (r: Reloaded)
    requires Valid(g)
    ensures Valid(r.gpu)
  {
    var g1 := CleanupGpu(h, g);
    BuildProgram(g1.next, hasGeometry, b, Alloc(g1, CreateProgram(g1.next)))
  }
}

module ShaderReloadFacts {
  import opened Gl
  import opened ShaderProgram

  /** A build that passes every stage and links keeps the program `pid` and a
      fresh name for each stage that compiled, and creates nothing else. */
  lemma BuildProgramSuccess(pid: int, hasGeometry: bool, b: Build, g: Gpu)
    requires Valid(g) && 0 < pid < g.next
    requires !CompileFails(hasGeometry, b) && b.links
    ensures var r := BuildProgram(pid, hasGeometry, b, g);
      && r.outcome == Returned(true)
      && r.handles.pid == pid
      && (r.handles.vid != 0 <==> b.vertex == Compiles)
      && (r.handles.fid != 0 <==> b.fragment == Compiles)
      && (r.handles.gid != 0 <==> hasGeometry && b.geometry == Compiles)
      && Distinct(r.handles) && Count(r.handles) == 1 + StagesKept(hasGeometry, b)
      && r.gpu.live == g.live + HandleSet(r.handles.(pid := 0))
      && (forall id :: id in HandleSet(r.handles.(pid := 0)) ==> g.next <= id < r.gpu.next)
  {
    var v := CompileAndAttach(pid, VertexShader, b.vertex, g);
    var f := CompileAndAttach(pid, FragmentShader, b.fragment, v.gpu);
    var gs := if hasGeometry then CompileAndAttach(pid, GeometryShader, b.geometry, f.gpu)
              else Compiled(0, f.gpu, false);
    var r := BuildProgram(pid, hasGeometry, b, g);
    assert r == Reloaded(Returned(true), Handles(pid, v.id, f.id, gs.id), Record(gs.gpu, LinkProgram(pid)));
    StageChain(pid, g, v, f, gs);
  }

  /** Exactly one of the three endings happens, decided by the build alone:
      a compile error returns false, otherwise a link failure throws, otherwise
      it returns true. Only success leaves handles behind. */
  lemma ReloadOutcome(h: Handles, hasGeometry: bool, b: Build, g: Gpu)
    requires Valid(g)
    ensures var r := Reload(h, hasGeometry, b, g);
      && (r.outcome == Returned(false) <==> CompileFails(hasGeometry, b))
      && (r.outcome == ThrewLinkError <==> !CompileFails(hasGeometry, b) && !b.links)
      && (r.outcome == Returned(true) <==> !CompileFails(hasGeometry, b) && b.links)
      && (r.outcome != Returned(true) ==> r.handles == NoHandles)
  {
  }

  /** `reload` deletes what the shader held and creates the new program
      before anything else, whatever happens afterwards; none of the old
      objects is alive at the end. */
  lemma ReloadCleansFirst(h: Handles, hasGeometry: bool, b: Build, g: Gpu)
    requires Valid(g) && Owned(h, g)
    ensures var r := Reload(h, hasGeometry, b, g);
      && g.calls + CleanupCalls(h) + [CreateProgram(g.next)] <= r.gpu.calls
      && HandleSet(h) !! r.gpu.live
  {
    var g1 := CleanupGpu(h, g);
    var g2 := Alloc(g1, CreateProgram(g1.next));
    var r := BuildProgram(g1.next, hasGeometry, b, g2);
    assert g2.calls == g.calls + CleanupCalls(h) + [CreateProgram(g.next)];
  }

  /** On success the fields hold exactly the new program (named by the old
      counter) and the stages that compiled, and `gid_` is 0 without a
      geometry file. */
  lemma ReloadSuccess(h: Handles, hasGeometry: bool, b: Build, g: Gpu)
    requires Valid(g) && Owned(h, g)
    requires !CompileFails(hasGeometry, b) && b.links
    ensures var r := Reload(h, hasGeometry, b, g);
      && r.outcome == Returned(true)
      && r.handles.pid == g.next
      && (r.handles.vid != 0 <==> b.vertex == Compiles)
      && (r.handles.fid != 0 <==> b.fragment == Compiles)
      && (r.handles.gid != 0 <==> hasGeometry && b.geometry == Compiles)
      && (!hasGeometry ==> r.handles.gid == 0)
      && Distinct(r.handles) && Count(r.handles) == 1 + StagesKept(hasGeometry, b)
  {
    var g1 := CleanupGpu(h, g);
    var g2 := Alloc(g1, CreateProgram(g1.next));
    BuildProgramSuccess(g1.next, hasGeometry, b, g2);
  }

  /** On success the new program takes the next id, and the context's live
      objects become those left after cleanup plus the program and the fresh
      stages it kept. */
  lemma ReloadLiveSplit(h: Handles, hasGeometry: bool, b: Build, g: Gpu)
    requires Valid(g) && Owned(h, g)
    requires !CompileFails(hasGeometry, b) && b.links
    ensures var r := Reload(h, hasGeometry, b, g);
      && r.handles.pid == g.next
      && r.gpu.live == (g.live - HandleSet(h)) + {g.next} + HandleSet(r.handles.(pid := 0))
      && (forall id :: id in HandleSet(r.handles.(pid := 0)) ==> g.next <= id)
  {
    var g1 := CleanupGpu(h, g);
    var g2 := Alloc(g1, CreateProgram(g1.next));
    BuildProgramSuccess(g1.next, hasGeometry, b, g2);
  }

  /** Whatever its outcome, `reload` leaves the fields naming only live
      objects: nothing on failure, the new program and stages on success. */
  lemma ReloadOwns(h: Handles, hasGeometry: bool, b: Build, g: Gpu)
    requires Valid(g)
    ensures var r := Reload(h, hasGeometry, b, g);
      Owned(r.handles, r.gpu)
  {
    var g1 := CleanupGpu(h, g);
    var g2 := Alloc(g1, CreateProgram(g1.next));
    if !CompileFails(hasGeometry, b) && b.links {
      BuildProgramSuccess(g1.next, hasGeometry, b, g2);
      HandleSetSplit(BuildProgram(g1.next, hasGeometry, b, g2).handles);
    } else {
      assert HandleSet(NoHandles) == {};
    }
  }

  /** A successful reload leaks nothing: the context holds what it held
      before, minus the old handles, plus the new ones, which are fresh. */
  lemma ReloadNoLeak(h: Handles, hasGeometry: bool, b: Build, g: Gpu)
    requires Valid(g) && Owned(h, g)
    requires !CompileFails(hasGeometry, b) && b.links
    ensures var r := Reload(h, hasGeometry, b, g);
      && HandleSet(r.handles) !! g.live
      && r.gpu.live == (g.live - HandleSet(h)) + HandleSet(r.handles)
      && Owned(r.handles, r.gpu)
  {
    ReloadLiveSplit(h, hasGeometry, b, g);
    var r := Reload(h, hasGeometry, b, g);
    var stages := HandleSet(r.handles.(pid := 0));
    HandleSetSplit(r.handles);
    SwapSets(g.live, HandleSet(h), g.next, stages, r.gpu.live, HandleSet(r.handles));
  }

  lemma HandleSetSplit(h: Handles)
    requires h.pid != 0
    ensures HandleSet(h) == {h.pid} + HandleSet(h.(pid := 0))
  {
  }

  lemma SwapSets(before: set<int>, released: set<int>, n: int, stages: set<int>, after: set<int>, held: set<int>)
    requires forall id :: id in before ==> id < n
    requires released <= before && forall id :: id in stages ==> n <= id
    requires after == (before - released) + {n} + stages && held == {n} + stages
    ensures held !! before && after == (before - released) + held && held <= after
  {
    forall id | id in held ensures id !in before {
    }
  }

  /** As written, a compile error returns false with every field 0 but does
      not delete the program created for this reload: it stays alive with
      nothing referring to it, and so does a vertex stage compiled before a
      later stage fails. */
  lemma ReloadCompileErrorLeaks(h: Handles, hasGeometry: bool, b: Build, g: Gpu)
    requires Valid(g) && Owned(h, g)
    requires CompileFails(hasGeometry, b)
    ensures var r := Reload(h, hasGeometry, b, g);
      && r.outcome == Returned(false) && r.handles == NoHandles
      && g.next in r.gpu.live && g.next !in g.live
      && (b.vertex == Compiles ==> g.next + 1 in r.gpu.live && g.next + 1 !in g.live)
  {
  }

  /** As written, a link failure throws past the `cannot_compile_shader`
      handler; the `cleanup(); return false;` after the throw never runs.
      The fields are 0 (from the initial cleanup) and the program and the
      compiled vertex stage stay alive. */
  lemma ReloadLinkFailureThrows(h: Handles, hasGeometry: bool, b: Build, g: Gpu)
    requires Valid(g) && Owned(h, g)
    requires !CompileFails(hasGeometry, b) && !b.links
    ensures var r := Reload(h, hasGeometry, b, g);
      && r.outcome == ThrewLinkError && r.handles == NoHandles
      && g.next in r.gpu.live && g.next !in g.live
      && (b.vertex == Compiles ==> g.next + 1 in r.gpu.live && g.next + 1 !in g.live)
  {
  }

  lemma SizeAfterSwap(a: set<int>, old_: set<int>, new_: set<int>)
    requires old_ <= a && new_ !! a
    ensures |(a - old_) + new_| == |a| - |old_| + |new_|
  {
    assert a == (a - old_) + old_;
    assert (a - old_) !! old_;
    assert (a - old_) !! new_;
  }

  /** Reloading twice with unchanged sources that compile and link succeeds
      both times, and the second reload does not change the number of live
      GL objects: it releases as many as it creates. */
  lemma ReloadTwiceNoGrowth(h: Handles, hasGeometry: bool, b: Build, g: Gpu)
    requires Valid(g) && Owned(h, g)
    requires !CompileFails(hasGeometry, b) && b.links
    ensures var r1 := Reload(h, hasGeometry, b, g);
      var r2 := Reload(r1.handles, hasGeometry, b, r1.gpu);
      && r1.outcome == Returned(true) && r2.outcome == Returned(true)
      && |r2.gpu.live| == |r1.gpu.live|
  {
    var r1 := Reload(h, hasGeometry, b, g);
    ReloadSuccess(h, hasGeometry, b, g);
    ReloadNoLeak(h, hasGeometry, b, g);
    var r2 := Reload(r1.handles, hasGeometry, b, r1.gpu);
    ReloadSuccess(r1.handles, hasGeometry, b, r1.gpu);
    ReloadNoLeak(r1.handles, hasGeometry, b, r1.gpu);
    HandleSetSize(r1.handles);
    HandleSetSize(r2.handles);
    SizeAfterSwap(r1.gpu.live, HandleSet(r1.handles), HandleSet(r2.handles));
  }
}
