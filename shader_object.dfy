/**
 * The `Shader` object itself (src/shader.hh, src/shader.cpp): its file paths
 * and handle fields, updated in place against a GL context. Each method is
 * proved to do what the value-level definitions in `ShaderProgram` say, so
 * the lemmas of `ShaderReloadFacts` carry over to it; `set_uniform` and its
 * by-location overloads are specified here.
 */
module Shaders {
  import opened Wrappers
  import opened Vectors
  import opened Gl
  import opened ShaderProgram
  import ShaderReloadFacts

  // ----- set_uniform ---------------------------------------------------------

  /** The C++ types `set_uniform` is instantiated with. */
  datatype UniformValue =
    | BoolValue(b: bool)
    | FloatValue(f: real)
    | IntValue(i: int)
    | Vec3Value(x: real, y: real, z: real)
    | Vec4Value(v: Vec4)
    | Mat3Value(m: seq<real>)
    | Mat4Value(m: seq<real>)

  /** The GLSL type of the uniform receiving the value. */
  datatype UniformType = BoolType | FloatType | IntType | Vec3Type | Vec4Type | Mat3Type | Mat4Type

  function TypeOf(v: UniformValue): UniformType {
    match v
    case BoolValue(_) => BoolType
    case FloatValue(_) => FloatType
    case IntValue(_) => IntType
    case Vec3Value(_, _, _) => Vec3Type
    case Vec4Value(_) => Vec4Type
    case Mat3Value(_) => Mat3Type
    case Mat4Value(_) => Mat4Type
  }

  /** The `set_uniform_by_location` overload chosen for `v`; a bool goes out
      through glUniform1i as 0 or 1. */
  function UploadCall(loc: int, v: UniformValue): (c: Call)
    ensures c.Uniform1i? || c.Uniform1f? || c.Uniform3f? || c.Uniform4f? ||
            c.UniformMatrix3fv? || c.UniformMatrix4fv?
    ensures c.location == loc
    ensures c.Uniform1i? <==> v.BoolValue? || v.IntValue?
  {
    match v
    case BoolValue(b) => Uniform1i(loc, if b then 1 else 0)
    case FloatValue(f) => Uniform1f(loc, f)
    case IntValue(i) => Uniform1i(loc, i)
    case Vec3Value(x, y, z) => Uniform3f(loc, x, y, z)
    case Vec4Value(p) => Uniform4f(loc, p.x, p.y, p.z, p.w)
    case Mat3Value(m) => UniformMatrix3fv(loc, m)
    case Mat4Value(m) => UniformMatrix4fv(loc, m)
  }

  /** What a uniform of type `t` holds after the call `c` (GL reads a nonzero
      integer as `true` for a bool uniform); None when the call does not fit
      the type. */
  function Received(c: Call, t: UniformType): Option<UniformValue> {
    match t
    case BoolType => if c.Uniform1i? then Some(BoolValue(c.i != 0)) else None
    case FloatType => if c.Uniform1f? then Some(FloatValue(c.f)) else None
    case IntType => if c.Uniform1i? then Some(IntValue(c.i)) else None
    case Vec3Type => if c.Uniform3f? then Some(Vec3Value(c.v0, c.v1, c.v2)) else None
    case Vec4Type => if c.Uniform4f? then Some(Vec4Value(Vec4(c.v0, c.v1, c.v2, c.v3))) else None
    case Mat3Type => if c.UniformMatrix3fv? then Some(Mat3Value(c.data)) else None
    case Mat4Type => if c.UniformMatrix4fv? then Some(Mat4Value(c.data)) else None
  }

  /** Every overload delivers its value unchanged to a uniform of its own type. */
  lemma UploadDelivers(loc: int, v: UniformValue)
    ensures Received(UploadCall(loc, v), TypeOf(v)) == Some(v)
  {
  }

  /** The calls `set_uniform` issues and whether it reports an invalid location. */
  datatype UniformEffect = UniformEffect(calls: seq<Call>, reported: bool)

  /** `set_uniform` on a shader whose program is `pid`, when the driver answers
      `loc` for `name`. */
  function SetUniformEffect(pid: int, name: string, v: UniformValue, optional: bool, loc: int): (r: UniformEffect)
    ensures pid == 0 ==> r.calls == [] && !r.reported
    ensures pid != 0 ==> 1 <= |r.calls| && r.calls[0] == GetUniformLocation(pid, name)
    ensures r.reported <==> pid != 0 && loc == -1 && !optional
    ensures |r.calls| == 2 <==> pid != 0 && loc != -1
    ensures |r.calls| == 2 ==> Received(r.calls[1], TypeOf(v)) == Some(v) && r.calls[1].location == loc
    ensures |r.calls| <= 2
  {
    if pid == 0 then UniformEffect([], false)
    else if loc == -1 then UniformEffect([GetUniformLocation(pid, name)], !optional)
    else
      UploadDelivers(loc, v);
      UniformEffect([GetUniformLocation(pid, name), UploadCall(loc, v)], false)
  }

  /** A shader that has no program issues nothing, whatever it is asked to set. */
  lemma NoProgramNoUniforms(name: string, v: UniformValue, optional: bool, loc: int)
    ensures SetUniformEffect(0, name, v, optional, loc) == UniformEffect([], false)
  {
  }

  // ----- the Shader object ---------------------------------------------------

  class Shader {
    var vfile: string
    var ffile: string
    var gfile: string
    var pid: int
    var vid: int
    var fid: int
    var gid: int

    /** The handle fields as a value. */
    function Held(): Handles
      reads this
    {
      Handles(pid, vid, fid, gid)
    }

    /** The fields name only objects alive in `gl` (a zero field names
        nothing); `cleanup`, `reload` and `load` leave it true, so the reload
        lemmas, which assume it of the old fields, chain from call to call. */
    ghost predicate Owns(gl: Context)
      reads this, gl
    {
      Owned(Held(), gl.Value())
    }

    constructor ()
      ensures Held() == NoHandles
      ensures vfile == "" && ffile == "" && gfile == ""
    {
      vfile, ffile, gfile := "", "", "";
      pid, vid, fid, gid := 0, 0, 0, 0;
    }

    /** Deletes the program and the stages it holds, then zeroes the fields
        (also what the destructor does). */
    method Cleanup(gl: Context)
      modifies this, gl
      ensures gl.Value() == CleanupGpu(old(Held()), old(gl.Value()))
      ensures Held() == NoHandles && Owns(gl)
      ensures vfile == old(vfile) && ffile == old(ffile) && gfile == old(gfile)
    {
      if pid != 0 { gl.Delete(pid, DeleteProgram(pid)); }
      if vid != 0 { gl.Delete(vid, DeleteShader(vid)); }
      if fid != 0 { gl.Delete(fid, DeleteShader(fid)); }
      if gid != 0 { gl.Delete(gid, DeleteShader(gid)); }
      pid, vid, fid, gid := 0, 0, 0, 0;
    }

    /** Reads, creates and compiles one stage; `threw` is the
        `cannot_compile_shader` exception. */
    method LoadAndCompile(gl: Context, kind: StageKind, s: Stage) returns (id: int, threw: bool)
      requires Valid(gl.Value())
      modifies gl
      ensures Compiled(id, gl.Value(), threw) == ShaderProgram.LoadAndCompile(kind, s, old(gl.Value()))
    {
      match s
      case Unreadable =>
        id, threw := 0, false;
      case NoShaderObject =>
        gl.Issue(CreateShader(kind, 0));
        id, threw := 0, false;
      case CompileError =>
        var n := gl.Create(i => CreateShader(kind, i));
        gl.Issue(CompileShader(n));
        gl.Delete(n, DeleteShader(n));
        id, threw := 0, true;
      case Compiles =>
        id := gl.Create(i => CreateShader(kind, i));
        gl.Issue(CompileShader(id));
        threw := false;
    }

    /** One stage of `reload`: compile, and attach what compiled to `program`. */
    method CompileStage(gl: Context, program: int, kind: StageKind, s: Stage) returns (id: int, threw: bool)
      requires Valid(gl.Value())
      modifies gl
      ensures Compiled(id, gl.Value(), threw) == CompileAndAttach(program, kind, s, old(gl.Value()))
    {
      id, threw := LoadAndCompile(gl, kind, s);
      if !threw && id != 0 {
        gl.Issue(AttachShader(program, id));
      }
    }

    /** `reload`: cleanup, a new program, then the stages and the link. */
    method Reload(gl: Context, b: Build) returns (outcome: Outcome)
      requires Valid(gl.Value())
      modifies this, gl
      ensures Reloaded(outcome, Held(), gl.Value()) == ShaderProgram.Reload(old(Held()), old(gfile) != "", b, old(gl.Value()))
      ensures vfile == old(vfile) && ffile == old(ffile) && gfile == old(gfile)
      ensures Owns(gl)
    {
      ShaderReloadFacts.ReloadOwns(Held(), gfile != "", b, gl.Value());
      Cleanup(gl);
      var program := gl.Create(p => CreateProgram(p));
      outcome := Build(gl, program, b);
    }

    /** The part of `reload` after glCreateProgram: the stages (geometry only
        when `gfile_` is non-empty) and the link; the fields are assigned only
        when everything has passed. */
    method Build(gl: Context, program: int, b: Build) returns (outcome: Outcome)
      requires Valid(gl.Value()) && 0 < program < gl.next
      requires Held() == NoHandles
      modifies this, gl
      ensures Reloaded(outcome, Held(), gl.Value()) == BuildProgram(program, gfile != "", b, old(gl.Value()))
      ensures vfile == old(vfile) && ffile == old(ffile) && gfile == old(gfile)
    {
      var v, vt := CompileStage(gl, program, VertexShader, b.vertex);
      if vt {
        return Returned(false);
      }
      var f, ft := CompileStage(gl, program, FragmentShader, b.fragment);
      if ft {
        return Returned(false);
      }
      var gs := 0;
      if gfile != "" {
        var gt;
        gs, gt := CompileStage(gl, program, GeometryShader, b.geometry);
        if gt {
          return Returned(false);
        }
      }
      gl.Issue(LinkProgram(program));
      if !b.links {
        return ThrewLinkError;
      }
      pid, vid, fid, gid := program, v, f, gs;
      return Returned(true);
    }

    /** `load`: remembers the three paths, then reloads; an empty `g` means
        no geometry stage. */
    method Load(gl: Context, v: string, f: string, g: string, b: Build) returns (outcome: Outcome)
      requires Valid(gl.Value())
      modifies this, gl
      ensures vfile == v && ffile == f && gfile == g
      ensures Reloaded(outcome, Held(), gl.Value()) == ShaderProgram.Reload(old(Held()), g != "", b, old(gl.Value()))
      ensures Owns(gl)
    {
      vfile, ffile, gfile := v, f, g;
      assert Held() == old(Held()) && gl.Value() == old(gl.Value());
      outcome := Reload(gl, b);
    }

    /** `use`: binds the program, if there is one. */
    method Use(gl: Context)
      modifies gl
      ensures gl.Value() == if pid != 0 then Record(old(gl.Value()), UseProgram(pid)) else old(gl.Value())
    {
      if pid != 0 {
        gl.Issue(UseProgram(pid));
      }
    }

    /** `disable`: unbinds whatever program is bound. */
    method Disable(gl: Context)
      modifies gl
      ensures gl.Value() == Record(old(gl.Value()), UseProgram(0))
    {
      gl.Issue(UseProgram(0));
    }

    /** `set_uniform`: asks the driver for the location and uploads the value
        there; returns whether it reports an invalid location. */
    method SetUniform(gl: Context, name: string, value: UniformValue, optional: bool) returns (reported: bool)
      modifies gl
      ensures var e := SetUniformEffect(pid, name, value, optional, gl.uniformLocation(pid, name));
        gl.Value() == old(gl.Value()).(calls := old(gl.calls) + e.calls) && reported == e.reported
    {
      if pid == 0 {
        return false;
      }
      gl.Issue(GetUniformLocation(pid, name));
      var location := gl.uniformLocation(pid, name);
      if location == -1 {
        return !optional;
      }
      gl.Issue(UploadCall(location, value));
      return false;
    }
  }
}
