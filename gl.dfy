/**
 * An abstract OpenGL context: an allocator for object names (a set of live ids
 * handed out from a counter, 0 never being a valid name) and the trace of the
 * calls the program issues. Nothing here draws; the trace is what the model
 * observes.
 */
module Gl {

  // OpenGL enumerants the core passes around.
  const GL_TEXTURE_2D: int := 0x0DE1
  const GL_LINEAR: int := 0x2601
  const GL_LINEAR_MIPMAP_LINEAR: int := 0x2703
  const GL_TEXTURE_MAG_FILTER: int := 0x2800
  const GL_TEXTURE_MIN_FILTER: int := 0x2801
  const GL_TEXTURE_WRAP_S: int := 0x2802
  const GL_TEXTURE_WRAP_T: int := 0x2803
  const GL_UNPACK_ALIGNMENT: int := 0x0CF5
  const GL_PACK_ALIGNMENT: int := 0x0D05

  /** An unsigned 8-bit value (`uint8_t`), as image bytes are. */
  type Byte = b: int | 0 <= b < 256

  datatype StageKind = VertexShader | FragmentShader | GeometryShader

  datatype Call =
    | CreateProgram(program: int)
    | CreateShader(kind: StageKind, shader: int)
    | CompileShader(shader: int)
    | AttachShader(program: int, shader: int)
    | LinkProgram(program: int)
    | DeleteProgram(program: int)
    | DeleteShader(shader: int)
    | UseProgram(program: int)
    | GetUniformLocation(program: int, name: string)
    | Uniform1i(location: int, i: int)
    | Uniform1f(location: int, f: real)
    | Uniform3f(location: int, v0: real, v1: real, v2: real)
    | Uniform4f(location: int, v0: real, v1: real, v2: real, v3: real)
    | UniformMatrix3fv(location: int, data: seq<real>)
    | UniformMatrix4fv(location: int, data: seq<real>)
    | GenTexture(texture: int)
    | DeleteTexture(texture: int)
    | ActiveTexture(unit: int)
    | BindTexture(target: int, texture: int)
    | TexParameter(target: int, pname: int, param: int)
    | PixelStore(pname: int, param: int)
    | TexImage2D(target: int, width: int, height: int, pixels: seq<Byte>)
    | GenerateMipmap(target: int)

  /** The context as a value: live object names, the next name, the call trace. */
  datatype Gpu = Gpu(live: set<int>, next: int, calls: seq<Call>)

  /** Every live name is positive and below the counter, so fresh names are new. */
  ghost predicate Valid(g: Gpu) {
    0 < g.next && forall id :: id in g.live ==> 0 < id < g.next
  }

  /** Hands out the name `g.next`, recording `c` (which mentions that name). */
  function Alloc(g: Gpu, c: Call): (r: Gpu)
    ensures Valid(g) ==> Valid(r) && g.next !in g.live
    ensures r.live == g.live + {g.next} && r.next == g.next + 1 && r.calls == g.calls + [c]
  {
    Gpu(g.live + {g.next}, g.next + 1, g.calls + [c])
  }

  /** Releases `id`, recording the delete call `c`. */
  function Free(g: Gpu, id: int, c: Call): (r: Gpu)
    ensures Valid(g) ==> Valid(r)
    ensures r.live == g.live - {id} && r.next == g.next && r.calls == g.calls + [c]
  {
    Gpu(g.live - {id}, g.next, g.calls + [c])
  }

  /** Records a call that neither creates nor deletes an object. */
  function Record(g: Gpu, c: Call): (r: Gpu)
    ensures Valid(g) ==> Valid(r)
    ensures r.live == g.live && r.next == g.next && r.calls == g.calls + [c]
  {
    g.(calls := g.calls + [c])
  }

  /** Records several such calls, in order. */
  function RecordAll(g: Gpu, cs: seq<Call>): (r: Gpu)
    ensures Valid(g) ==> Valid(r)
    ensures r.live == g.live && r.next == g.next && r.calls == g.calls + cs
  {
    g.(calls := g.calls + cs)
  }

  /**
   * The GL context as mutable state. `uniformLocation` is what the driver
   * answers to glGetUniformLocation (-1 for an unknown or optimised-out name).
   */
  class Context {
    var live: set<int>
    var next: int
    var calls: seq<Call>
    const uniformLocation: (int, string) -> int

    function Value(): Gpu
      reads this
    {
      Gpu(live, next, calls)
    }

    constructor (locate: (int, string) -> int)
      ensures Value() == Gpu({}, 1, []) && Valid(Value())
      ensures uniformLocation == locate
    {
      live, next, calls := {}, 1, [];
      uniformLocation := locate;
    }

    method Create(c: int -> Call) returns (id: int)
      modifies this
      ensures id == old(next)
      ensures Value() == Alloc(old(Value()), c(id))
    {
      id := next;
      live, next, calls := live + {id}, next + 1, calls + [c(id)];
    }

    method Delete(id: int, c: Call)
      modifies this
      ensures Value() == Free(old(Value()), id, c)
    {
      live, calls := live - {id}, calls + [c];
    }

    method Issue(c: Call)
      modifies this
      ensures Value() == Record(old(Value()), c)
    {
      calls := calls + [c];
    }
  }
}
