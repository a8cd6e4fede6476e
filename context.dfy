/** The OpenGL context that every wrapper talks to. The native library is not
    part of this model: it is an abstract state object whose entry points say
    what they read, what they change and which call they record. Outcomes that
    only the GPU driver knows (link and compile results, uniform locations,
    strings, info-log text) come from oracle functions fixed when the context
    is created. */
module GLContext {
  import opened Wrappers
  import opened Errors
  import opened GLEnums

  /** The kinds of native objects; each has its own name space. */
  datatype ObjectKind =
    | Textures | VertexArrays | Buffers | Queries | Samplers | Framebuffers
    | Renderbuffers | ProgramPipelines | TransformFeedbacks | Shaders | Programs
  {
    /** Kinds whose names come from a `glGen*` / `glDelete*` pair. */
    predicate Generated() {
      this != Shaders && this != Programs
    }
  }

  /** The global binding state that wrappers bind into, save and restore. */
  datatype Slots = Slots(
    buffers: map<int, int>,          // buffer target -> bound buffer name
    activeUnit: int,                 // value of GL_ACTIVE_TEXTURE
    textures: map<(int, int), int>,  // (texture unit, texture target) -> bound texture name
    vertexArray: int,                // bound vertex array object
    program: int)                    // program in use

  /** A binding slot that was never written reads as 0, the "no object" name. */
  function Bound<K>(m: map<K, int>, k: K): int {
    if k in m then m[k] else 0
  }

  /** A Ruby block handed to a wrapper: what it does to the binding state,
      and the exception it raises, if any. */
  datatype Block = Block(effect: Slots -> Slots, failure: Option<Exception>)

  /** One call into the native library, as recorded in the context's trace. */
  datatype Call =
    | GetInteger(pname: int)
    | GetBoolean(pname: int)
    | GetStringi(pname: int, index: int)
    | GetError
    | BindBuffer(target: int, name: int)
    | BindTexture(target: int, name: int)
    | ActiveTexture(unit: int)
    | BindVertexArray(name: int)
    | UseProgram(program: int)
    | GenObjects(kind: ObjectKind, count: int)
    | DeleteObjects(kind: ObjectKind, names: seq<int>)
    | IsObject(kind: ObjectKind, name: int)
    | CreateShader(shaderKind: int)
    | CreateProgram
    | DeleteShader(shader: int)
    | DeleteProgram(program: int)
    | ShaderSource(shader: int, count: int, strings: seq<string>, lengths: seq<int>)
    | CompileShader(shader: int)
    | GetShaderiv(shader: int, pname: int)
    | GetShaderInfoLog(shader: int, bufSize: int)
    | LinkProgram(program: int)
    | ProgramBinary(program: int, format: int, data: seq<bv8>, length: int)
    | GetProgramiv(program: int, pname: int)
    | GetProgramInfoLog(program: int, bufSize: int)
    | AttachShader(program: int, shader: int)
    | DetachShader(program: int, shader: int)
    | GetUniformLocation(program: int, uniform: string)
    | RunBlock  // the caller's block ran at this point

  /** The context's own correspondence from a glGetInteger binding parameter to
      the buffer target whose binding it reads. */
  const BufferBindingTargets: map<int, int> := map[
    GL_ARRAY_BUFFER_BINDING := GL_ARRAY_BUFFER,
    GL_ATOMIC_COUNTER_BUFFER_BINDING := GL_ATOMIC_COUNTER_BUFFER,
    GL_DISPATCH_INDIRECT_BUFFER_BINDING := GL_DISPATCH_INDIRECT_BUFFER,
    GL_DRAW_INDIRECT_BUFFER_BINDING := GL_DRAW_INDIRECT_BUFFER,
    GL_ELEMENT_ARRAY_BUFFER_BINDING := GL_ELEMENT_ARRAY_BUFFER,
    GL_PIXEL_PACK_BUFFER_BINDING := GL_PIXEL_PACK_BUFFER,
    GL_PIXEL_UNPACK_BUFFER_BINDING := GL_PIXEL_UNPACK_BUFFER,
    GL_QUERY_BUFFER_BINDING := GL_QUERY_BUFFER,
    GL_SHADER_STORAGE_BUFFER_BINDING := GL_SHADER_STORAGE_BUFFER,
    GL_TEXTURE_BUFFER_BINDING := GL_TEXTURE_BUFFER,
    GL_TRANSFORM_FEEDBACK_BUFFER_BINDING := GL_TRANSFORM_FEEDBACK_BUFFER,
    GL_UNIFORM_BUFFER_BINDING := GL_UNIFORM_BUFFER]

  /** The same for texture targets; these read the binding of the active unit. */
  const TextureBindingTargets: map<int, int> := map[
    GL_TEXTURE_BINDING_1D := GL_TEXTURE_1D,
    GL_TEXTURE_BINDING_2D := GL_TEXTURE_2D,
    GL_TEXTURE_BINDING_3D := GL_TEXTURE_3D,
    GL_TEXTURE_BINDING_1D_ARRAY := GL_TEXTURE_1D_ARRAY,
    GL_TEXTURE_BINDING_2D_ARRAY := GL_TEXTURE_2D_ARRAY,
    GL_TEXTURE_BINDING_RECTANGLE := GL_TEXTURE_RECTANGLE,
    GL_TEXTURE_BINDING_CUBE_MAP := GL_TEXTURE_CUBE_MAP,
    GL_TEXTURE_BINDING_CUBE_MAP_ARRAY := GL_TEXTURE_CUBE_MAP_ARRAY,
    GL_TEXTURE_BINDING_BUFFER := GL_TEXTURE_BUFFER,
    GL_TEXTURE_BINDING_2D_MULTISAMPLE := GL_TEXTURE_2D_MULTISAMPLE,
    GL_TEXTURE_BINDING_2D_MULTISAMPLE_ARRAY := GL_TEXTURE_2D_MULTISAMPLE_ARRAY]

  /** What the driver decides and the model does not compute. */
  datatype Oracles = Oracles(
    uniformLocation: (int, string) -> int,  // (program, uniform name) -> location, -1 when absent
    compileStatus: seq<string> -> int,      // shader sources -> GL_COMPILE_STATUS after compiling
    linkStatus: (int, set<int>) -> int,     // (program, attached shaders) -> GL_LINK_STATUS after linking
    binaryStatus: (int, seq<bv8>) -> int,   // (binary format, bytes) -> GL_LINK_STATUS after loading
    integer: int -> int,                    // glGetInteger of a parameter that is not a binding
    boolean: int -> int,                    // glGetBooleanv
    indexedString: (int, int) -> string,    // glGetStringi
    infoLog: int -> string)                 // the text of a shader's or program's info log

  /** Indexing a target-to-getter Hash whose default proc raises `miss`: a
      mapped target gives its getter parameter, any other target raises. */
  function GetterLookup(getters: map<int, int>, target: int, miss: Exception): (r: Result<int, Exception>)
    ensures r.Success? <==> target in getters
    ensures r.Success? ==> r.value == getters[target]
    ensures r.Failure? ==> r.error == miss
  {
    if target in getters then Success(getters[target]) else Failure(miss)
  }

  /** The first `count` names the allocator hands out; an exhausted supply yields 0. */
  function Issue(supply: seq<int>, count: nat): (names: seq<int>)
    ensures |names| == count
    ensures forall i :: 0 <= i < count ==> names[i] == (if i < |supply| then supply[i] else 0)
  {
    seq(count, i requires 0 <= i < count => if i < |supply| then supply[i] else 0)
  }

  /** The supply left after `count` names were handed out. */
  function Remaining(supply: seq<int>, count: nat): seq<int> {
    if count <= |supply| then supply[count..] else []
  }

  /** The next name the allocator hands out (0 when it fails). */
  function NextName(supply: seq<int>): int {
    if |supply| > 0 then supply[0] else 0
  }

  /** The live objects a batch of names denotes; 0 denotes none. */
  function Named(kind: ObjectKind, names: seq<int>): set<(ObjectKind, int)> {
    set n | n in names && n != 0 :: (kind, n)
  }

  /** The buffer a glGet*InfoLog call fills: up to `|buffer| - 1` characters
      of the log, then a NUL; the rest of the buffer keeps its contents. */
  function WriteLog(log: string, buffer: string): (r: string)
    ensures |r| == |buffer|
    ensures forall i :: 0 <= i < |buffer| && i < |log| && i < |buffer| - 1 ==> r[i] == log[i]
  {
    if |buffer| == 0 then buffer
    else
      var k := if |log| < |buffer| - 1 then |log| else |buffer| - 1;
      log[..k] + ['\0'] + buffer[k + 1..]
  }

  class Context {
    var slots: Slots
    /** The names the context reports as live, per kind. */
    var live: set<(ObjectKind, int)>
    /** The names the allocators will hand out next, in order; a 0 is a failed allocation. */
    var supply: seq<int>
    /** The sticky error flag read and cleared by glGetError. */
    var error: int
    var sources: map<int, seq<string>>
    var attached: map<int, set<int>>
    var shaderParams: map<(int, int), int>
    var programParams: map<(int, int), int>
    /** Every call made into the library, in order. */
    ghost var trace: seq<Call>
    const oracles: Oracles

    /** No live object is ever named 0. */
    ghost predicate Valid()
      reads this
    {
      forall e | e in live :: e.1 != 0
    }

    constructor (supply: seq<int>, error: int, oracles: Oracles)
      ensures Valid()
      ensures slots == Slots(map[], GL_TEXTURE0, map[], 0, 0)
      ensures live == {} && this.supply == supply && this.error == error && trace == []
      ensures sources == map[] && attached == map[] && shaderParams == map[] && programParams == map[]
      ensures this.oracles == oracles
    {
      slots := Slots(map[], GL_TEXTURE0, map[], 0, 0);
      live := {};
      this.supply := supply;
      this.error := error;
      sources := map[];
      attached := map[];
      shaderParams := map[];
      programParams := map[];
      trace := [];
      this.oracles := oracles;
    }

    /** The value glGetInteger reports for `pname`. */
    function QueryInteger(pname: int): int
      reads this
    {
      if pname == GL_ACTIVE_TEXTURE then slots.activeUnit
      else if pname == GL_CURRENT_PROGRAM then slots.program
      else if pname == GL_VERTEX_ARRAY_BINDING then slots.vertexArray
      else if pname in BufferBindingTargets then Bound(slots.buffers, BufferBindingTargets[pname])
      else if pname in TextureBindingTargets then Bound(slots.textures, (slots.activeUnit, TextureBindingTargets[pname]))
      else oracles.integer(pname)
    }

    function AttachedTo(program: int): set<int>
      reads this
    {
      if program in attached then attached[program] else {}
    }

    method GetInteger(pname: int) returns (v: int)
      modifies this`trace
      ensures v == QueryInteger(pname)
      ensures trace == old(trace) + [Call.GetInteger(pname)]
    {
      v := QueryInteger(pname);
      trace := trace + [Call.GetInteger(pname)];
    }

    method GetBoolean(pname: int) returns (v: int)
      modifies this`trace
      ensures v == oracles.boolean(pname)
      ensures trace == old(trace) + [Call.GetBoolean(pname)]
    {
      v := oracles.boolean(pname);
      trace := trace + [Call.GetBoolean(pname)];
    }

    method GetStringi(pname: int, index: int) returns (s: string)
      modifies this`trace
      ensures s == oracles.indexedString(pname, index)
      ensures trace == old(trace) + [Call.GetStringi(pname, index)]
    {
      s := oracles.indexedString(pname, index);
      trace := trace + [Call.GetStringi(pname, index)];
    }

    /** Reading the sticky error flag clears it. */
    method GetError() returns (code: int)
      modifies this`error, this`trace
      ensures code == old(error) && error == GL_NO_ERROR
      ensures trace == old(trace) + [Call.GetError]
    {
      code := error;
      error := GL_NO_ERROR;
      trace := trace + [Call.GetError];
    }

    method BindBuffer(target: int, name: int)
      modifies this`slots, this`trace
      ensures slots == old(slots).(buffers := old(slots).buffers[target := name])
      ensures trace == old(trace) + [Call.BindBuffer(target, name)]
    {
      slots := slots.(buffers := slots.buffers[target := name]);
      trace := trace + [Call.BindBuffer(target, name)];
    }

    /** Binds on the texture unit that is active at the time of the call. */
    method BindTexture(target: int, name: int)
      modifies this`slots, this`trace
      ensures slots == old(slots).(textures := old(slots).textures[(old(slots).activeUnit, target) := name])
      ensures trace == old(trace) + [Call.BindTexture(target, name)]
    {
      slots := slots.(textures := slots.textures[(slots.activeUnit, target) := name]);
      trace := trace + [Call.BindTexture(target, name)];
    }

    method ActiveTexture(unit: int)
      modifies this`slots, this`trace
      ensures slots == old(slots).(activeUnit := unit)
      ensures trace == old(trace) + [Call.ActiveTexture(unit)]
    {
      slots := slots.(activeUnit := unit);
      trace := trace + [Call.ActiveTexture(unit)];
    }

    method BindVertexArray(name: int)
      modifies this`slots, this`trace
      ensures slots == old(slots).(vertexArray := name)
      ensures trace == old(trace) + [Call.BindVertexArray(name)]
    {
      slots := slots.(vertexArray := name);
      trace := trace + [Call.BindVertexArray(name)];
    }

    method UseProgram(program: int)
      modifies this`slots, this`trace
      ensures slots == old(slots).(program := program)
      ensures trace == old(trace) + [Call.UseProgram(program)]
    {
      slots := slots.(program := program);
      trace := trace + [Call.UseProgram(program)];
    }

    /** Runs a caller's block: its effect on the bindings, then its exception. */
    method Yield(b: Block) returns (raised: Option<Exception>)
      modifies this`slots, this`trace
      ensures slots == b.effect(old(slots)) && raised == b.failure
      ensures trace == old(trace) + [RunBlock]
    {
      slots := b.effect(slots);
      raised := b.failure;
      trace := trace + [RunBlock];
    }

    /** `glGen*(count, out)`: writes `count` names from the supply into `out`. */
    method GenNames(kind: ObjectKind, count: nat, out: array<int>)
      requires kind.Generated() && out.Length == count && Valid()
      modifies this`supply, this`live, this`trace, out
      ensures Valid()
      ensures out[..] == Issue(old(supply), count)
      ensures supply == Remaining(old(supply), count)
      ensures live == old(live) + Named(kind, out[..])
      ensures trace == old(trace) + [GenObjects(kind, count)]
    {
      var names := Issue(supply, count);
      forall i | 0 <= i < count {
        out[i] := names[i];
      }
      assert out[..] == names;
      live := live + Named(kind, names);
      supply := Remaining(supply, count);
      trace := trace + [GenObjects(kind, count)];
    }

    /** `glDelete*(count, names)`: the named objects are no longer live. */
    method DeleteNames(kind: ObjectKind, names: seq<int>)
      requires kind.Generated() && Valid()
      modifies this`live, this`trace
      ensures Valid()
      ensures live == old(live) - Named(kind, names)
      ensures trace == old(trace) + [DeleteObjects(kind, names)]
    {
      live := live - Named(kind, names);
      trace := trace + [DeleteObjects(kind, names)];
    }

    /** `glIs*`: GL_TRUE exactly for a live name of that kind. */
    method IsLive(kind: ObjectKind, name: int) returns (v: int)
      modifies this`trace
      ensures v == if (kind, name) in live then GL_TRUE else GL_FALSE
      ensures trace == old(trace) + [IsObject(kind, name)]
    {
      v := if (kind, name) in live then GL_TRUE else GL_FALSE;
      trace := trace + [IsObject(kind, name)];
    }

    method NewShader(shaderKind: int) returns (name: int)
      requires Valid()
      modifies this`supply, this`live, this`trace
      ensures Valid()
      ensures name == NextName(old(supply)) && supply == Remaining(old(supply), 1)
      ensures live == old(live) + Named(Shaders, [name])
      ensures trace == old(trace) + [CreateShader(shaderKind)]
    {
      name := NextName(supply);
      supply := Remaining(supply, 1);
      live := live + Named(Shaders, [name]);
      trace := trace + [CreateShader(shaderKind)];
    }

    method NewProgram() returns (name: int)
      requires Valid()
      modifies this`supply, this`live, this`trace
      ensures Valid()
      ensures name == NextName(old(supply)) && supply == Remaining(old(supply), 1)
      ensures live == old(live) + Named(Programs, [name])
      ensures trace == old(trace) + [CreateProgram]
    {
      name := NextName(supply);
      supply := Remaining(supply, 1);
      live := live + Named(Programs, [name]);
      trace := trace + [CreateProgram];
    }

    method RemoveShader(shader: int)
      requires Valid()
      modifies this`live, this`trace
      ensures Valid()
      ensures live == old(live) - {(Shaders, shader)}
      ensures trace == old(trace) + [DeleteShader(shader)]
    {
      live := live - {(Shaders, shader)};
      trace := trace + [DeleteShader(shader)];
    }

    method RemoveProgram(program: int)
      requires Valid()
      modifies this`live, this`trace
      ensures Valid()
      ensures live == old(live) - {(Programs, program)}
      ensures trace == old(trace) + [DeleteProgram(program)]
    {
      live := live - {(Programs, program)};
      trace := trace + [DeleteProgram(program)];
    }

    /** `glShaderSource(shader, count, strings, lengths)`: replaces all of the shader's source. */
    method SetShaderSource(shader: int, count: int, strings: seq<string>, lengths: seq<int>)
      modifies this`sources, this`trace
      ensures sources == old(sources)[shader := strings]
      ensures trace == old(trace) + [ShaderSource(shader, count, strings, lengths)]
    {
      sources := sources[shader := strings];
      trace := trace + [ShaderSource(shader, count, strings, lengths)];
    }

    method Compile(shader: int)
      modifies this`shaderParams, this`trace
      ensures shaderParams == old(shaderParams)[(shader, GL_COMPILE_STATUS) :=
        oracles.compileStatus(if shader in old(sources) then old(sources)[shader] else [])]
      ensures trace == old(trace) + [CompileShader(shader)]
    {
      var status := oracles.compileStatus(if shader in sources then sources[shader] else []);
      shaderParams := shaderParams[(shader, GL_COMPILE_STATUS) := status];
      trace := trace + [CompileShader(shader)];
    }

    method ShaderParam(shader: int, pname: int) returns (v: int)
      modifies this`trace
      ensures v == Bound(shaderParams, (shader, pname))
      ensures trace == old(trace) + [GetShaderiv(shader, pname)]
    {
      v := Bound(shaderParams, (shader, pname));
      trace := trace + [GetShaderiv(shader, pname)];
    }

    method ShaderInfoLog(shader: int, buffer: string) returns (filled: string)
      modifies this`trace
      ensures filled == WriteLog(oracles.infoLog(shader), buffer)
      ensures trace == old(trace) + [GetShaderInfoLog(shader, |buffer|)]
    {
      filled := WriteLog(oracles.infoLog(shader), buffer);
      trace := trace + [GetShaderInfoLog(shader, |buffer|)];
    }

    method Link(program: int)
      modifies this`programParams, this`trace
      ensures programParams == old(programParams)[(program, GL_LINK_STATUS) :=
        oracles.linkStatus(program, old(AttachedTo(program)))]
      ensures trace == old(trace) + [LinkProgram(program)]
    {
      var status := oracles.linkStatus(program, AttachedTo(program));
      programParams := programParams[(program, GL_LINK_STATUS) := status];
      trace := trace + [LinkProgram(program)];
    }

    method LoadBinary(program: int, format: int, data: seq<bv8>, length: int)
      modifies this`programParams, this`trace
      ensures programParams == old(programParams)[(program, GL_LINK_STATUS) := oracles.binaryStatus(format, data)]
      ensures trace == old(trace) + [ProgramBinary(program, format, data, length)]
    {
      programParams := programParams[(program, GL_LINK_STATUS) := oracles.binaryStatus(format, data)];
      trace := trace + [ProgramBinary(program, format, data, length)];
    }

    method ProgramParam(program: int, pname: int) returns (v: int)
      modifies this`trace
      ensures v == Bound(programParams, (program, pname))
      ensures trace == old(trace) + [GetProgramiv(program, pname)]
    {
      v := Bound(programParams, (program, pname));
      trace := trace + [GetProgramiv(program, pname)];
    }

    method ProgramInfoLog(program: int, buffer: string) returns (filled: string)
      modifies this`trace
      ensures filled == WriteLog(oracles.infoLog(program), buffer)
      ensures trace == old(trace) + [GetProgramInfoLog(program, |buffer|)]
    {
      filled := WriteLog(oracles.infoLog(program), buffer);
      trace := trace + [GetProgramInfoLog(program, |buffer|)];
    }

    method Attach(program: int, shader: int)
      modifies this`attached, this`trace
      ensures attached == old(attached)[program := old(AttachedTo(program)) + {shader}]
      ensures trace == old(trace) + [AttachShader(program, shader)]
    {
      attached := attached[program := AttachedTo(program) + {shader}];
      trace := trace + [AttachShader(program, shader)];
    }

    method Detach(program: int, shader: int)
      modifies this`attached, this`trace
      ensures attached == old(attached)[program := old(AttachedTo(program)) - {shader}]
      ensures trace == old(trace) + [DetachShader(program, shader)]
    {
      attached := attached[program := AttachedTo(program) - {shader}];
      trace := trace + [DetachShader(program, shader)];
    }

    method UniformLocation(program: int, uniform: string) returns (location: int)
      modifies this`trace
      ensures location == oracles.uniformLocation(program, uniform)
      ensures trace == old(trace) + [GetUniformLocation(program, uniform)]
    {
      location := oracles.uniformLocation(program, uniform);
      trace := trace + [GetUniformLocation(program, uniform)];
    }
  }
}
