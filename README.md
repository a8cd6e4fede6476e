# opengl-aux resource wrappers, modelled in Dafny

opengl-aux is a Ruby library that wraps OpenGL objects in small classes. This
project models its core:

- `GL::Buffer`, `GL::Texture`, `GL::VertexArray`, `GL::Shader` and `GL::Program`;
- the helpers the library adds to the `GL` module;
- the `GL::GLError` exception hierarchy.

Each wrapper holds a native `name`, where 0 means "no object". A buffer is
allocated lazily by its first unscoped `bind`, and a vertex array by its first
`bind` of either kind. A texture is never allocated by `bind` (see below).
`delete` is idempotent. A class-level `preserve_binding` saves a global binding slot,
runs a block and restores the slot on every exit path. Textures also save and
restore the active texture unit around that. A Program keeps a cache of
uniform locations that is re-queried after each successful link.

The native OpenGL library is not part of this model's source. It is modelled
as the class `GLContext.Context` (context.dfy). Its state is:

- the binding slots: buffer targets, the active texture unit and the texture
  bindings per unit, the vertex array, the current program;
- the set of live object names, and a supply of names that yields 0 when
  allocation fails;
- the sticky error code;
- shader sources, attachments and object parameters.

What the driver decides is held in fixed oracle functions: uniform locations,
compile, link and binary-load outcomes, integer, boolean and string queries,
and info-log text. A ghost `trace` records every native call. Contracts use it
to state call order, calls that are not made and exactly-once submission.

A Ruby block is a `Block`: its effect on the binding slots and the exception it
raises, if any. A missing block is `None`. Raised exceptions are `Option` or
`Result` values (`Errors.Exception`, with the class, the message and the
GLStateError code).

Files:

| file | module |
|---|---|
| wrappers.dfy | `Option`, `Result` |
| errors.dfy | lib/opengl-aux/error.rb |
| gl_enums.dfy | the GL constants used |
| context.dfy | the native GL context |
| gl.dfy | lib/opengl-aux/gl.rb |
| buffer.dfy | lib/opengl-aux/buffer.rb |
| texture.dfy | lib/opengl-aux/texture.rb |
| vertex_array.dfy | lib/opengl-aux/vertex_array.rb |
| shader.dfy | lib/opengl-aux/shader.rb |
| program.dfy | lib/opengl-aux/program.rb |

### Behaviour as written

The model follows the code where it is surprising:

- **Texture#bind never allocates.** `@name ||= GL.glGenTextures(1)` runs
  while `@name` is 0, and 0 is truthy in Ruby. So nothing is assigned,
  glGenTextures is never called, and an unnamed texture always raises
  GLCreateError (`Textures.Texture.BindNow`, `Textures.Texture.Bind`).
- **A scoped Buffer#bind neither allocates nor binds the buffer.** It only
  preserves the target's slot around the block (`Buffers.Buffer.Bind`).
- **Texture.preserve_binding restores on the body's last unit.** It rebinds
  the saved texture on whichever unit is active when the body ends, then
  restores the saved unit. When the body keeps the unit, both come back
  (`Textures.RestoredWhenUnitKept`). When the body switches units, the
  original unit keeps what the body bound there
  (`Textures.UnitSwitchLeavesBinding`).
- **The raise at lib/opengl-aux/buffer.rb:82 and lib/opengl-aux/texture.rb:95
  is unreachable.** The line before it always gives `target` a value.
- **`is_buffer?`, `is_texture?`, `is_vertex_array?`, `is_shader?` and
  `is_program?` always query the context, even for name 0.** The answer for
  0 is false.
- **`Program.new` reports a failed allocation as "Unable to allocate
  shader".** The model keeps that message.
- **The default texture target is written `GL_TEXTURE_2D`, unqualified.**
  In lib/opengl-aux/texture.rb:93 it sits inside `class GL::Texture`, where
  lexical constant lookup does not reach `GL` unless the constant is also
  visible at the top level. The model uses GL_TEXTURE_2D as the default (see
  "## Left out").

## Model

| member | source | states |
|---|---|---|
| Errors.IsATransitive | lib/opengl-aux/error.rb:14-21 | the subclass relation is transitive, so rescuing an ancestor class catches every descendant |
| Errors.RescueGLError | lib/opengl-aux/error.rb:14-21 | GLError's descendants are exactly GLError, GLCreateError and GLStateError; all are StandardErrors; neither of the two subclasses is a subclass of the other |
| Errors.NewStateError | lib/opengl-aux/error.rb:24-27 | `GLStateError.new(code, msg)` keeps the code; its message is msg, or the class name when msg is nil |
| Errors.StateErrorException | lib/opengl-aux/error.rb:29-35 | `exception(msg)` with a message is a new GLStateError with the same code and that message; with nil it is the receiver itself |
| GL.ErrorCheck | lib/opengl-aux/gl.rb:36-42 | raises iff the error code differs from GL_NO_ERROR; the raised GLStateError carries that code and the given message |
| GL.AssertNoGLError | lib/opengl-aux/gl.rb:36-42 | reads the sticky error with exactly one glGetError call, which clears it, and raises as ErrorCheck says |
| GL.GenObjects | lib/opengl-aux/gl.rb:98-111 | count <= 0 gives nil with no call; count 1 gives the single next name; count > 1 gives exactly count names in output order; one gen call; the names become live |
| GL.DeletedNames | lib/opengl-aux/gl.rb:129-143 | an object or an integer deletes one name; an array deletes all its elements in order |
| GL.DeleteObjects | lib/opengl-aux/gl.rb:128-149 | one delete call with the names DeletedNames gives, which stop being live; any other argument raises ArgumentError and makes no call |
| GL.ByteSize | lib/opengl-aux/gl.rb:262 | a string's byte size lies between its length and four times its length, and equals its length iff every character is ASCII |
| GL.ByteSizeConcat | lib/opengl-aux/gl.rb:262 | byte sizes add up over concatenation |
| GL.SourceStrings | lib/opengl-aux/gl.rb:255-270 | an Array submits its elements; anything else submits one string |
| GL.ByteLengths | lib/opengl-aux/gl.rb:261-270 | the lengths array has one entry per string, entry i being the byte size of string i |
| GL.ShaderSource | lib/opengl-aux/gl.rb:254-280 | makes exactly one glShaderSource call, whose count is the number of strings, with all strings and their byte lengths; the shader's source becomes those strings |
| GL.InfoLogOf | lib/opengl-aux/gl.rb:317-323 | a reported length of 0 gives ''; a positive length gives a string of exactly that length that starts with the log; a negative length raises ArgumentError |
| GL.ShaderInfoLog | lib/opengl-aux/gl.rb:317-323 | queries GL_INFO_LOG_LENGTH, and fetches the log only when that length is positive |
| GL.ProgramInfoLog | lib/opengl-aux/gl.rb:340-346 | the same for a program's log |
| GL.GetBoolean | lib/opengl-aux/gl.rb:235-241 | true iff the queried value differs from GL_FALSE |
| GL.ExtensionQueries | lib/opengl-aux/gl.rb:304-308 | one indexed GL_EXTENSIONS query per index, in index order |
| GL.Extensions | lib/opengl-aux/gl.rb:304-308 | an array of GL_NUM_EXTENSIONS strings whose element i is extension string i; a negative count raises ArgumentError |
| GLContext.GetterLookup | lib/opengl-aux/buffer.rb:37-55 | the getter map is partial: a mapped target gives its binding parameter, an unmapped one raises the default proc's ArgumentError instead of defaulting; the texture map at lib/opengl-aux/texture.rb:52-68 uses the same lookup |
| Buffers.CopyReadUnmapped | lib/opengl-aux/buffer.rb:37-55 | GL_COPY_READ_BUFFER is not in the map, so looking up its binding raises ArgumentError |
| Buffers.GettersReadOwnTarget | lib/opengl-aux/buffer.rb:37-51 | each getter parameter reads the binding of its own target |
| Buffers.CurrentBinding | lib/opengl-aux/buffer.rb:20-22 | returns the name bound to the target with one query; an unmapped target raises before any call |
| Buffers.Restored | lib/opengl-aux/buffer.rb:24-32 | after the block, the target holds its saved name again and every other slot is what the block left |
| Buffers.PreserveBinding | lib/opengl-aux/buffer.rb:24-32 | without a block it raises ArgumentError and touches nothing; otherwise it reads the binding, runs the block and rebinds the saved name even when the block raised, re-raising the block's exception |
| Buffers.BindTarget | lib/opengl-aux/buffer.rb:80-81 | the explicit target, else the remembered one, else GL_ARRAY_BUFFER |
| Buffers.Buffer.constructor | lib/opengl-aux/buffer.rb:61-64 | a nil or 0 name is stored as 0, any other as given; the target is stored as given |
| Buffers.Buffer.IsBuffer | lib/opengl-aux/buffer.rb:67-69 | true iff the name is a live buffer, hence false for 0 |
| Buffers.Buffer.Delete | lib/opengl-aux/buffer.rb:71-77 | a nonzero name is deleted once and reset to 0; on 0 no call is made, so a second delete does nothing |
| Buffers.Buffer.Bind | lib/opengl-aux/buffer.rb:79-99 | the remembered target is set only when nil. Scoped: no allocation and no bind, only the slot is preserved. Unscoped: allocates only when the name is 0, raises GLCreateError when the allocator returns 0, then binds the name to the target |
| Buffers.BindTwice | lib/opengl-aux/buffer.rb:89-97 | two unscoped binds of an unallocated buffer allocate once: the second reuses the name, binds it to the same target and makes no gen call |
| Textures.GettersReadOwnTarget | lib/opengl-aux/texture.rb:52-68 | each getter parameter reads the binding of its own target on the active unit |
| Textures.CurrentUnit | lib/opengl-aux/texture.rb:20-22 | returns the active unit with one query |
| Textures.CurrentBinding | lib/opengl-aux/texture.rb:24-26 | returns the texture bound to the target on the active unit; an unmapped target raises before any call |
| Textures.PreserveUnit | lib/opengl-aux/texture.rb:28-35 | the saved unit is active again on every exit path: after the block, after the block raised, and after the blockless `yield` raised LocalJumpError |
| Textures.TextureRestored | lib/opengl-aux/texture.rb:38-47 | the saved unit is active again; the saved texture is back on the target of the unit the body ended on; every other binding is what the body left |
| Textures.RestoredWhenUnitKept | lib/opengl-aux/texture.rb:38-47 | when the body keeps the active unit, the unit and the target's binding on it are both back to their prior values |
| Textures.UnitSwitchLeavesBinding | lib/opengl-aux/texture.rb:38-47 | for every body that switches units: the saved unit is active again, the original unit keeps what the body left bound there, and the saved texture lands on the target of the body's last unit |
| Textures.BindingRestoredBeforeUnit | lib/opengl-aux/texture.rb:38-47 | for a mapped target, the last two calls rebind the saved texture and then reactivate the saved unit |
| Textures.PreserveBinding | lib/opengl-aux/texture.rb:38-47 | saves the unit, then the binding; runs the block; restores the binding, then the unit, on every exit path; an unmapped target raises inside the unit restore |
| Textures.BindTarget | lib/opengl-aux/texture.rb:93-94 | the explicit target, else the remembered one, else GL_TEXTURE_2D |
| Textures.Texture.constructor | lib/opengl-aux/texture.rb:74-77 | a nil name is stored as 0; the target is stored as given |
| Textures.Texture.IsTexture | lib/opengl-aux/texture.rb:80-82 | true iff the name is a live texture, hence false for 0 |
| Textures.Texture.Delete | lib/opengl-aux/texture.rb:84-89 | a nonzero name is deleted once and reset to 0; on 0 no call is made |
| Textures.Texture.BindNow | lib/opengl-aux/texture.rb:102-112 | name 0 raises GLCreateError without any call and stays 0; a nonzero name is bound to the target on the active unit without allocating |
| Textures.Texture.Bind | lib/opengl-aux/texture.rb:91-113 | the remembered target is set only when nil; the name never changes; scoped, the inner bind and the block run inside preserve_binding, the block is skipped when the inner bind raises, and unit and binding are restored either way |
| VertexArrays.CurrentBinding | lib/opengl-aux/vertex_array.rb:18-20 | returns the bound vertex array with one query |
| VertexArrays.PreserveRunRestores | lib/opengl-aux/vertex_array.rb:22-30 | whatever the body does or raises, the binding afterwards is the saved one, the first call reads it and the last call rebinds it |
| VertexArrays.PreserveBinding | lib/opengl-aux/vertex_array.rb:22-30 | without a block it raises ArgumentError and touches nothing; otherwise it saves, runs the block and rebinds the saved array even when the block raised |
| VertexArrays.VertexArray.constructor | lib/opengl-aux/vertex_array.rb:37-40 | a nil name is stored as 0 |
| VertexArrays.VertexArray.Delete | lib/opengl-aux/vertex_array.rb:42-48 | a nonzero name is deleted once and reset to 0; on 0 no call is made |
| VertexArrays.VertexArray.IsVertexArray | lib/opengl-aux/vertex_array.rb:50-52 | true iff the name is a live vertex array, hence false for 0 |
| VertexArrays.VertexArray.BindNow | lib/opengl-aux/vertex_array.rb:60-70 | allocates only while the name is 0, raises GLCreateError on a 0 result, otherwise binds; no error iff the name ends nonzero |
| VertexArrays.VertexArray.Bind | lib/opengl-aux/vertex_array.rb:54-71 | scoped, the inner bind (which may allocate) and the block run inside preserve_binding, so the block sees this array bound and the previous binding is restored afterwards |
| VertexArrays.BindTwice | lib/opengl-aux/vertex_array.rb:61-69 | two binds of an unallocated array allocate once: the second reuses the name and makes only a bind call |
| Shaders.New | lib/opengl-aux/shader.rb:18-28 | a supplied name is stored without any call; otherwise one shader of the kind is created, and a 0 result raises GLCreateError |
| Shaders.Shader.Wrap | lib/opengl-aux/shader.rb:26 | stores the kind, a `const` that never changes afterwards |
| Shaders.Shader.Delete | lib/opengl-aux/shader.rb:30-36 | a nonzero name is deleted once and reset to 0; on 0 no call is made |
| Shaders.Shader.IsShader | lib/opengl-aux/shader.rb:38-40 | true iff the name is a live shader, hence false for 0 |
| Shaders.Shader.SetSource | lib/opengl-aux/shader.rb:42-45 | submits all sources in one call and returns its argument unchanged |
| Shaders.Shader.Compiled | lib/opengl-aux/shader.rb:56-58 | true iff the compile status differs from GL_FALSE |
| Shaders.Shader.Compile | lib/opengl-aux/shader.rb:51-54 | compiles, recording the new compile status and no other parameter, then returns exactly what `compiled?` returns for that status |
| Shaders.Shader.InfoLog | lib/opengl-aux/shader.rb:60-62 | the shader's info log as GL.InfoLogOf defines it |
| Programs.CurrentProgram | lib/opengl-aux/program.rb:21-23 | returns the program in use with one query |
| Programs.PreserveBinding | lib/opengl-aux/program.rb:25-33 | without a block it raises ArgumentError before any call; otherwise it reads the current program first and makes exactly that program current again, even when the block raised |
| Programs.New | lib/opengl-aux/program.rb:40-51 | a supplied name is stored without any call; otherwise one program is created, and a 0 result raises GLCreateError; the uniform cache starts empty |
| Programs.Program.Delete | lib/opengl-aux/program.rb:53-59 | a nonzero name is deleted once and reset to 0; on 0 no call is made |
| Programs.Program.IsProgram | lib/opengl-aux/program.rb:61-63 | true iff the name is a live program, hence false for 0 |
| Programs.Program.Linked | lib/opengl-aux/program.rb:89-91 | true iff the link status differs from GL_FALSE |
| Programs.Put | lib/opengl-aux/program.rb:132 | Hash assignment: an existing key keeps its position, a new key goes last |
| Programs.PutWellFormed | lib/opengl-aux/program.rb:132 | assignment keeps the key order duplicate-free and in step with the map |
| Programs.Hint | lib/opengl-aux/program.rb:130-134 | a new key gets a nil placeholder at the end; an existing entry, nil or not, is left alone; other keys are untouched |
| Programs.HintIdempotent | lib/opengl-aux/program.rb:130-134 | hinting twice is hinting once |
| Programs.Program.HintUniform | lib/opengl-aux/program.rb:130-134 | updates the cache as Hint says, makes no call and returns the program |
| Programs.Store | lib/opengl-aux/program.rb:139 | after a miss, the key holds the queried location and every other entry is unchanged |
| Programs.Program.UniformLocation | lib/opengl-aux/program.rb:136-140 | a cached non-nil location, -1 included, is returned with no query; otherwise one query by the name's text, and the result is stored and returned |
| Programs.LocateBothSpellings | lib/opengl-aux/program.rb:136-140 | the string and symbol spellings of a name share one entry: both answer the same location and at most one query is made |
| Programs.Reloaded | lib/opengl-aux/program.rb:75-80 | the same keys in the same order, each holding a fresh location |
| Programs.ReloadFillsHints | lib/opengl-aux/program.rb:75-80 | after a reload every key, hints included, is cached |
| Programs.ReloadCalls | lib/opengl-aux/program.rb:77-79 | one location query per key, in insertion order |
| Programs.PartlyReloadedStep | lib/opengl-aux/program.rb:77-79 | re-querying one more key extends the part-way reload by that key |
| Programs.PartlyReloadedAll | lib/opengl-aux/program.rb:75-80 | a reload over no keys is the old cache; a reload over all keys is Reloaded |
| Programs.Program.ReloadUniforms | lib/opengl-aux/program.rb:75-80 | rewrites every entry in place with a fresh query, in insertion order |
| Programs.Program.Link | lib/opengl-aux/program.rb:82-87 | records the new link status and no other parameter and returns it, as `linked?` reads it; only on success is every cache entry re-queried; on failure the cache is unchanged |
| Programs.Program.LoadBinary | lib/opengl-aux/program.rb:65-69 | loads the binary blob with its byte count as the length, records the resulting link status and no other parameter, and returns it; the cache is reloaded only on success |
| Programs.Program.Use | lib/opengl-aux/program.rb:108-111 | without a block, makes this program current and returns it |
| Programs.Program.AttachShader | lib/opengl-aux/program.rb:114-120 | passes a Shader's name, or the raw value, and returns the program |
| Programs.Program.DetachShader | lib/opengl-aux/program.rb:122-128 | passes a Shader's name, or the raw value, and returns the program |
| Programs.Program.ClearUniformLocationCache | lib/opengl-aux/program.rb:143-145 | empties the cache, hints included |

## Left out

- The FFI plumbing is not modelled: temporary native buffers, boxed types, the snow-data typedefs and native memory addresses. Arrays passed to the native library are Dafny arrays or sequences.
- The native OpenGL library is an abstract context. Real compile, link and validate outcomes, uniform locations and errors raised by GL calls are oracle values. Deleting a bound object does not unbind it in the model.
- Ruby blocks are reduced to their effect on the binding slots and their exception. A block that allocates or deletes objects is not modelled.
- The blocks given to `initialize` (`yield self`) and the blocks' return values are not modelled.
- Methods that return `self` say so only for `use`, `attach_shader`, `detach_shader` and `hint_uniform`.
- Scoped `Program#use` is not modelled: it calls an instance-level `preserve_binding` that exists only on the class.
- `Program#valid?`, `Program#info_log` and the subroutine, attribute and fragment-data location lookups are not modelled. They are single forwarding calls.
- `Program#binary` and `glGetProgramBinary` are not modelled. The recursive call at lib/opengl-aux/gl.rb:358 passes the wrong number of arguments.
- `Shader#source` and `glGetShaderSource` are not modelled. The reader calls the info-log entry point.
- `glGetFloat` and `glGetDouble` are not modelled. They work on floating-point values.
- `@link_status`, which `link` sets to nil and nothing reads, is not modelled.
- GL.DeleteObjects: the error message omits the `inspect` of the rejected argument. An array element that is not an integer is not modelled, because arrays hold `int`.
- GL.ByteSize: it assumes every string is UTF-8 encoded. A program binary is a byte sequence instead, so its length is its byte count.
- Textures.BindTarget: a bind with no explicit and no remembered target uses GL_TEXTURE_2D. As written, the unqualified `GL_TEXTURE_2D` at lib/opengl-aux/texture.rb:93 is looked up in `GL::Texture` and at the top level, so unless the constant is visible there this raises NameError. The model does not capture that NameError, and Textures.Texture.Bind inherits the default.
- `false` as a name argument is not modelled. A name is `nil` (`None`) or an integer.
- Concurrency is not modelled. The library assumes one thread and one current context.
- Window creation, shader file loading and the example scripts are outside the core.
