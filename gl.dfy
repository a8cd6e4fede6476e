/** The helpers that lib/opengl-aux/gl.rb adds to the `GL` module: the
    generated glGen* and glDelete* wrappers, glShaderSource with per-string
    byte lengths, the info-log readers, the sticky-error check, glGetBoolean
    and gl_extensions. */
module GL {
  import opened Wrappers
  import opened Errors
  import opened GLEnums
  import opened GLContext

  // ---------------------------------------------------------------------------
  // assert_no_gl_error

  /** What `assert_no_gl_error(msg)` raises after glGetError returned `code`:
      nothing for GL_NO_ERROR, otherwise a GLStateError carrying that code. */
  function ErrorCheck(code: int, msg: Option<string>): (r: Option<Exception>)
    ensures r.Some? <==> code != GL_NO_ERROR
    ensures r.Some? ==> r.value.cls == GLStateError && r.value.code == code
    ensures r.Some? ==> Message(r.value) == if msg.Some? then msg.value else "GL::GLStateError"
  {
    if code == GL_NO_ERROR then None
    else Some(StateErrorException(NewStateError(code, None), msg))
  }

  /** Reads the sticky error exactly once (which clears it) and raises iff it was set. */
  method AssertNoGLError(ctx: Context, msg: Option<string>) returns (raised: Option<Exception>)
    modifies ctx`error, ctx`trace
    ensures raised == ErrorCheck(old(ctx.error), msg)
    ensures ctx.error == GL_NO_ERROR
    ensures ctx.trace == old(ctx.trace) + [GetError]
  {
    var error := ctx.GetError();
    if error != GL_NO_ERROR {
      raised := Some(StateErrorException(NewStateError(error, None), msg));
    } else {
      raised := None;
    }
  }

  // ---------------------------------------------------------------------------
  // glGen* (generated by __define_gl_gen_object_method__)

  /** nil, a single name, or an Array of names. */
  datatype GenResult = NoNames | OneName(name: int) | Names(names: seq<int>)

  /** `glGenBuffers(count)` and its siblings: nothing for `count <= 0`, the one
      name for `count == 1`, and otherwise the `count` names in output order. */
  method GenObjects(ctx: Context, kind: ObjectKind, count: int) returns (r: GenResult)
    requires kind.Generated() && ctx.Valid()
    modifies ctx`supply, ctx`live, ctx`trace
    ensures ctx.Valid()
    ensures count <= 0 ==>
      r == NoNames && ctx.supply == old(ctx.supply) && ctx.live == old(ctx.live) && ctx.trace == old(ctx.trace)
    ensures count == 1 ==>
      && r == OneName(NextName(old(ctx.supply)))
      && ctx.live == old(ctx.live) + Named(kind, [r.name])
    ensures count > 1 ==>
      && r == Names(Issue(old(ctx.supply), count))
      && |r.names| == count
      && ctx.live == old(ctx.live) + Named(kind, r.names)
    ensures count > 0 ==>
      && ctx.supply == Remaining(old(ctx.supply), count)
      && ctx.trace == old(ctx.trace) + [Call.GenObjects(kind, count)]
  {
    if count <= 0 {
      return NoNames;
    }
    if count == 1 {
      var box := new int[1];
      ctx.GenNames(kind, 1, box);
      return OneName(box[0]);
    }
    var p := new int[count];
    ctx.GenNames(kind, count, p);
    var names: seq<int> := [];
    for i := 0 to count
      invariant names == p[..i]
    {
      names := names + [p[i]];
    }
    assert p[..count] == p[..];
    return Names(names);
  }

  // ---------------------------------------------------------------------------
  // glDelete* (generated by __define_gl_delete_object_method__)

  /** The argument kinds the generated glDelete* methods dispatch on. */
  datatype DeleteArg =
    | GLObject(name: int)            // a boxed GL object name
    | GLObjectArray(names: seq<int>) // a native array of boxed names
    | Integer(value: int)            // a Fixnum
    | IntegerArray(elements: seq<int>) // an Array, assumed to hold Fixnums
    | Other                          // anything else

  function DeleteFunctionName(kind: ObjectKind): string {
    match kind
    case Textures => "glDeleteTextures"
    case VertexArrays => "glDeleteVertexArrays"
    case Buffers => "glDeleteBuffers"
    case Queries => "glDeleteQueries"
    case Samplers => "glDeleteSamplers"
    case Framebuffers => "glDeleteFramebuffers"
    case Renderbuffers => "glDeleteRenderbuffers"
    case ProgramPipelines => "glDeleteProgramPipelines"
    case TransformFeedbacks => "glDeleteTransformFeedbacks"
    case Shaders => "glDeleteShader"
    case Programs => "glDeleteProgram"
  }

  /** The names a delete call hands to the library, in order. */
  function DeletedNames(objects: DeleteArg): (names: seq<int>)
    requires !objects.Other?
    ensures objects.GLObject? || objects.Integer? ==> |names| == 1
    ensures objects.GLObject? ==> names == [objects.name]
    ensures objects.Integer? ==> names == [objects.value]
    ensures objects.GLObjectArray? ==> names == objects.names
    ensures objects.IntegerArray? ==> names == objects.elements
  {
    match objects
    case GLObject(n) => [n]
    case GLObjectArray(ns) => ns
    case Integer(n) => [n]
    case IntegerArray(es) => es
  }

  /** Deletes one name for an object or an integer and every element, in order,
      for an array; anything else raises ArgumentError and deletes nothing. */
  method DeleteObjects(ctx: Context, kind: ObjectKind, objects: DeleteArg) returns (raised: Option<Exception>)
    requires kind.Generated() && ctx.Valid()
    modifies ctx`live, ctx`trace
    ensures ctx.Valid()
    ensures raised.Some? <==> objects.Other?
    ensures raised.Some? ==>
      && raised.value.cls == ArgumentError
      && ctx.live == old(ctx.live) && ctx.trace == old(ctx.trace)
    ensures raised.None? ==>
      && ctx.live == old(ctx.live) - Named(kind, DeletedNames(objects))
      && ctx.trace == old(ctx.trace) + [Call.DeleteObjects(kind, DeletedNames(objects))]
  {
    raised := None;
    match objects
    case GLObject(n) =>
      ctx.DeleteNames(kind, [n]);
    case GLObjectArray(ns) =>
      ctx.DeleteNames(kind, ns);
    case Integer(n) =>
      var p := new int[1];
      p[0] := n;
      assert p[..] == [n];
      ctx.DeleteNames(kind, p[..]);
    case IntegerArray(es) =>
      var p := new int[|es|];
      for i := 0 to |es|
        modifies p
        invariant p[..i] == es[..i]
      {
        p[i] := es[i];
      }
      assert p[..] == es;
      ctx.DeleteNames(kind, p[..]);
    case Other =>
      raised := Some(Raise(ArgumentError, "Invalid object passed to " + DeleteFunctionName(kind) + " for deletion"));
  }

  // ---------------------------------------------------------------------------
  // glShaderSource

  /** The UTF-8 length of one character. */
  function Utf8Width(c: char): nat {
    if c as int < 0x80 then 1
    else if c as int < 0x800 then 2
    else if c as int < 0x10000 then 3
    else 4
  }

  /** Ruby's `String#bytesize` for a UTF-8 string: between one and four bytes per character. */
  function ByteSize(s: string): (n: nat)
    ensures |s| <= n <= 4 * |s|
    ensures n == |s| <==> forall i :: 0 <= i < |s| ==> s[i] as int < 0x80
  {
    if s == [] then 0 else Utf8Width(s[0]) + ByteSize(s[1..])
  }

  /** Byte sizes add up over concatenation, so splitting a source into several
      strings does not change the total byte count submitted. */
  lemma {:induction false} ByteSizeConcat(a: string, b: string)
    ensures ByteSize(a + b) == ByteSize(a) + ByteSize(b)
  {
    if a == [] {
      assert a + b == b;
    } else {
      assert (a + b)[1..] == a[1..] + b;
      ByteSizeConcat(a[1..], b);
    }
  }

  /** The shader source argument: one String, or an Array of Strings. */
  datatype Sources = Single(source: string) | Many(strings: seq<string>)

  function SourceStrings(sources: Sources): (ss: seq<string>)
    ensures sources.Single? ==> ss == [sources.source]
    ensures sources.Many? ==> ss == sources.strings
  {
    match sources
    case Single(s) => [s]
    case Many(ss) => ss
  }

  /** The lengths array: entry `i` is the byte size of string `i`. */
  function ByteLengths(ss: seq<string>): (lengths: seq<int>)
    ensures |lengths| == |ss|
    ensures forall i :: 0 <= i < |ss| ==> lengths[i] == ByteSize(ss[i])
  {
    seq(|ss|, i requires 0 <= i < |ss| => ByteSize(ss[i]))
  }

  /** Submits every string with its byte length in a single glShaderSource call
      whose count is the array length (1 for a single string). */
  method ShaderSource(ctx: Context, shader: int, sources: Sources)
    modifies ctx`sources, ctx`trace
    ensures ctx.sources == old(ctx.sources)[shader := SourceStrings(sources)]
    ensures ctx.trace == old(ctx.trace) + [Call.ShaderSource(shader, |SourceStrings(sources)|,
                                                         SourceStrings(sources), ByteLengths(SourceStrings(sources)))]
  {
    var strings := SourceStrings(sources);
    var count := if sources.Many? then |sources.strings| else 1;
    var lengths := new int[count];
    for i := 0 to count
      modifies lengths
      invariant forall j :: 0 <= j < i ==> lengths[j] == ByteSize(strings[j])
    {
      lengths[i] := ByteSize(strings[i]);
    }
    assert lengths[..] == ByteLengths(strings);
    ctx.SetShaderSource(shader, count, strings, lengths[..]);
  }

  // ---------------------------------------------------------------------------
  // glGetShaderInfoLog / glGetProgramInfoLog

  function Spaces(n: nat): (s: string)
    ensures |s| == n
  {
    seq(n, _ => ' ')
  }

  /** The string an info-log reader returns once the object reported `length`:
      '' for 0, otherwise a buffer of exactly `length` characters holding the
      start of the log; a negative length makes `' ' * length` raise. */
  function InfoLogOf(length: int, log: string): (r: Result<string, Exception>)
    ensures length == 0 ==> r == Success("")
    ensures length < 0 ==> r.Failure? && r.error.cls == ArgumentError
    ensures length > 0 ==> r.Success? && |r.value| == length
    ensures length > 0 ==> forall i :: 0 <= i < length - 1 && i < |log| ==> r.value[i] == log[i]
  {
    if length == 0 then Success("")
    else if length < 0 then Failure(Raise(ArgumentError, "negative argument"))
    else Success(WriteLog(log, Spaces(length)))
  }

  method ShaderInfoLog(ctx: Context, shader: int) returns (r: Result<string, Exception>)
    modifies ctx`trace
    ensures var length := Bound(ctx.shaderParams, (shader, GL_INFO_LOG_LENGTH));
      && r == InfoLogOf(length, ctx.oracles.infoLog(shader))
      && ctx.trace == old(ctx.trace) + [GetShaderiv(shader, GL_INFO_LOG_LENGTH)]
                      + (if length > 0 then [GetShaderInfoLog(shader, length)] else [])
  {
    var length := ctx.ShaderParam(shader, GL_INFO_LOG_LENGTH);
    if length == 0 {
      return Success("");
    }
    if length < 0 {
      return Failure(Raise(ArgumentError, "negative argument"));
    }
    var output := Spaces(length);
    output := ctx.ShaderInfoLog(shader, output);
    return Success(output);
  }

  method ProgramInfoLog(ctx: Context, program: int) returns (r: Result<string, Exception>)
    modifies ctx`trace
    ensures var length := Bound(ctx.programParams, (program, GL_INFO_LOG_LENGTH));
      && r == InfoLogOf(length, ctx.oracles.infoLog(program))
      && ctx.trace == old(ctx.trace) + [GetProgramiv(program, GL_INFO_LOG_LENGTH)]
                      + (if length > 0 then [GetProgramInfoLog(program, length)] else [])
  {
    var length := ctx.ProgramParam(program, GL_INFO_LOG_LENGTH);
    if length == 0 {
      return Success("");
    }
    if length < 0 {
      return Failure(Raise(ArgumentError, "negative argument"));
    }
    var output := Spaces(length);
    output := ctx.ProgramInfoLog(program, output);
    return Success(output);
  }

  // ---------------------------------------------------------------------------
  // glGetBoolean and gl_extensions

  /** True iff the queried value differs from GL_FALSE. */
  method GetBoolean(ctx: Context, pname: int) returns (b: bool)
    modifies ctx`trace
    ensures b <==> ctx.oracles.boolean(pname) != GL_FALSE
    ensures ctx.trace == old(ctx.trace) + [Call.GetBoolean(pname)]
  {
    var v := ctx.GetBoolean(pname);
    b := v != GL_FALSE;
  }

  function ExtensionQueries(n: nat): (calls: seq<Call>)
    ensures |calls| == n
    ensures forall i :: 0 <= i < n ==> calls[i] == GetStringi(GL_EXTENSIONS, i)
  {
    seq(n, i requires 0 <= i < n => GetStringi(GL_EXTENSIONS, i))
  }

  /** An array of GL_NUM_EXTENSIONS strings whose element `i` is the indexed
      extension string `i`; a negative count makes `Array.new` raise. */
  method Extensions(ctx: Context) returns (r: Result<seq<string>, Exception>)
    modifies ctx`trace
    ensures var n := ctx.oracles.integer(GL_NUM_EXTENSIONS);
      && (n < 0 ==> r.Failure? && r.error.cls == ArgumentError
                    && ctx.trace == old(ctx.trace) + [GetInteger(GL_NUM_EXTENSIONS)])
      && (n >= 0 ==> r.Success? && |r.value| == n
                     && (forall i :: 0 <= i < n ==> r.value[i] == ctx.oracles.indexedString(GL_EXTENSIONS, i))
                     && ctx.trace == old(ctx.trace) + [GetInteger(GL_NUM_EXTENSIONS)] + ExtensionQueries(n))
  {
    var n := ctx.GetInteger(GL_NUM_EXTENSIONS);
    if n < 0 {
      return Failure(Raise(ArgumentError, "negative array size"));
    }
    var extensions: seq<string> := [];
    for i := 0 to n
      invariant |extensions| == i
      invariant forall j :: 0 <= j < i ==> extensions[j] == ctx.oracles.indexedString(GL_EXTENSIONS, j)
      invariant ctx.trace == old(ctx.trace) + [GetInteger(GL_NUM_EXTENSIONS)] + ExtensionQueries(i)
    {
      var s := ctx.GetStringi(GL_EXTENSIONS, i);
      assert ExtensionQueries(i + 1) == ExtensionQueries(i) + [GetStringi(GL_EXTENSIONS, i)];
      extensions := extensions + [s];
    }
    return Success(extensions);
  }
}
