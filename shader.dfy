/** `GL::Shader` (lib/opengl-aux/shader.rb): a shader object created eagerly
    for a fixed kind, with source submission and compilation. */
module Shaders {
  import opened Wrappers
  import opened Errors
  import opened GLEnums
  import opened GLContext
  import GL

  const AllocationFailed: Exception := Raise(GLCreateError, "Unable to allocate shader")

  class Shader {
    /** The native name; 0 after `delete`. */
    var name: int
    /** The shader kind (GL_VERTEX_SHADER, ...), fixed at construction. */
    const kind: int

    constructor Wrap(kind: int, name: int)
      ensures this.kind == kind && this.name == name
    {
      this.kind := kind;
      this.name := name;
    }

    /** `is_shader?`: asks the context, even for name 0; 0 is never live. */
    method IsShader(ctx: Context) returns (b: bool)
      requires ctx.Valid()
      modifies ctx`trace
      ensures b <==> (Shaders, name) in ctx.live
      ensures name == 0 ==> !b
      ensures ctx.trace == old(ctx.trace) + [IsObject(Shaders, name)]
    {
      var v := ctx.IsLive(Shaders, name);
      b := v != GL_FALSE;
    }

    /** `delete`: deletes a nonzero name once and forgets it; on 0 it makes no
        call, so deleting twice is the same as deleting once. */
    method Delete(ctx: Context)
      requires ctx.Valid()
      modifies this`name, ctx`live, ctx`trace
      ensures ctx.Valid() && name == 0
      ensures old(name) == 0 ==> ctx.live == old(ctx.live) && ctx.trace == old(ctx.trace)
      ensures old(name) != 0 ==>
        && ctx.live == old(ctx.live) - {(Shaders, old(name))}
        && ctx.trace == old(ctx.trace) + [DeleteShader(old(name))]
    {
      if name != 0 {
        ctx.RemoveShader(name);
        name := 0;
      }
    }

    /** `source=`: submits all strings with their byte lengths in one call and
        gives back its argument unchanged. */
    method SetSource(ctx: Context, sources: GL.Sources) returns (r: GL.Sources)
      modifies ctx`sources, ctx`trace
      ensures r == sources
      ensures ctx.sources == old(ctx.sources)[name := GL.SourceStrings(sources)]
      ensures ctx.trace == old(ctx.trace) + [Call.ShaderSource(name, |GL.SourceStrings(sources)|,
                                                               GL.SourceStrings(sources),
                                                               GL.ByteLengths(GL.SourceStrings(sources)))]
    {
      GL.ShaderSource(ctx, name, sources);
      r := sources;
    }

    /** `compiled?`: the compile status differs from GL_FALSE. */
    method Compiled(ctx: Context) returns (ok: bool)
      modifies ctx`trace
      ensures ok <==> Bound(ctx.shaderParams, (name, GL_COMPILE_STATUS)) != GL_FALSE
      ensures ctx.trace == old(ctx.trace) + [GetShaderiv(name, GL_COMPILE_STATUS)]
    {
      var status := ctx.ShaderParam(name, GL_COMPILE_STATUS);
      ok := status != GL_FALSE;
    }

    /** `compile`: compiles, then answers exactly what `compiled?` answers. */
    method Compile(ctx: Context) returns (ok: bool)
      modifies ctx`shaderParams, ctx`trace
      ensures ok <==> ctx.oracles.compileStatus(if name in ctx.sources then ctx.sources[name] else []) != GL_FALSE
      ensures ctx.shaderParams == old(ctx.shaderParams)[(name, GL_COMPILE_STATUS) :=
        ctx.oracles.compileStatus(if name in ctx.sources then ctx.sources[name] else [])]
      ensures ctx.trace == old(ctx.trace) + [CompileShader(name), GetShaderiv(name, GL_COMPILE_STATUS)]
    {
      ctx.Compile(name);
      ok := Compiled(ctx);
    }

    /** `info_log`: the compiler log, '' when its reported length is 0. */
    method InfoLog(ctx: Context) returns (r: Result<string, Exception>)
      modifies ctx`trace
      ensures var length := Bound(ctx.shaderParams, (name, GL_INFO_LOG_LENGTH));
        && r == GL.InfoLogOf(length, ctx.oracles.infoLog(name))
        && ctx.trace == old(ctx.trace) + [GetShaderiv(name, GL_INFO_LOG_LENGTH)]
                        + (if length > 0 then [GetShaderInfoLog(name, length)] else [])
    {
      r := GL.ShaderInfoLog(ctx, name);
    }
  }

  /** `Shader.new(kind, name)`: a supplied name (any integer, 0 included, is
      truthy) is stored without a call; otherwise one shader is created for
      `kind`, and a 0 result raises GLCreateError. */
  method New(ctx: Context, kind: int, name: Option<int>) returns (r: Result<Shader, Exception>)
    requires ctx.Valid()
    modifies ctx`supply, ctx`live, ctx`trace
    ensures ctx.Valid()
    ensures name.Some? ==>
      && r.Success? && fresh(r.value) && r.value.name == name.value && r.value.kind == kind
      && ctx.supply == old(ctx.supply) && ctx.live == old(ctx.live) && ctx.trace == old(ctx.trace)
    ensures name.None? ==>
      var created := NextName(old(ctx.supply));
      && ctx.supply == Remaining(old(ctx.supply), 1)
      && ctx.live == old(ctx.live) + Named(Shaders, [created])
      && ctx.trace == old(ctx.trace) + [CreateShader(kind)]
      && (created == 0 ==> r == Failure(AllocationFailed))
      && (created != 0 ==> r.Success? && fresh(r.value) && r.value.name == created && r.value.kind == kind)
  {
    if name.Some? {
      var s := new Shader.Wrap(kind, name.value);
      return Success(s);
    }
    var created := ctx.NewShader(kind);
    if created == 0 {
      return Failure(AllocationFailed);
    }
    var s := new Shader.Wrap(kind, created);
    return Success(s);
  }
}
