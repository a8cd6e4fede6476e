/** `GL::Program` (lib/opengl-aux/program.rb): a program object with a cache of
    uniform locations keyed by symbol, refreshed after every successful link
    or binary load, and the class-level save/run/restore of the program in
    use. */
module Programs {
  import opened Wrappers
  import opened Errors
  import opened GLEnums
  import opened GLContext
  import GL
  import Shaders

  const AllocationFailed: Exception := Raise(GLCreateError, "Unable to allocate shader")

  /** A uniform name as a caller spells it. `to_sym` maps both spellings of the
      same text to one symbol, and `to_s` of that symbol is the text again. */
  datatype UniformName = Str(text: string) | Sym(text: string)

  /** The cache key of a uniform name: its symbol, identified by its text. */
  function Key(u: UniformName): string {
    u.text
  }

  /** `@uniform_locations`: a Ruby Hash from symbol to location or nil. `order`
      lists its keys in insertion order, which is the order `each_key` visits. */
  datatype UniformCache = UniformCache(order: seq<string>, locations: map<string, Option<int>>)

  const EmptyCache := UniformCache([], map[])

  /** The keys in `order` are exactly the keys of the map, each once. */
  ghost predicate WellFormed(c: UniformCache) {
    && (forall k :: k in c.locations <==> k in c.order)
    && (forall i, j :: 0 <= i < j < |c.order| ==> c.order[i] != c.order[j])
  }

  /** An entry that `uniform_location` answers without a query: present and
      not nil. A location of -1 counts as cached. */
  predicate Cached(c: UniformCache, key: string) {
    key in c.locations && c.locations[key].Some?
  }

  /** `hash[key] = value`: an existing key keeps its position, a new key goes
      last. */
  function Put(c: UniformCache, key: string, value: Option<int>): (r: UniformCache)
    ensures r.locations == c.locations[key := value]
    ensures key in c.locations ==> r.order == c.order
    ensures key !in c.locations ==> r.order == c.order + [key]
  {
    if key in c.locations then c.(locations := c.locations[key := value])
    else UniformCache(c.order + [key], c.locations[key := value])
  }

  lemma PutWellFormed(c: UniformCache, key: string, value: Option<int>)
    requires WellFormed(c)
    ensures WellFormed(Put(c, key, value))
  {
    if key !in c.locations {
      var r := Put(c, key, value);
      forall i, j | 0 <= i < j < |r.order|
        ensures r.order[i] != r.order[j]
      {
        if j == |c.order| {
          assert r.order[i] == c.order[i];
        }
      }
    }
  }

  /** `hint_uniform`'s update, `hash[key] ||= nil`: a new key gets a nil
      placeholder at the end; an existing entry, nil or not, is left alone. */
  function Hint(c: UniformCache, key: string): (r: UniformCache)
    requires WellFormed(c)
    ensures WellFormed(r)
    ensures key in r.locations
    ensures key in c.locations ==> r == c
    ensures key !in c.locations ==> r.locations[key] == None && r.order == c.order + [key]
    ensures forall k :: k != key ==> (k in r.locations <==> k in c.locations)
    ensures forall k :: k != key && k in c.locations ==> r.locations[k] == c.locations[k]
  {
    if key in c.locations then c
    else
      PutWellFormed(c, key, None);
      Put(c, key, None)
  }

  /** Hinting twice is hinting once. */
  lemma HintIdempotent(c: UniformCache, key: string)
    requires WellFormed(c)
    ensures Hint(Hint(c, key), key) == Hint(c, key)
  {
  }

  /** `uniform_location`'s update on a miss, `hash[key] ||= location`. */
  function Store(c: UniformCache, key: string, location: int): (r: UniformCache)
    requires WellFormed(c)
    ensures WellFormed(r)
    ensures Cached(r, key) && r.locations[key] == Some(location)
    ensures forall k :: k != key ==> (k in r.locations <==> k in c.locations)
    ensures forall k :: k != key && k in c.locations ==> r.locations[k] == c.locations[k]
    ensures key in c.locations ==> r.order == c.order
  {
    PutWellFormed(c, key, Some(location));
    Put(c, key, Some(location))
  }

  /** The cache after `__reload_uniforms__`: the same keys in the same order,
      each holding a fresh location from `locate`. */
  function Reloaded(c: UniformCache, program: int, locate: (int, string) -> int): (r: UniformCache)
    requires WellFormed(c)
    ensures WellFormed(r)
    ensures r.order == c.order
    ensures forall k :: k in r.locations <==> k in c.locations
    ensures forall k :: k in r.locations ==> r.locations[k] == Some(locate(program, k))
  {
    UniformCache(c.order, map k | k in c.locations :: Some(locate(program, k)))
  }

  /** The cache part-way through `__reload_uniforms__`, once the keys in
      `done` have been re-queried. */
  function PartlyReloaded(c: UniformCache, program: int, locate: (int, string) -> int, done: seq<string>): UniformCache {
    UniformCache(c.order, map k | k in c.locations :: if k in done then Some(locate(program, k)) else c.locations[k])
  }

  lemma PartlyReloadedStep(c: UniformCache, program: int, locate: (int, string) -> int, done: seq<string>, key: string)
    requires key in c.locations
    ensures var p := PartlyReloaded(c, program, locate, done);
      p.(locations := p.locations[key := Some(locate(program, key))]) == PartlyReloaded(c, program, locate, done + [key])
  {
    var p := PartlyReloaded(c, program, locate, done);
    var q := PartlyReloaded(c, program, locate, done + [key]);
    assert p.locations[key := Some(locate(program, key))] == q.locations;
  }

  lemma PartlyReloadedAll(c: UniformCache, program: int, locate: (int, string) -> int)
    requires WellFormed(c)
    ensures PartlyReloaded(c, program, locate, c.order) == Reloaded(c, program, locate)
    ensures PartlyReloaded(c, program, locate, []) == c
  {
    assert PartlyReloaded(c, program, locate, c.order).locations == Reloaded(c, program, locate).locations;
    assert PartlyReloaded(c, program, locate, []).locations == c.locations;
  }

  /** After a reload every key, hints included, is cached, so the next
      `uniform_location` of any of them makes no query. */
  lemma ReloadFillsHints(c: UniformCache, program: int, locate: (int, string) -> int, key: string)
    requires WellFormed(c) && key in c.locations
    ensures Cached(Reloaded(c, program, locate), key)
  {
  }

  /** The queries `__reload_uniforms__` makes: one per key, in key order. */
  function ReloadCalls(program: int, keys: seq<string>): (calls: seq<Call>)
    ensures |calls| == |keys|
    ensures forall i :: 0 <= i < |keys| ==> calls[i] == GetUniformLocation(program, keys[i])
  {
    seq(|keys|, i requires 0 <= i < |keys| => GetUniformLocation(program, keys[i]))
  }

  /** `current_program`: the program in use, read with one glGetInteger. */
  method CurrentProgram(ctx: Context) returns (program: int)
    modifies ctx`trace
    ensures program == ctx.slots.program
    ensures ctx.trace == old(ctx.trace) + [GetInteger(GL_CURRENT_PROGRAM)]
  {
    program := ctx.GetInteger(GL_CURRENT_PROGRAM);
  }

  /** `Program.preserve_binding`: without a block it raises before touching
      the context; otherwise it reads the current program, runs the block and
      makes exactly that program current again, whether or not the block
      raised. */
  method PreserveBinding(ctx: Context, block: Option<Block>) returns (raised: Option<Exception>)
    modifies ctx`slots, ctx`trace
    ensures block.None? ==>
      raised == Some(NoBlockGiven()) && ctx.slots == old(ctx.slots) && ctx.trace == old(ctx.trace)
    ensures block.Some? ==>
      && raised == block.value.failure
      && ctx.slots == block.value.effect(old(ctx.slots)).(program := old(ctx.slots.program))
      && ctx.trace == old(ctx.trace) + [GetInteger(GL_CURRENT_PROGRAM), RunBlock, UseProgram(old(ctx.slots.program))]
  {
    if block.None? {
      return Some(NoBlockGiven());
    }
    var current := CurrentProgram(ctx);
    raised := ctx.Yield(block.value);
    ctx.UseProgram(current);
  }

  /** What `attach_shader` and `detach_shader` accept: a Shader, whose name is
      passed, or anything else, passed as it is. */
  datatype ShaderOrHandle = ShaderObject(shader: Shaders.Shader) | Handle(value: int)

  class Program {
    /** The native name; 0 after `delete`. */
    var name: int
    /** `@uniform_locations`. */
    var uniforms: UniformCache

    ghost predicate Valid()
      reads this
    {
      WellFormed(uniforms)
    }

    constructor Wrap(name: int)
      ensures Valid()
      ensures this.name == name && uniforms == EmptyCache
    {
      this.name := name;
      uniforms := EmptyCache;
    }

    /** `is_program?`: asks the context, even for name 0; 0 is never live. */
    method IsProgram(ctx: Context) returns (b: bool)
      requires ctx.Valid()
      modifies ctx`trace
      ensures b <==> (Programs, name) in ctx.live
      ensures name == 0 ==> !b
      ensures ctx.trace == old(ctx.trace) + [IsObject(Programs, name)]
    {
      var v := ctx.IsLive(Programs, name);
      b := v != GL_FALSE;
    }

    /** `delete`: deletes a nonzero name once and forgets it; on 0 it makes no
        call, so deleting twice is the same as deleting once. */
    method Delete(ctx: Context)
      requires ctx.Valid()
      modifies this`name, ctx`live, ctx`trace
      ensures ctx.Valid() && name == 0
      ensures old(name) == 0 ==> ctx.live == old(ctx.live) && ctx.trace == old(ctx.trace)
      ensures old(name) != 0 ==>
        && ctx.live == old(ctx.live) - {(Programs, old(name))}
        && ctx.trace == old(ctx.trace) + [DeleteProgram(old(name))]
    {
      if name != 0 {
        ctx.RemoveProgram(name);
        name := 0;
      }
    }

    /** `linked?`: the link status differs from GL_FALSE. */
    method Linked(ctx: Context) returns (ok: bool)
      modifies ctx`trace
      ensures ok <==> Bound(ctx.programParams, (name, GL_LINK_STATUS)) != GL_FALSE
      ensures ctx.trace == old(ctx.trace) + [GetProgramiv(name, GL_LINK_STATUS)]
    {
      var status := ctx.ProgramParam(name, GL_LINK_STATUS);
      ok := status != GL_FALSE;
    }

    /** `__reload_uniforms__`: re-queries every cached key, in insertion order,
        and stores each fresh location in place. */
    method ReloadUniforms(ctx: Context)
      requires Valid()
      modifies this`uniforms, ctx`trace
      ensures Valid()
      ensures uniforms == Reloaded(old(uniforms), name, ctx.oracles.uniformLocation)
      ensures ctx.trace == old(ctx.trace) + ReloadCalls(name, old(uniforms).order)
    {
      ghost var start := uniforms;
      var keys := uniforms.order;
      PartlyReloadedAll(start, name, ctx.oracles.uniformLocation);
      for i := 0 to |keys|
        invariant uniforms == PartlyReloaded(start, name, ctx.oracles.uniformLocation, keys[..i])
        invariant ctx.trace == old(ctx.trace) + ReloadCalls(name, keys[..i])
      {
        var location := ctx.UniformLocation(name, keys[i]);
        PartlyReloadedStep(start, name, ctx.oracles.uniformLocation, keys[..i], keys[i]);
        uniforms := uniforms.(locations := uniforms.locations[keys[i] := Some(location)]);
        assert keys[..i + 1] == keys[..i] + [keys[i]];
      }
      assert keys[..|keys|] == keys;
    }

    /** `link`: links, then answers `linked?`; only on success is every cached
        entry re-queried, and on failure the cache is unchanged. */
    method Link(ctx: Context) returns (ok: bool)
      requires Valid()
      modifies this`uniforms, ctx`programParams, ctx`trace
      ensures Valid()
      ensures ok <==> ctx.oracles.linkStatus(name, old(ctx.AttachedTo(name))) != GL_FALSE
      ensures ctx.programParams == old(ctx.programParams)[(name, GL_LINK_STATUS) := ctx.oracles.linkStatus(name, old(ctx.AttachedTo(name)))]
      ensures uniforms == if ok then Reloaded(old(uniforms), name, ctx.oracles.uniformLocation) else old(uniforms)
      ensures ctx.trace == old(ctx.trace) + [LinkProgram(name), GetProgramiv(name, GL_LINK_STATUS)]
                          + (if ok then ReloadCalls(name, old(uniforms).order) else [])
    {
      ctx.Link(name);
      ok := Linked(ctx);
      if ok {
        ReloadUniforms(ctx);
      }
    }

    /** `load_binary(format, data)`: loads the binary blob with its byte count
        as the length, then behaves as `link` does after linking. */
    method LoadBinary(ctx: Context, format: int, data: seq<bv8>) returns (ok: bool)
      requires Valid()
      modifies this`uniforms, ctx`programParams, ctx`trace
      ensures Valid()
      ensures ok <==> ctx.oracles.binaryStatus(format, data) != GL_FALSE
      ensures ctx.programParams == old(ctx.programParams)[(name, GL_LINK_STATUS) := ctx.oracles.binaryStatus(format, data)]
      ensures uniforms == if ok then Reloaded(old(uniforms), name, ctx.oracles.uniformLocation) else old(uniforms)
      ensures ctx.trace == old(ctx.trace) + [ProgramBinary(name, format, data, |data|),
                                             GetProgramiv(name, GL_LINK_STATUS)]
                          + (if ok then ReloadCalls(name, old(uniforms).order) else [])
    {
      ctx.LoadBinary(name, format, data, |data|);
      ok := Linked(ctx);
      if ok {
        ReloadUniforms(ctx);
      }
    }

    /** `use` without a block: makes this program current. */
    method Use(ctx: Context) returns (r: Program)
      modifies ctx`slots, ctx`trace
      ensures r == this
      ensures ctx.slots == old(ctx.slots).(program := name)
      ensures ctx.trace == old(ctx.trace) + [UseProgram(name)]
    {
      ctx.UseProgram(name);
      r := this;
    }

    /** `attach_shader`: passes a Shader's name, or the raw value. */
    method AttachShader(ctx: Context, shader: ShaderOrHandle) returns (r: Program)
      modifies ctx`attached, ctx`trace
      ensures r == this
      ensures var s := if shader.ShaderObject? then shader.shader.name else shader.value;
        && ctx.attached == old(ctx.attached)[name := old(ctx.AttachedTo(name)) + {s}]
        && ctx.trace == old(ctx.trace) + [Call.AttachShader(name, s)]
    {
      var handle := if shader.ShaderObject? then shader.shader.name else shader.value;
      ctx.Attach(name, handle);
      r := this;
    }

    /** `detach_shader`: passes a Shader's name, or the raw value. */
    method DetachShader(ctx: Context, shader: ShaderOrHandle) returns (r: Program)
      modifies ctx`attached, ctx`trace
      ensures r == this
      ensures var s := if shader.ShaderObject? then shader.shader.name else shader.value;
        && ctx.attached == old(ctx.attached)[name := old(ctx.AttachedTo(name)) - {s}]
        && ctx.trace == old(ctx.trace) + [Call.DetachShader(name, s)]
    {
      var handle := if shader.ShaderObject? then shader.shader.name else shader.value;
      ctx.Detach(name, handle);
      r := this;
    }

    /** `hint_uniform`: reserves an entry for the symbolised name without a
        query, and returns the program. */
    method HintUniform(uniform: UniformName) returns (r: Program)
      requires Valid()
      modifies this`uniforms
      ensures Valid() && r == this
      ensures uniforms == Hint(old(uniforms), Key(uniform))
    {
      uniforms := Hint(uniforms, Key(uniform));
      r := this;
    }

    /** `uniform_location`: a cached location, -1 included, is answered
        without a query; otherwise the location is queried once by the name's
        text, stored and returned. */
    method UniformLocation(ctx: Context, uniform: UniformName) returns (location: int)
      requires Valid()
      modifies this`uniforms, ctx`trace
      ensures Valid()
      ensures Cached(old(uniforms), Key(uniform)) ==>
        && location == old(uniforms).locations[Key(uniform)].value
        && uniforms == old(uniforms) && ctx.trace == old(ctx.trace)
      ensures !Cached(old(uniforms), Key(uniform)) ==>
        && location == ctx.oracles.uniformLocation(name, uniform.text)
        && uniforms == Store(old(uniforms), Key(uniform), location)
        && ctx.trace == old(ctx.trace) + [GetUniformLocation(name, uniform.text)]
    {
      var key := Key(uniform);
      if Cached(uniforms, key) {
        return uniforms.locations[key].value;
      }
      location := ctx.UniformLocation(name, uniform.text);
      uniforms := Store(uniforms, key, location);
    }

    /** `clear_uniform_location_cache`: drops every entry, hints included. */
    method ClearUniformLocationCache()
      modifies this`uniforms
      ensures Valid()
      ensures uniforms == EmptyCache
    {
      uniforms := EmptyCache;
    }
  }

  /** `Program.new(name)`: a supplied name is stored without a call; otherwise
      one program is created, and a 0 result raises GLCreateError. The cache
      starts empty. */
  method New(ctx: Context, name: Option<int>) returns (r: Result<Program, Exception>)
    requires ctx.Valid()
    modifies ctx`supply, ctx`live, ctx`trace
    ensures ctx.Valid()
    ensures r.Success? ==> fresh(r.value) && r.value.Valid() && r.value.uniforms == EmptyCache
    ensures name.Some? ==>
      && r.Success? && r.value.name == name.value
      && ctx.supply == old(ctx.supply) && ctx.live == old(ctx.live) && ctx.trace == old(ctx.trace)
    ensures name.None? ==>
      var created := NextName(old(ctx.supply));
      && ctx.supply == Remaining(old(ctx.supply), 1)
      && ctx.live == old(ctx.live) + Named(Programs, [created])
      && ctx.trace == old(ctx.trace) + [CreateProgram]
      && (created == 0 ==> r == Failure(AllocationFailed))
      && (created != 0 ==> r.Success? && r.value.name == created)
  {
    if name.Some? {
      var p := new Program.Wrap(name.value);
      return Success(p);
    }
    var created := ctx.NewProgram();
    if created == 0 {
      return Failure(AllocationFailed);
    }
    var p := new Program.Wrap(created);
    return Success(p);
  }

  /** Looking a uniform up by its string spelling and then by its symbol
      spelling makes at most one query: both share one cache entry and
      answer the same location. */
  method LocateBothSpellings(ctx: Context, program: Program, text: string) returns (first: int, second: int)
    requires program.Valid()
    modifies program`uniforms, ctx`trace
    ensures program.Valid()
    ensures first == second
    ensures Cached(program.uniforms, text)
    ensures |ctx.trace| <= |old(ctx.trace)| + 1
  {
    first := program.UniformLocation(ctx, Str(text));
    second := program.UniformLocation(ctx, Sym(text));
  }
}
