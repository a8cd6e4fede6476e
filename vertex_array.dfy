/** `GL::VertexArray` (lib/opengl-aux/vertex_array.rb): a vertex array object
    name that is allocated lazily on the first `bind`, and the class-level
    save/run/restore of the vertex array binding. */
module VertexArrays {
  import opened Wrappers
  import opened Errors
  import opened GLEnums
  import opened GLContext
  import GL

  const AllocationFailed: Exception := Raise(GLCreateError, "Unable to allocate vertex array object")

  /** `current_binding`: the bound vertex array, read with one glGetInteger. */
  method CurrentBinding(ctx: Context) returns (name: int)
    modifies ctx`trace
    ensures name == ctx.slots.vertexArray
    ensures ctx.trace == old(ctx.trace) + [GetInteger(GL_VERTEX_ARRAY_BINDING)]
  {
    name := ctx.GetInteger(GL_VERTEX_ARRAY_BINDING);
  }

  /** How one `preserve_binding` run takes the context from (`s0`, `tr0`) to
      (`s1`, `tr1`) when its body, run from `s0`, ends in `mid` after making
      the calls `body` and raising `bodyRaised`: the saved array is rebound
      last, whatever the body did or raised. */
  ghost predicate PreserveRun(s0: Slots, tr0: seq<Call>, s1: Slots, tr1: seq<Call>,
                              mid: Slots, body: seq<Call>, bodyRaised: Option<Exception>,
                              raised: Option<Exception>)
  {
    && raised == bodyRaised
    && s1 == mid.(vertexArray := s0.vertexArray)
    && tr1 == tr0 + [GetInteger(GL_VERTEX_ARRAY_BINDING)] + body + [BindVertexArray(s0.vertexArray)]
  }

  /** Whatever the body does, the vertex array binding after a run is the one
      before it, and the last call is the rebind of the saved array. */
  lemma PreserveRunRestores(s0: Slots, tr0: seq<Call>, s1: Slots, tr1: seq<Call>,
                            mid: Slots, body: seq<Call>, bodyRaised: Option<Exception>,
                            raised: Option<Exception>)
    requires PreserveRun(s0, tr0, s1, tr1, mid, body, bodyRaised, raised)
    ensures s1.vertexArray == s0.vertexArray
    ensures tr1[|tr1| - 1] == BindVertexArray(s0.vertexArray)
    ensures tr1[|tr0|] == GetInteger(GL_VERTEX_ARRAY_BINDING)
  {
  }

  /** `VertexArray.preserve_binding`: without a block it raises before
      touching the context; otherwise it saves the binding, runs the block and
      rebinds the saved array whether or not the block raised. */
  method PreserveBinding(ctx: Context, block: Option<Block>) returns (raised: Option<Exception>)
    modifies ctx`slots, ctx`trace
    ensures block.None? ==>
      raised == Some(NoBlockGiven()) && ctx.slots == old(ctx.slots) && ctx.trace == old(ctx.trace)
    ensures block.Some? ==>
      PreserveRun(old(ctx.slots), old(ctx.trace), ctx.slots, ctx.trace,
                  block.value.effect(old(ctx.slots)), [RunBlock], block.value.failure, raised)
  {
    if block.None? {
      return Some(NoBlockGiven());
    }
    var saved := CurrentBinding(ctx);
    raised := ctx.Yield(block.value);
    ctx.BindVertexArray(saved);
  }

  class VertexArray {
    /** The native name; 0 means no vertex array object has been allocated. */
    var name: int

    /** `new(name)`: a nil name is stored as 0. */
    constructor (name: Option<int>)
      ensures this.name == name.GetOr(0)
    {
      this.name := name.GetOr(0);
    }

    /** `is_vertex_array?`: asks the context, even for name 0; 0 is never live. */
    method IsVertexArray(ctx: Context) returns (b: bool)
      requires ctx.Valid()
      modifies ctx`trace
      ensures b <==> (VertexArrays, name) in ctx.live
      ensures name == 0 ==> !b
      ensures ctx.trace == old(ctx.trace) + [IsObject(VertexArrays, name)]
    {
      var v := ctx.IsLive(VertexArrays, name);
      b := v != GL_FALSE;
    }

    /** `delete`: deletes a nonzero name once and forgets it; on 0 it makes no
        call, so deleting twice is the same as deleting once. */
    method Delete(ctx: Context)
      requires ctx.Valid()
      modifies this`name, ctx`live, ctx`trace
      ensures ctx.Valid() && name == 0
      ensures old(name) == 0 ==> ctx.live == old(ctx.live) && ctx.trace == old(ctx.trace)
      ensures old(name) != 0 ==>
        && ctx.live == old(ctx.live) - {(VertexArrays, old(name))}
        && ctx.trace == old(ctx.trace) + [Call.DeleteObjects(VertexArrays, [old(name)])]
    {
      if name != 0 {
        var raised := GL.DeleteObjects(ctx, VertexArrays, GL.Integer(name));
        assert Named(VertexArrays, [name]) == {(VertexArrays, name)};
        name := 0;
      }
    }

    /** The unscoped branch of `bind`: allocates a name only while it has
        none, raises GLCreateError when the allocator returns 0, and binds. */
    method BindNow(ctx: Context) returns (raised: Option<Exception>)
      requires ctx.Valid()
      modifies this`name, ctx`slots, ctx`supply, ctx`live, ctx`trace
      ensures ctx.Valid()
      ensures raised.None? <==> name != 0
      ensures raised.Some? ==> raised == Some(AllocationFailed)
      ensures old(name) != 0 ==>
        && name == old(name) && ctx.supply == old(ctx.supply) && ctx.live == old(ctx.live)
        && ctx.slots == old(ctx.slots).(vertexArray := name)
        && ctx.trace == old(ctx.trace) + [BindVertexArray(name)]
      ensures old(name) == 0 ==>
        && name == NextName(old(ctx.supply))
        && ctx.supply == Remaining(old(ctx.supply), 1)
        && ctx.live == old(ctx.live) + Named(VertexArrays, [name])
        && (name == 0 ==>
              ctx.slots == old(ctx.slots) && ctx.trace == old(ctx.trace) + [Call.GenObjects(VertexArrays, 1)])
        && (name != 0 ==>
              && ctx.slots == old(ctx.slots).(vertexArray := name)
              && ctx.trace == old(ctx.trace) + [Call.GenObjects(VertexArrays, 1), BindVertexArray(name)])
    {
      if name == 0 {
        var generated := GL.GenObjects(ctx, VertexArrays, 1);
        name := generated.name;
        if name == 0 {
          return Some(AllocationFailed);
        }
      }
      ctx.BindVertexArray(name);
      raised := None;
    }

    /** `bind`. Unscoped it is `BindNow`. Scoped, the inner bind (which may
        allocate, or raise) and the block run inside `preserve_binding`: the
        block sees this array bound, is skipped when the inner bind raises,
        and the previous binding is restored either way. */
    method Bind(ctx: Context, block: Option<Block>) returns (raised: Option<Exception>)
      requires ctx.Valid()
      modifies this`name, ctx`slots, ctx`supply, ctx`live, ctx`trace
      ensures ctx.Valid()
      ensures name == (if old(name) != 0 then old(name) else NextName(old(ctx.supply)))
      ensures ctx.supply == if old(name) != 0 then old(ctx.supply) else Remaining(old(ctx.supply), 1)
      ensures ctx.live == old(ctx.live) + (if old(name) != 0 then {} else Named(VertexArrays, [name]))
      ensures block.None? ==>
        && (raised.None? <==> name != 0)
        && (name != 0 ==> ctx.slots == old(ctx.slots).(vertexArray := name))
        && (name == 0 ==> raised == Some(AllocationFailed) && ctx.slots == old(ctx.slots))
        && ctx.trace == old(ctx.trace) + (if old(name) != 0 then [] else [Call.GenObjects(VertexArrays, 1)])
                                      + (if name != 0 then [BindVertexArray(name)] else [])
      ensures block.Some? ==>
        var allocation := if old(name) != 0 then [] else [Call.GenObjects(VertexArrays, 1)];
        if name == 0 then
          PreserveRun(old(ctx.slots), old(ctx.trace), ctx.slots, ctx.trace,
                      old(ctx.slots), allocation, Some(AllocationFailed), raised)
        else
          PreserveRun(old(ctx.slots), old(ctx.trace), ctx.slots, ctx.trace,
                      block.value.effect(old(ctx.slots).(vertexArray := name)),
                      allocation + [BindVertexArray(name), RunBlock], block.value.failure, raised)
    {
      if block.None? {
        raised := BindNow(ctx);
        return;
      }
      var saved := CurrentBinding(ctx);
      raised := BindNow(ctx);
      if raised.None? {
        raised := ctx.Yield(block.value);
      }
      ctx.BindVertexArray(saved);
    }
  }

  /** Binding twice allocates at most once: the second bind reuses the name
      the first one obtained, and only the first can call the allocator. */
  method BindTwice(ctx: Context, va: VertexArray) returns (first: Option<Exception>, second: Option<Exception>)
    requires ctx.Valid() && va.name == 0
    modifies va`name, ctx`slots, ctx`supply, ctx`live, ctx`trace
    ensures ctx.Valid()
    ensures first.None? ==> second.None? && va.name != 0 && ctx.slots.vertexArray == va.name
    ensures ctx.supply == Remaining(old(ctx.supply), if first.None? then 1 else 2)
    ensures first.None? ==>
      ctx.trace == old(ctx.trace) + [Call.GenObjects(VertexArrays, 1), BindVertexArray(va.name), BindVertexArray(va.name)]
  {
    first := va.Bind(ctx, None);
    second := va.Bind(ctx, None);
  }
}
