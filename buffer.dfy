/** `GL::Buffer` (lib/opengl-aux/buffer.rb): a buffer object name that is
    allocated lazily on the first unscoped `bind`, a remembered target, and the
    class-level save/run/restore of one buffer binding target. */
module Buffers {
  import opened Wrappers
  import opened Errors
  import opened GLEnums
  import opened GLContext
  import GL

  /** `__buffer_target_getters__`: buffer target -> the glGetInteger parameter
      that reads its current binding. GL_COPY_READ_BUFFER and
      GL_COPY_WRITE_BUFFER are not in the map. */
  const TargetGetters: map<int, int> := map[
    GL_ARRAY_BUFFER := GL_ARRAY_BUFFER_BINDING,
    GL_ATOMIC_COUNTER_BUFFER := GL_ATOMIC_COUNTER_BUFFER_BINDING,
    GL_DISPATCH_INDIRECT_BUFFER := GL_DISPATCH_INDIRECT_BUFFER_BINDING,
    GL_DRAW_INDIRECT_BUFFER := GL_DRAW_INDIRECT_BUFFER_BINDING,
    GL_ELEMENT_ARRAY_BUFFER := GL_ELEMENT_ARRAY_BUFFER_BINDING,
    GL_PIXEL_PACK_BUFFER := GL_PIXEL_PACK_BUFFER_BINDING,
    GL_PIXEL_UNPACK_BUFFER := GL_PIXEL_UNPACK_BUFFER_BINDING,
    GL_QUERY_BUFFER := GL_QUERY_BUFFER_BINDING,
    GL_SHADER_STORAGE_BUFFER := GL_SHADER_STORAGE_BUFFER_BINDING,
    GL_TEXTURE_BUFFER := GL_TEXTURE_BUFFER_BINDING,
    GL_TRANSFORM_FEEDBACK_BUFFER := GL_TRANSFORM_FEEDBACK_BUFFER_BINDING,
    GL_UNIFORM_BUFFER := GL_UNIFORM_BUFFER_BINDING]

  function NoQueryableTarget(target: int): Exception {
    Raise(ArgumentError, "No queryable buffer binding target for " + Decimal(target))
  }

  /** GL_COPY_READ_BUFFER is a buffer target the map leaves out, so asking
      for its binding raises ArgumentError. */
  lemma CopyReadUnmapped()
    ensures var r := GetterLookup(TargetGetters, GL_COPY_READ_BUFFER, NoQueryableTarget(GL_COPY_READ_BUFFER));
      r.Failure? && r.error.cls == ArgumentError
  {
  }

  /** Every parameter in the getter map reads back the binding of its own
      target, so `current_binding(t)` observes exactly the slot of `t`. */
  lemma GettersReadOwnTarget(target: int)
    requires target in TargetGetters
    ensures TargetGetters[target] in BufferBindingTargets
    ensures BufferBindingTargets[TargetGetters[target]] == target
  {
  }

  /** `current_binding(target)`: the name bound to `target`, read with one
      glGetInteger call; an unmapped target raises before any call is made. */
  method CurrentBinding(ctx: Context, target: int) returns (r: Result<int, Exception>)
    modifies ctx`trace
    ensures target in TargetGetters ==>
      && r == Success(Bound(ctx.slots.buffers, target))
      && ctx.trace == old(ctx.trace) + [GetInteger(TargetGetters[target])]
    ensures target !in TargetGetters ==>
      r == Failure(NoQueryableTarget(target)) && ctx.trace == old(ctx.trace)
  {
    var query := GetterLookup(TargetGetters, target, NoQueryableTarget(target));
    if query.Failure? {
      return Failure(query.error);
    }
    GettersReadOwnTarget(target);
    var current := ctx.GetInteger(query.value);
    return Success(current);
  }

  /** The bindings after `preserve_binding(target) { ... }`: whatever the block
      left, except that `target` holds again what it held before. */
  function Restored(before: Slots, after: Slots, target: int): (r: Slots)
    ensures Bound(r.buffers, target) == Bound(before.buffers, target)
    ensures forall t :: t != target ==> Bound(r.buffers, t) == Bound(after.buffers, t)
    ensures r.(buffers := after.buffers) == after
  {
    after.(buffers := after.buffers[target := Bound(before.buffers, target)])
  }

  /** How one `preserve_binding(target)` run takes the context from
      (`s0`, `tr0`) to (`s1`, `tr1`) and what it raises. */
  ghost predicate PreserveRun(s0: Slots, tr0: seq<Call>, s1: Slots, tr1: seq<Call>,
                              target: int, block: Option<Block>, raised: Option<Exception>)
  {
    if block.None? then
      raised == Some(NoBlockGiven()) && s1 == s0 && tr1 == tr0
    else if target !in TargetGetters then
      raised == Some(NoQueryableTarget(target)) && s1 == s0 && tr1 == tr0
    else
      && raised == block.value.failure
      && s1 == Restored(s0, block.value.effect(s0), target)
      && tr1 == tr0 + [GetInteger(TargetGetters[target]), RunBlock, BindBuffer(target, Bound(s0.buffers, target))]
  }

  /** `Buffer.preserve_binding(target)`: without a block it raises before
      touching the context; otherwise it reads the binding of `target`, runs the
      block and rebinds the saved name whether or not the block raised. */
  method PreserveBinding(ctx: Context, target: int, block: Option<Block>) returns (raised: Option<Exception>)
    modifies ctx`slots, ctx`trace
    ensures PreserveRun(old(ctx.slots), old(ctx.trace), ctx.slots, ctx.trace, target, block, raised)
    ensures block.Some? ==> Bound(ctx.slots.buffers, target) == Bound(old(ctx.slots).buffers, target)
  {
    if block.None? {
      return Some(NoBlockGiven());
    }
    var current := CurrentBinding(ctx, target);
    if current.Failure? {
      return Some(current.error);
    }
    raised := ctx.Yield(block.value);
    ctx.BindBuffer(target, current.value);
  }

  /** The target `bind` uses: the explicit one, else the remembered one, else
      GL_ARRAY_BUFFER (`target ||= (@target || GL::GL_ARRAY_BUFFER)`). */
  function BindTarget(explicit: Option<int>, remembered: Option<int>): (t: int)
    ensures explicit.Some? ==> t == explicit.value
    ensures explicit.None? ==> t == remembered.GetOr(GL_ARRAY_BUFFER)
  {
    explicit.GetOr(remembered.GetOr(GL_ARRAY_BUFFER))
  }

  const AllocationFailed: Exception := Raise(GLCreateError, "Unable to allocate buffer object")

  class Buffer {
    /** The native name; 0 means no buffer object has been allocated. */
    var name: int
    /** The remembered target (nil until set). */
    var target: Option<int>

    /** `new(target, name)`: a nil or 0 name is stored as 0. */
    constructor (target: Option<int>, name: Option<int>)
      ensures this.name == if name.None? || name == Some(0) then 0 else name.value
      ensures this.target == target
    {
      this.name := if name.None? || name == Some(0) then 0 else name.value;
      this.target := target;
    }

    /** `is_buffer?`: asks the context; a 0 name is never a live buffer. */
    method IsBuffer(ctx: Context) returns (b: bool)
      requires ctx.Valid()
      modifies ctx`trace
      ensures b <==> (Buffers, name) in ctx.live
      ensures name == 0 ==> !b
      ensures ctx.trace == old(ctx.trace) + [IsObject(Buffers, name)]
    {
      var v := ctx.IsLive(Buffers, name);
      b := v != GL_FALSE;
    }

    /** `delete`: deletes a nonzero name once and forgets it; on 0 it makes no
        call, so deleting twice is the same as deleting once. */
    method Delete(ctx: Context)
      requires ctx.Valid()
      modifies this`name, ctx`live, ctx`trace
      ensures ctx.Valid() && name == 0
      ensures old(name) == 0 ==> ctx.live == old(ctx.live) && ctx.trace == old(ctx.trace)
      ensures old(name) != 0 ==>
        && ctx.live == old(ctx.live) - {(Buffers, old(name))}
        && ctx.trace == old(ctx.trace) + [Call.DeleteObjects(Buffers, [old(name)])]
    {
      if name != 0 {
        var raised := GL.DeleteObjects(ctx, Buffers, GL.Integer(name));
        assert Named(Buffers, [name]) == {(Buffers, name)};
        name := 0;
      }
    }

    /** `bind(target)`. Scoped (with a block) it only preserves the binding of
        the target around the block: the buffer is neither allocated nor bound.
        Unscoped it allocates a name when it has none, raises GLCreateError when
        the allocator returns 0, and binds the name to the target. The
        remembered target is set only when it was nil. */
    method Bind(ctx: Context, target: Option<int>, block: Option<Block>) returns (raised: Option<Exception>)
      requires ctx.Valid()
      modifies this`name, this`target, ctx`slots, ctx`supply, ctx`live, ctx`trace
      ensures ctx.Valid()
      ensures var t := BindTarget(target, old(this.target));
        this.target == if old(this.target).Some? then old(this.target) else Some(t)
      ensures block.Some? ==>
        && name == old(name) && ctx.supply == old(ctx.supply) && ctx.live == old(ctx.live)
        && PreserveRun(old(ctx.slots), old(ctx.trace), ctx.slots, ctx.trace,
                       BindTarget(target, old(this.target)), block, raised)
      ensures block.None? && old(name) != 0 ==>
        var t := BindTarget(target, old(this.target));
        && raised.None? && name == old(name)
        && ctx.supply == old(ctx.supply) && ctx.live == old(ctx.live)
        && ctx.slots == old(ctx.slots).(buffers := old(ctx.slots).buffers[t := name])
        && ctx.trace == old(ctx.trace) + [BindBuffer(t, name)]
      ensures block.None? && old(name) == 0 ==>
        var t := BindTarget(target, old(this.target));
        && name == NextName(old(ctx.supply))
        && ctx.supply == Remaining(old(ctx.supply), 1)
        && ctx.live == old(ctx.live) + Named(Buffers, [name])
        && (name == 0 ==>
              && raised == Some(AllocationFailed) && ctx.slots == old(ctx.slots)
              && ctx.trace == old(ctx.trace) + [Call.GenObjects(Buffers, 1)])
        && (name != 0 ==>
              && raised.None?
              && ctx.slots == old(ctx.slots).(buffers := old(ctx.slots).buffers[t := name])
              && ctx.trace == old(ctx.trace) + [Call.GenObjects(Buffers, 1), BindBuffer(t, name)])
    {
      var t := BindTarget(target, this.target);
      if this.target.None? {
        this.target := Some(t);
      }
      if block.Some? {
        raised := PreserveBinding(ctx, t, block);
        return;
      }
      if name == 0 {
        var generated := GL.GenObjects(ctx, Buffers, 1);
        name := generated.name;
        if name == 0 {
          return Some(AllocationFailed);
        }
      }
      ctx.BindBuffer(t, name);
      raised := None;
    }
  }

  /** Binding twice allocates at most once: the second unscoped bind reuses
      the name the first one obtained and only binds it again. */
  method BindTwice(ctx: Context, buffer: Buffer, target: Option<int>) returns (first: Option<Exception>, second: Option<Exception>)
    requires ctx.Valid() && buffer.name == 0
    modifies buffer`name, buffer`target, ctx`slots, ctx`supply, ctx`live, ctx`trace
    ensures ctx.Valid()
    ensures first.None? ==> second.None? && buffer.name != 0
    ensures ctx.supply == Remaining(old(ctx.supply), if first.None? then 1 else 2)
    ensures first.None? ==>
      var t := BindTarget(target, old(buffer.target));
      && Bound(ctx.slots.buffers, t) == buffer.name
      && ctx.trace == old(ctx.trace) + [Call.GenObjects(Buffers, 1), BindBuffer(t, buffer.name), BindBuffer(t, buffer.name)]
  {
    first := buffer.Bind(ctx, target, None);
    second := buffer.Bind(ctx, target, None);
  }
}
