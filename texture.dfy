/** `GL::Texture` (lib/opengl-aux/texture.rb): a texture name with a remembered
    target, and the nested save/restore of the active texture unit and of one
    texture binding target on it. */
module Textures {
  import opened Wrappers
  import opened Errors
  import opened GLEnums
  import opened GLContext
  import GL

  /** `__texture_target_getters__`: texture target -> the glGetInteger
      parameter that reads its binding on the active unit. */
  const TargetGetters: map<int, int> := map[
    GL_TEXTURE_1D := GL_TEXTURE_BINDING_1D,
    GL_TEXTURE_2D := GL_TEXTURE_BINDING_2D,
    GL_TEXTURE_3D := GL_TEXTURE_BINDING_3D,
    GL_TEXTURE_1D_ARRAY := GL_TEXTURE_BINDING_1D_ARRAY,
    GL_TEXTURE_2D_ARRAY := GL_TEXTURE_BINDING_2D_ARRAY,
    GL_TEXTURE_RECTANGLE := GL_TEXTURE_BINDING_RECTANGLE,
    GL_TEXTURE_CUBE_MAP := GL_TEXTURE_BINDING_CUBE_MAP,
    GL_TEXTURE_CUBE_MAP_ARRAY := GL_TEXTURE_BINDING_CUBE_MAP_ARRAY,
    GL_TEXTURE_BUFFER := GL_TEXTURE_BINDING_BUFFER,
    GL_TEXTURE_2D_MULTISAMPLE := GL_TEXTURE_BINDING_2D_MULTISAMPLE,
    GL_TEXTURE_2D_MULTISAMPLE_ARRAY := GL_TEXTURE_BINDING_2D_MULTISAMPLE_ARRAY]

  function NoQueryableTarget(target: int): Exception {
    Raise(ArgumentError, "No queryable texture binding target for " + Decimal(target))
  }

  /** What Ruby raises when `yield` runs in a method called without a block. */
  const YieldWithoutBlock: Exception := Raise(LocalJumpError, "no block given (yield)")

  const AllocationFailed: Exception := Raise(GLCreateError, "Unable to allocate texture object")

  /** Every parameter in the getter map reads back the binding of its own
      target on the active unit. */
  lemma GettersReadOwnTarget(target: int)
    requires target in TargetGetters
    ensures TargetGetters[target] in TextureBindingTargets
    ensures TextureBindingTargets[TargetGetters[target]] == target
  {
  }

  /** `current_unit`: the active texture unit, read with one glGetInteger. */
  method CurrentUnit(ctx: Context) returns (unit: int)
    modifies ctx`trace
    ensures unit == ctx.slots.activeUnit
    ensures ctx.trace == old(ctx.trace) + [GetInteger(GL_ACTIVE_TEXTURE)]
  {
    unit := ctx.GetInteger(GL_ACTIVE_TEXTURE);
  }

  /** `current_binding(target)`: the texture bound to `target` on the active
      unit; an unmapped target raises before any call is made. */
  method CurrentBinding(ctx: Context, target: int) returns (r: Result<int, Exception>)
    modifies ctx`trace
    ensures target in TargetGetters ==>
      && r == Success(Bound(ctx.slots.textures, (ctx.slots.activeUnit, target)))
      && ctx.trace == old(ctx.trace) + [GetInteger(TargetGetters[target])]
    ensures target !in TargetGetters ==>
      r == Failure(NoQueryableTarget(target)) && ctx.trace == old(ctx.trace)
  {
    var query := GetterLookup(TargetGetters, target, NoQueryableTarget(target));
    if query.Failure? {
      return Failure(query.error);
    }
    GettersReadOwnTarget(target);
    var current := ctx.GetInteger(query.value);
    return Success(current);
  }

  /** `preserve_unit`: reads the active unit, runs the block and makes the
      saved unit active again on every exit path. Without a block the `yield`
      itself raises, after the unit was read, and the unit is still restored. */
  method PreserveUnit(ctx: Context, block: Option<Block>) returns (raised: Option<Exception>)
    modifies ctx`slots, ctx`trace
    ensures ctx.slots.activeUnit == old(ctx.slots.activeUnit)
    ensures block.None? ==>
      && raised == Some(YieldWithoutBlock) && ctx.slots == old(ctx.slots)
      && ctx.trace == old(ctx.trace) + [GetInteger(GL_ACTIVE_TEXTURE), ActiveTexture(old(ctx.slots.activeUnit))]
    ensures block.Some? ==>
      && raised == block.value.failure
      && ctx.slots == block.value.effect(old(ctx.slots)).(activeUnit := old(ctx.slots.activeUnit))
      && ctx.trace == old(ctx.trace) + [GetInteger(GL_ACTIVE_TEXTURE), RunBlock, ActiveTexture(old(ctx.slots.activeUnit))]
  {
    var unit := CurrentUnit(ctx);
    if block.None? {
      raised := Some(YieldWithoutBlock);
    } else {
      raised := ctx.Yield(block.value);
    }
    ctx.ActiveTexture(unit);
  }

  /** The slots after `preserve_binding(target)` whose body took `before` to
      `after`: the saved name is rebound to `target` on the unit that is active
      when the body ends, and then the saved unit is made active. */
  function TextureRestored(before: Slots, after: Slots, target: int): (r: Slots)
    ensures r.activeUnit == before.activeUnit
    ensures Bound(r.textures, (after.activeUnit, target)) == Bound(before.textures, (before.activeUnit, target))
    ensures forall u, t :: (u, t) != (after.activeUnit, target) ==>
      Bound(r.textures, (u, t)) == Bound(after.textures, (u, t))
    ensures r.(textures := after.textures, activeUnit := after.activeUnit) == after
  {
    after.(textures := after.textures[(after.activeUnit, target) := Bound(before.textures, (before.activeUnit, target))],
           activeUnit := before.activeUnit)
  }

  /** When the body leaves the active unit where it found it, both the unit
      and the target's binding on it are back to their prior values, and
      every other binding is what the body left. */
  lemma RestoredWhenUnitKept(before: Slots, after: Slots, target: int)
    requires after.activeUnit == before.activeUnit
    ensures var r := TextureRestored(before, after, target);
      && r.activeUnit == before.activeUnit
      && Bound(r.textures, (before.activeUnit, target)) == Bound(before.textures, (before.activeUnit, target))
      && forall u, t :: (u, t) != (before.activeUnit, target) ==> Bound(r.textures, (u, t)) == Bound(after.textures, (u, t))
  {
  }

  /** When the body switches units, the rebind lands on the body's last unit:
      the original unit keeps whatever the body left bound there, and the
      saved texture overwrites the target's binding on the other unit. */
  lemma UnitSwitchLeavesBinding(before: Slots, after: Slots, target: int)
    requires after.activeUnit != before.activeUnit
    ensures var r := TextureRestored(before, after, target);
      && r.activeUnit == before.activeUnit
      && Bound(r.textures, (before.activeUnit, target)) == Bound(after.textures, (before.activeUnit, target))
      && Bound(r.textures, (after.activeUnit, target)) == Bound(before.textures, (before.activeUnit, target))
  {
  }

  /** How `preserve_binding(target)` takes the context from (`s0`, `tr0`) to
      (`s1`, `tr1`) when its body, run from `s0`, ends in `mid` after making
      the calls `body` and raising `bodyRaised`. An unmapped target raises
      inside `preserve_unit`, so only the unit is read and restored. */
  ghost predicate PreserveRun(s0: Slots, tr0: seq<Call>, s1: Slots, tr1: seq<Call>, target: int,
                              mid: Slots, body: seq<Call>, bodyRaised: Option<Exception>,
                              raised: Option<Exception>)
  {
    if target !in TargetGetters then
      && raised == Some(NoQueryableTarget(target)) && s1 == s0
      && tr1 == tr0 + [GetInteger(GL_ACTIVE_TEXTURE), ActiveTexture(s0.activeUnit)]
    else
      && raised == bodyRaised
      && s1 == TextureRestored(s0, mid, target)
      && tr1 == tr0 + [GetInteger(GL_ACTIVE_TEXTURE), GetInteger(TargetGetters[target])] + body
                    + [BindTexture(target, Bound(s0.textures, (s0.activeUnit, target))), ActiveTexture(s0.activeUnit)]
  }

  /** The unit restore wraps the binding restore: in every run through a
      mapped target, the last two calls rebind the target and then reactivate
      the saved unit. */
  lemma BindingRestoredBeforeUnit(s0: Slots, tr0: seq<Call>, s1: Slots, tr1: seq<Call>, target: int,
                                  mid: Slots, body: seq<Call>, bodyRaised: Option<Exception>,
                                  raised: Option<Exception>)
    requires PreserveRun(s0, tr0, s1, tr1, target, mid, body, bodyRaised, raised)
    requires target in TargetGetters
    ensures |tr1| >= |tr0| + 4
    ensures tr1[|tr1| - 2] == BindTexture(target, Bound(s0.textures, (s0.activeUnit, target)))
    ensures tr1[|tr1| - 1] == ActiveTexture(s0.activeUnit)
    ensures s1.activeUnit == s0.activeUnit
  {
  }

  /** Opening half of `preserve_binding`: saves the unit, then the binding;
      an unmapped target restores the unit at once and fails. */
  method Enter(ctx: Context, target: int) returns (saved: Result<(int, int), Exception>)
    modifies ctx`slots, ctx`trace
    ensures target in TargetGetters ==>
      && saved == Success((old(ctx.slots.activeUnit), Bound(old(ctx.slots.textures), (old(ctx.slots.activeUnit), target))))
      && ctx.slots == old(ctx.slots)
      && ctx.trace == old(ctx.trace) + [GetInteger(GL_ACTIVE_TEXTURE), GetInteger(TargetGetters[target])]
    ensures target !in TargetGetters ==>
      && saved == Failure(NoQueryableTarget(target)) && ctx.slots == old(ctx.slots)
      && ctx.trace == old(ctx.trace) + [GetInteger(GL_ACTIVE_TEXTURE), ActiveTexture(old(ctx.slots.activeUnit))]
  {
    var unit := CurrentUnit(ctx);
    var binding := CurrentBinding(ctx, target);
    if binding.Failure? {
      ctx.ActiveTexture(unit);
      return Failure(binding.error);
    }
    return Success((unit, binding.value));
  }

  /** Closing half: the binding comes back first, then the unit. */
  method Leave(ctx: Context, target: int, saved: (int, int))
    modifies ctx`slots, ctx`trace
    ensures ctx.slots == old(ctx.slots).(textures := old(ctx.slots).textures[(old(ctx.slots).activeUnit, target) := saved.1],
                                          activeUnit := saved.0)
    ensures ctx.trace == old(ctx.trace) + [BindTexture(target, saved.1), ActiveTexture(saved.0)]
  {
    ctx.BindTexture(target, saved.1);
    ctx.ActiveTexture(saved.0);
  }

  /** `Texture.preserve_binding(target)`. Without a block the inner `yield`
      raises, and both restores still run. */
  method PreserveBinding(ctx: Context, target: int, block: Option<Block>) returns (raised: Option<Exception>)
    modifies ctx`slots, ctx`trace
    ensures block.None? ==>
      PreserveRun(old(ctx.slots), old(ctx.trace), ctx.slots, ctx.trace, target,
                  old(ctx.slots), [], Some(YieldWithoutBlock), raised)
    ensures block.Some? ==>
      PreserveRun(old(ctx.slots), old(ctx.trace), ctx.slots, ctx.trace, target,
                  block.value.effect(old(ctx.slots)), [RunBlock], block.value.failure, raised)
  {
    var saved := Enter(ctx, target);
    if saved.Failure? {
      return Some(saved.error);
    }
    if block.None? {
      raised := Some(YieldWithoutBlock);
    } else {
      raised := ctx.Yield(block.value);
    }
    Leave(ctx, target, saved.value);
  }

  /** The target `bind` uses: the explicit one, else the remembered one, else
      GL_TEXTURE_2D. */
  function BindTarget(explicit: Option<int>, remembered: Option<int>): (t: int)
    ensures explicit.Some? ==> t == explicit.value
    ensures explicit.None? ==> t == remembered.GetOr(GL_TEXTURE_2D)
  {
    explicit.GetOr(remembered.GetOr(GL_TEXTURE_2D))
  }

  class Texture {
    /** The native name; 0 means no texture object. */
    var name: int
    /** The remembered target (nil until set). */
    var target: Option<int>

    /** `new(target, name)`: a nil name is stored as 0. */
    constructor (target: Option<int>, name: Option<int>)
      ensures this.name == name.GetOr(0)
      ensures this.target == target
    {
      this.name := name.GetOr(0);
      this.target := target;
    }

    /** `is_texture?`: asks the context, even for name 0; 0 is never live. */
    method IsTexture(ctx: Context) returns (b: bool)
      requires ctx.Valid()
      modifies ctx`trace
      ensures b <==> (Textures, name) in ctx.live
      ensures name == 0 ==> !b
      ensures ctx.trace == old(ctx.trace) + [IsObject(Textures, name)]
    {
      var v := ctx.IsLive(Textures, name);
      b := v != GL_FALSE;
    }

    /** `delete`: deletes a nonzero name once and forgets it; on 0 it makes no
        call, so deleting twice is the same as deleting once. */
    method Delete(ctx: Context)
      requires ctx.Valid()
      modifies this`name, ctx`live, ctx`trace
      ensures ctx.Valid() && name == 0
      ensures old(name) == 0 ==> ctx.live == old(ctx.live) && ctx.trace == old(ctx.trace)
      ensures old(name) != 0 ==>
        && ctx.live == old(ctx.live) - {(Textures, old(name))}
        && ctx.trace == old(ctx.trace) + [Call.DeleteObjects(Textures, [old(name)])]
    {
      if name != 0 {
        var raised := GL.DeleteObjects(ctx, Textures, GL.Integer(name));
        assert Named(Textures, [name]) == {(Textures, name)};
        name := 0;
      }
    }

    /** The unscoped branch of `bind`. `@name ||= glGenTextures(1)` assigns
        nothing while the name is 0 (0 is truthy in Ruby), so no texture is
        ever generated: name 0 raises GLCreateError without a call, and a
        nonzero name is bound to the target on the active unit. */
    method BindNow(ctx: Context, t: int) returns (raised: Option<Exception>)
      modifies ctx`slots, ctx`trace
      ensures name == 0 ==>
        raised == Some(AllocationFailed) && ctx.slots == old(ctx.slots) && ctx.trace == old(ctx.trace)
      ensures name != 0 ==>
        && raised.None?
        && ctx.slots == old(ctx.slots).(textures := old(ctx.slots).textures[(old(ctx.slots).activeUnit, t) := name])
        && ctx.trace == old(ctx.trace) + [BindTexture(t, name)]
    {
      if name == 0 {
        return Some(AllocationFailed);
      }
      ctx.BindTexture(t, name);
      raised := None;
    }

    /** `bind(target)`. The remembered target is set only when it was nil.
        Scoped, the inner unscoped bind and the block run inside
        `preserve_binding`, so the block is skipped when the inner bind raises
        and the unit and binding are restored either way. The name never
        changes. */
    method Bind(ctx: Context, target: Option<int>, block: Option<Block>) returns (raised: Option<Exception>)
      modifies this`target, ctx`slots, ctx`trace
      ensures name == old(name)
      ensures var t := BindTarget(target, old(this.target));
        this.target == if old(this.target).Some? then old(this.target) else Some(t)
      ensures block.None? ==>
        var t := BindTarget(target, old(this.target));
        && (name == 0 ==> raised == Some(AllocationFailed) && ctx.slots == old(ctx.slots) && ctx.trace == old(ctx.trace))
        && (name != 0 ==>
              && raised.None?
              && ctx.slots == old(ctx.slots).(textures := old(ctx.slots).textures[(old(ctx.slots).activeUnit, t) := name])
              && ctx.trace == old(ctx.trace) + [BindTexture(t, name)])
      ensures block.Some? && name == 0 ==>
        PreserveRun(old(ctx.slots), old(ctx.trace), ctx.slots, ctx.trace, BindTarget(target, old(this.target)),
                    old(ctx.slots), [], Some(AllocationFailed), raised)
      ensures block.Some? && name != 0 ==>
        var t := BindTarget(target, old(this.target));
        var s0 := old(ctx.slots);
        PreserveRun(s0, old(ctx.trace), ctx.slots, ctx.trace, t,
                    block.value.effect(s0.(textures := s0.textures[(s0.activeUnit, t) := name])),
                    [BindTexture(t, name), RunBlock], block.value.failure, raised)
    {
      var t := BindTarget(target, this.target);
      if this.target.None? {
        this.target := Some(t);
      }
      if block.None? {
        raised := BindNow(ctx, t);
        return;
      }
      var saved := Enter(ctx, t);
      if saved.Failure? {
        return Some(saved.error);
      }
      raised := BindNow(ctx, t);
      if raised.None? {
        raised := ctx.Yield(block.value);
      }
      Leave(ctx, t, saved.value);
    }
  }
}
