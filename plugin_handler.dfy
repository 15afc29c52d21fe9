/** The composite dispatcher of plugins: an ordered plugin list and, for each
    event kind, a fan-out over that list that calls every plugin whose type
    implements the kind's capability, with one shared context and one shared
    payload slot. */
module PluginHandler {
  import opened Wrappers
  import opened Event
  import opened PlayerHandler

  /** One invocation made by a dispatch: the plugin's position in the list,
      the by-reference state it saw and what it did with it. */
  datatype Call<T> = Call(index: nat, seen: View<T>, reaction: Reaction<T>)

  /** The positions of the invoked plugins, in invocation order. */
  function Indices<T>(calls: seq<Call<T>>): (r: seq<nat>)
    ensures |r| == |calls|
    ensures forall m :: 0 <= m < |calls| ==> r[m] == calls[m].index
  {
    if calls == [] then [] else Indices(calls[..|calls| - 1]) + [calls[|calls| - 1].index]
  }

  /** The state a call sees of its context and slot; `None` for an argument
      the kind's signature does not carry (a nil reference here). */
  function Observe<T>(ctx: Context?, slot: Ref?<T>): (v: View<T>)
    reads ctx, slot
  {
    View(if ctx == null then None else Some(ctx.canceled),
         if slot == null then None else Some(slot.value))
  }

  /** One iteration of a fan-out loop: the type assertion, and the call when
      it succeeds. */
  function Visit<A, T>(k: Kind, p: Observer<A, T>, args: A, v: View<T>): View<T>
  {
    if Implements(p, k) then Apply(v, p.react(k, args, v)) else v
  }

  /** The positions of the plugins that implement `k`, in list order. */
  function Invoked<A, T>(k: Kind, ps: seq<Observer<A, T>>): seq<nat>
    decreases |ps|
  {
    if ps == [] then []
    else Invoked(k, ps[..|ps| - 1]) + (if Implements(ps[|ps| - 1], k) then [|ps| - 1] else [])
  }

  /** The state left by visiting the plugins `ps` in order, starting from `v`. */
  function Run<A, T>(k: Kind, ps: seq<Observer<A, T>>, args: A, v: View<T>): View<T>
    decreases |ps|
  {
    if ps == [] then v else Visit(k, ps[|ps| - 1], args, Run(k, ps[..|ps| - 1], args, v))
  }

  /** The calls made while visiting `ps` in order, starting from `v`. */
  function Trace<A, T>(k: Kind, ps: seq<Observer<A, T>>, args: A, v: View<T>): seq<Call<T>>
    decreases |ps|
  {
    if ps == [] then []
    else
      var n := |ps| - 1;
      var seen := Run(k, ps[..n], args, v);
      Trace(k, ps[..n], args, v)
        + (if Implements(ps[n], k) then [Call(n, seen, ps[n].react(k, args, seen))] else [])
  }

  /** One step of `Run` and `Trace`: the last plugin is visited after the
      others, with the state they left. */
  lemma Unfold<A, T>(k: Kind, ps: seq<Observer<A, T>>, args: A, v: View<T>)
    requires ps != []
    ensures var n := |ps| - 1;
      var u := Run(k, ps[..n], args, v);
      && Run(k, ps, args, v) == (if Implements(ps[n], k) then Apply(u, ps[n].react(k, args, u)) else u)
      && Trace(k, ps, args, v)
         == Trace(k, ps[..n], args, v) + (if Implements(ps[n], k) then [Call(n, u, ps[n].react(k, args, u))] else [])
  {
  }

  /** `Handler`: the plugin list. The dispatch methods only range over it,
      so nothing in them changes it; here it is a value fixed at
      construction. */
  class Handler<A, T> {
    const plugins: seq<Observer<A, T>>

    /** `MakePlugin`: a handler over the single plugin `p`. */
    constructor MakePlugin(p: Observer<A, T>)
      ensures plugins == [p]
    {
      plugins := [p];
    }

    /** `JoinPlugins`: a handler over `ps` as given, in the same order, with
        nothing removed or merged. The list is held as a value, so later
        writes by the caller into its own slice are not seen here. */
    constructor JoinPlugins(ps: seq<Observer<A, T>>)
      ensures plugins == ps
    {
      plugins := ps;
    }

    /** The fan-out loop shared by all 22 `Handle…` methods. The context and
        slot are non-null exactly when kind `k`'s signature carries them. */
    method Dispatch(k: Kind, args: A, ctx: Context?, slot: Ref?<T>) returns (ghost calls: seq<Call<T>>)
      requires (ctx != null) == k.TakesContext()
      requires (slot != null) == k.HasSlot()
      modifies ctx, slot
      ensures Observe(ctx, slot) == Run(k, plugins, args, old(Observe(ctx, slot)))
      ensures calls == Trace(k, plugins, args, old(Observe(ctx, slot)))
      ensures Indices(calls) == Invoked(k, plugins)
    {
      ghost var v0 := Observe(ctx, slot);
      calls := [];
      var i := 0;
      while i < |plugins|
        invariant 0 <= i <= |plugins|
        invariant Observe(ctx, slot) == Run(k, plugins[..i], args, v0)
        invariant calls == Trace(k, plugins[..i], args, v0)
      {
        var p := plugins[i];
        assert plugins[..i + 1][..i] == plugins[..i];
        Unfold(k, plugins[..i + 1], args, v0);
        if Implements(p, k) {
          var seen := Observe(ctx, slot);
          var r := p.react(k, args, seen);
          if r.cancel && ctx != null {
            ctx.Cancel();
          }
          if r.write.Some? && slot != null {
            slot.Set(r.write.value);
          }
          calls := calls + [Call(i, seen, r)];
        }
        i := i + 1;
      }
      assert plugins[..i] == plugins;
      TraceIndices(k, plugins, args, v0);
    }

    // The 22 fan-out methods. `args` stands for the player and the event's
    // by-value arguments; `ctx` and the `Ref` slot are the by-reference ones.

    method HandleMove(ctx: Context, args: A) returns (ghost calls: seq<Call<T>>)
      modifies ctx
      ensures View(Some(ctx.canceled), None) == Run(Move, plugins, args, View(Some(old(ctx.canceled)), None))
      ensures calls == Trace(Move, plugins, args, View(Some(old(ctx.canceled)), None))
    {
      calls := Dispatch(Move, args, ctx, null);
    }

    method HandleTeleport(ctx: Context, args: A) returns (ghost calls: seq<Call<T>>)
      modifies ctx
      ensures View(Some(ctx.canceled), None) == Run(Teleport, plugins, args, View(Some(old(ctx.canceled)), None))
      ensures calls == Trace(Teleport, plugins, args, View(Some(old(ctx.canceled)), None))
    {
      calls := Dispatch(Teleport, args, ctx, null);
    }

    method HandleChat(ctx: Context, message: Ref<T>, args: A) returns (ghost calls: seq<Call<T>>)
      modifies ctx, message
      ensures View(Some(ctx.canceled), Some(message.value)) == Run(Chat, plugins, args, View(Some(old(ctx.canceled)), Some(old(message.value))))
      ensures calls == Trace(Chat, plugins, args, View(Some(old(ctx.canceled)), Some(old(message.value))))
    {
      calls := Dispatch(Chat, args, ctx, message);
    }

    method HandleFoodLoss(ctx: Context, args: A) returns (ghost calls: seq<Call<T>>)
      modifies ctx
      ensures View(Some(ctx.canceled), None) == Run(FoodLoss, plugins, args, View(Some(old(ctx.canceled)), None))
      ensures calls == Trace(FoodLoss, plugins, args, View(Some(old(ctx.canceled)), None))
    {
      calls := Dispatch(FoodLoss, args, ctx, null);
    }

    method HandleHeal(ctx: Context, health: Ref<T>, args: A) returns (ghost calls: seq<Call<T>>)
      modifies ctx, health
      ensures View(Some(ctx.canceled), Some(health.value)) == Run(Heal, plugins, args, View(Some(old(ctx.canceled)), Some(old(health.value))))
      ensures calls == Trace(Heal, plugins, args, View(Some(old(ctx.canceled)), Some(old(health.value))))
    {
      calls := Dispatch(Heal, args, ctx, health);
    }

    method HandleHurt(ctx: Context, damage: Ref<T>, args: A) returns (ghost calls: seq<Call<T>>)
      modifies ctx, damage
      ensures View(Some(ctx.canceled), Some(damage.value)) == Run(Hurt, plugins, args, View(Some(old(ctx.canceled)), Some(old(damage.value))))
      ensures calls == Trace(Hurt, plugins, args, View(Some(old(ctx.canceled)), Some(old(damage.value))))
    {
      calls := Dispatch(Hurt, args, ctx, damage);
    }

    method HandleDeath(args: A) returns (ghost calls: seq<Call<T>>)
      ensures calls == Trace(Death, plugins, args, View(None, None))
    {
      calls := Dispatch(Death, args, null, null);
    }

    method HandleRespawn(pos: Ref<T>, args: A) returns (ghost calls: seq<Call<T>>)
      modifies pos
      ensures View(None, Some(pos.value)) == Run(Respawn, plugins, args, View(None, Some(old(pos.value))))
      ensures calls == Trace(Respawn, plugins, args, View(None, Some(old(pos.value))))
    {
      calls := Dispatch(Respawn, args, null, pos);
    }

    method HandleStartBreak(ctx: Context, args: A) returns (ghost calls: seq<Call<T>>)
      modifies ctx
      ensures View(Some(ctx.canceled), None) == Run(StartBreak, plugins, args, View(Some(old(ctx.canceled)), None))
      ensures calls == Trace(StartBreak, plugins, args, View(Some(old(ctx.canceled)), None))
    {
      calls := Dispatch(StartBreak, args, ctx, null);
    }

    method HandleBlockBreak(ctx: Context, args: A) returns (ghost calls: seq<Call<T>>)
      modifies ctx
      ensures View(Some(ctx.canceled), None) == Run(BlockBreak, plugins, args, View(Some(old(ctx.canceled)), None))
      ensures calls == Trace(BlockBreak, plugins, args, View(Some(old(ctx.canceled)), None))
    {
      calls := Dispatch(BlockBreak, args, ctx, null);
    }

    method HandleBlockPlace(ctx: Context, args: A) returns (ghost calls: seq<Call<T>>)
      modifies ctx
      ensures View(Some(ctx.canceled), None) == Run(BlockPlace, plugins, args, View(Some(old(ctx.canceled)), None))
      ensures calls == Trace(BlockPlace, plugins, args, View(Some(old(ctx.canceled)), None))
    {
      calls := Dispatch(BlockPlace, args, ctx, null);
    }

    method HandleBlockPick(ctx: Context, args: A) returns (ghost calls: seq<Call<T>>)
      modifies ctx
      ensures View(Some(ctx.canceled), None) == Run(BlockPick, plugins, args, View(Some(old(ctx.canceled)), None))
      ensures calls == Trace(BlockPick, plugins, args, View(Some(old(ctx.canceled)), None))
    {
      calls := Dispatch(BlockPick, args, ctx, null);
    }

    method HandleItemUse(ctx: Context, args: A) returns (ghost calls: seq<Call<T>>)
      modifies ctx
      ensures View(Some(ctx.canceled), None) == Run(ItemUse, plugins, args, View(Some(old(ctx.canceled)), None))
      ensures calls == Trace(ItemUse, plugins, args, View(Some(old(ctx.canceled)), None))
    {
      calls := Dispatch(ItemUse, args, ctx, null);
    }

    method HandleItemUseOnBlock(ctx: Context, args: A) returns (ghost calls: seq<Call<T>>)
      modifies ctx
      ensures View(Some(ctx.canceled), None) == Run(ItemUseOnBlock, plugins, args, View(Some(old(ctx.canceled)), None))
      ensures calls == Trace(ItemUseOnBlock, plugins, args, View(Some(old(ctx.canceled)), None))
    {
      calls := Dispatch(ItemUseOnBlock, args, ctx, null);
    }

    method HandleItemUseOnEntity(ctx: Context, args: A) returns (ghost calls: seq<Call<T>>)
      modifies ctx
      ensures View(Some(ctx.canceled), None) == Run(ItemUseOnEntity, plugins, args, View(Some(old(ctx.canceled)), None))
      ensures calls == Trace(ItemUseOnEntity, plugins, args, View(Some(old(ctx.canceled)), None))
    {
      calls := Dispatch(ItemUseOnEntity, args, ctx, null);
    }

    method HandleAttackEntity(ctx: Context, args: A) returns (ghost calls: seq<Call<T>>)
      modifies ctx
      ensures View(Some(ctx.canceled), None) == Run(AttackEntity, plugins, args, View(Some(old(ctx.canceled)), None))
      ensures calls == Trace(AttackEntity, plugins, args, View(Some(old(ctx.canceled)), None))
    {
      calls := Dispatch(AttackEntity, args, ctx, null);
    }

    method HandleItemDamage(ctx: Context, args: A) returns (ghost calls: seq<Call<T>>)
      modifies ctx
      ensures View(Some(ctx.canceled), None) == Run(ItemDamage, plugins, args, View(Some(old(ctx.canceled)), None))
      ensures calls == Trace(ItemDamage, plugins, args, View(Some(old(ctx.canceled)), None))
    {
      calls := Dispatch(ItemDamage, args, ctx, null);
    }

    method HandleItemPickup(ctx: Context, args: A) returns (ghost calls: seq<Call<T>>)
      modifies ctx
      ensures View(Some(ctx.canceled), None) == Run(ItemPickup, plugins, args, View(Some(old(ctx.canceled)), None))
      ensures calls == Trace(ItemPickup, plugins, args, View(Some(old(ctx.canceled)), None))
    {
      calls := Dispatch(ItemPickup, args, ctx, null);
    }

    method HandleItemDrop(ctx: Context, args: A) returns (ghost calls: seq<Call<T>>)
      modifies ctx
      ensures View(Some(ctx.canceled), None) == Run(ItemDrop, plugins, args, View(Some(old(ctx.canceled)), None))
      ensures calls == Trace(ItemDrop, plugins, args, View(Some(old(ctx.canceled)), None))
    {
      calls := Dispatch(ItemDrop, args, ctx, null);
    }

    method HandleTransfer(ctx: Context, args: A) returns (ghost calls: seq<Call<T>>)
      modifies ctx
      ensures View(Some(ctx.canceled), None) == Run(Transfer, plugins, args, View(Some(old(ctx.canceled)), None))
      ensures calls == Trace(Transfer, plugins, args, View(Some(old(ctx.canceled)), None))
    {
      calls := Dispatch(Transfer, args, ctx, null);
    }

    method HandleCommandExecution(ctx: Context, args: A) returns (ghost calls: seq<Call<T>>)
      modifies ctx
      ensures View(Some(ctx.canceled), None) == Run(CommandExecution, plugins, args, View(Some(old(ctx.canceled)), None))
      ensures calls == Trace(CommandExecution, plugins, args, View(Some(old(ctx.canceled)), None))
    {
      calls := Dispatch(CommandExecution, args, ctx, null);
    }

    method HandleQuit(args: A) returns (ghost calls: seq<Call<T>>)
      ensures calls == Trace(Quit, plugins, args, View(None, None))
    {
      calls := Dispatch(Quit, args, null, null);
    }
  }

  /** Dispatch invokes exactly the plugins that implement `k`, each once, in
      list order. */
  lemma {:induction false} InvokedExactly<A, T>(k: Kind, ps: seq<Observer<A, T>>)
    ensures forall i :: i in Invoked(k, ps) <==> 0 <= i < |ps| && Implements(ps[i], k)
    ensures forall x, y :: 0 <= x < y < |Invoked(k, ps)| ==> Invoked(k, ps)[x] < Invoked(k, ps)[y]
    decreases |ps|
  {
    if ps != [] {
      var n := |ps| - 1;
      InvokedExactly(k, ps[..n]);
      assert forall i :: 0 <= i < n ==> ps[..n][i] == ps[i];
      var prev := Invoked(k, ps[..n]);
      forall x | 0 <= x < |prev| ensures prev[x] < n {
        assert prev[x] in Invoked(k, ps[..n]);
      }
    }
  }

  /** The calls of a dispatch are made at exactly the invoked positions,
      whatever state the context and slot are in. */
  lemma {:induction false} TraceIndices<A, T>(k: Kind, ps: seq<Observer<A, T>>, args: A, v: View<T>)
    ensures Indices(Trace(k, ps, args, v)) == Invoked(k, ps)
    decreases |ps|
  {
    if ps != [] {
      var n := |ps| - 1;
      TraceIndices(k, ps[..n], args, v);
    }
  }

  /** No short-circuit: the positions called never depend on the context or
      the slot, so cancelling does not stop the loop. */
  lemma InvocationsIgnoreState<A, T>(k: Kind, ps: seq<Observer<A, T>>, args: A, v: View<T>, w: View<T>)
    ensures Indices(Trace(k, ps, args, v)) == Indices(Trace(k, ps, args, w))
  {
    TraceIndices(k, ps, args, v);
    TraceIndices(k, ps, args, w);
  }

  /** No short-circuit: after a call that cancels, every later plugin that
      implements `k` is still called, after it. */
  lemma NoShortCircuit<A, T>(k: Kind, ps: seq<Observer<A, T>>, args: A, v: View<T>, j: int)
    requires 0 <= j < |Trace(k, ps, args, v)| && Trace(k, ps, args, v)[j].reaction.cancel
    ensures forall i :: Trace(k, ps, args, v)[j].index < i < |ps| && Implements(ps[i], k) ==>
      exists m :: j < m < |Trace(k, ps, args, v)| && Trace(k, ps, args, v)[m].index == i
  {
    var t := Trace(k, ps, args, v);
    TraceIndices(k, ps, args, v);
    InvokedExactly(k, ps);
    var inv := Invoked(k, ps);
    forall i | t[j].index < i < |ps| && Implements(ps[i], k)
      ensures exists m :: j < m < |t| && t[m].index == i
    {
      assert i in inv;
      var m :| 0 <= m < |inv| && inv[m] == i;
      assert t[m].index == i;
    }
  }

  /** The first call sees the caller's state, and the dispatch ends with
      what the last call left (or with the caller's state if nothing was
      called). */
  lemma {:induction false} TraceEnds<A, T>(k: Kind, ps: seq<Observer<A, T>>, args: A, v: View<T>)
    ensures Trace(k, ps, args, v) == [] ==> Run(k, ps, args, v) == v
    ensures Trace(k, ps, args, v) != [] ==> Trace(k, ps, args, v)[0].seen == v
    ensures Trace(k, ps, args, v) != [] ==>
      var last := Trace(k, ps, args, v)[|Trace(k, ps, args, v)| - 1];
      Run(k, ps, args, v) == Apply(last.seen, last.reaction)
    decreases |ps|
  {
    if ps != [] {
      TraceEnds(k, ps[..|ps| - 1], args, v);
    }
  }

  /** Every call sees the same context and slot as the call before it left
      them: a write or a cancel is visible to every later plugin. */
  lemma {:induction false} TraceLinks<A, T>(k: Kind, ps: seq<Observer<A, T>>, args: A, v: View<T>)
    ensures forall m :: 0 <= m < |Trace(k, ps, args, v)| - 1 ==>
      Trace(k, ps, args, v)[m + 1].seen == Apply(Trace(k, ps, args, v)[m].seen, Trace(k, ps, args, v)[m].reaction)
    decreases |ps|
  {
    if ps != [] {
      var n := |ps| - 1;
      TraceLinks(k, ps[..n], args, v);
      TraceEnds(k, ps[..n], args, v);
      var t0 := Trace(k, ps[..n], args, v);
      var t := Trace(k, ps, args, v);
      assert forall m :: 0 <= m < |t0| ==> t[m] == t0[m];
    }
  }

  /** Every call is the listed plugin's own method, applied to the one
      `args` value of the dispatch and to the state the call saw. */
  lemma {:induction false} TraceCalls<A, T>(k: Kind, ps: seq<Observer<A, T>>, args: A, v: View<T>)
    ensures forall m :: 0 <= m < |Trace(k, ps, args, v)| ==>
      var c := Trace(k, ps, args, v)[m];
      c.index < |ps| && Implements(ps[c.index], k) && c.reaction == ps[c.index].react(k, args, c.seen)
    decreases |ps|
  {
    if ps != [] {
      var n := |ps| - 1;
      TraceCalls(k, ps[..n], args, v);
      assert forall i :: 0 <= i < n ==> ps[..n][i] == ps[i];
      var t0 := Trace(k, ps[..n], args, v);
      var t := Trace(k, ps, args, v);
      assert forall m :: 0 <= m < |t0| ==> t[m] == t0[m];
    }
  }

  /** The value of the last call in `calls` that assigned to the slot, or
      `init` when none did. */
  function LastWrite<T>(calls: seq<Call<T>>, init: Option<T>): Option<T>
    decreases |calls|
  {
    if calls == [] then init
    else if calls[|calls| - 1].reaction.write.Some? then calls[|calls| - 1].reaction.write
    else LastWrite(calls[..|calls| - 1], init)
  }

  /** Appending a call: it wins if it assigns, otherwise the earlier calls
      decide. */
  lemma LastWriteSnoc<T>(calls: seq<Call<T>>, c: Call<T>, init: Option<T>)
    ensures LastWrite(calls + [c], init) == if c.reaction.write.Some? then c.reaction.write else LastWrite(calls, init)
  {
    assert (calls + [c])[..|calls|] == calls;
  }

  /** With no call assigning, `LastWrite` is `init`. */
  lemma {:induction false} NoWriteKeepsInit<T>(calls: seq<Call<T>>, init: Option<T>)
    requires forall m :: 0 <= m < |calls| ==> calls[m].reaction.write.None?
    ensures LastWrite(calls, init) == init
    decreases |calls|
  {
    if calls != [] {
      var n := |calls| - 1;
      assert forall m :: 0 <= m < n ==> calls[..n][m] == calls[m];
      NoWriteKeepsInit(calls[..n], init);
    }
  }

  /** `LastWrite` is the write of the call after which no call writes. */
  lemma {:induction false} LastWriteIsLast<T>(calls: seq<Call<T>>, init: Option<T>, m: nat)
    requires m < |calls| && calls[m].reaction.write.Some?
    requires forall m' :: m < m' < |calls| ==> calls[m'].reaction.write.None?
    ensures LastWrite(calls, init) == calls[m].reaction.write
    decreases |calls|
  {
    var n := |calls| - 1;
    if m < n {
      var pre := calls[..n];
      assert calls[n].reaction.write.None?;
      assert forall m' :: m < m' < n ==> pre[m'] == calls[m'];
      LastWriteIsLast(pre, init, m);
    }
  }

  /** The slot a dispatch leaves is the last write among its calls. */
  lemma {:induction false} RunSlot<A, T>(k: Kind, ps: seq<Observer<A, T>>, args: A, v: View<T>)
    requires v.slot.Some?
    ensures Run(k, ps, args, v).slot == LastWrite(Trace(k, ps, args, v), v.slot)
    decreases |ps|
  {
    if ps != [] {
      var n := |ps| - 1;
      RunSlot(k, ps[..n], args, v);
      SlotKept(k, ps[..n], args, v);
      Unfold(k, ps, args, v);
      var t0 := Trace(k, ps[..n], args, v);
      var u := Run(k, ps[..n], args, v);
      if Implements(ps[n], k) {
        LastWriteSnoc(t0, Call(n, u, ps[n].react(k, args, u)), v.slot);
      } else {
        assert t0 + [] == t0;
      }
    }
  }

  /** Last write wins: the slot ends with the value of the last call that
      assigned to it, or with the caller's value when no call did. */
  lemma LastWriteWins<A, T>(k: Kind, ps: seq<Observer<A, T>>, args: A, v: View<T>)
    requires v.slot.Some?
    ensures var t := Trace(k, ps, args, v);
      (forall m :: 0 <= m < |t| ==> t[m].reaction.write.None?) ==> Run(k, ps, args, v).slot == v.slot
    ensures var t := Trace(k, ps, args, v);
      forall m ::
        (0 <= m < |t| && t[m].reaction.write.Some? && forall m' :: m < m' < |t| ==> t[m'].reaction.write.None?)
        ==> Run(k, ps, args, v).slot == t[m].reaction.write
  {
    RunSlot(k, ps, args, v);
    var t := Trace(k, ps, args, v);
    if forall m :: 0 <= m < |t| ==> t[m].reaction.write.None? {
      NoWriteKeepsInit(t, v.slot);
    }
    forall m | 0 <= m < |t| && t[m].reaction.write.Some? && forall m' :: m < m' < |t| ==> t[m'].reaction.write.None?
      ensures Run(k, ps, args, v).slot == t[m].reaction.write
    {
      LastWriteIsLast(t, v.slot, m);
    }
  }

  /** A dispatch never adds or drops a by-reference argument. */
  lemma {:induction false} SlotKept<A, T>(k: Kind, ps: seq<Observer<A, T>>, args: A, v: View<T>)
    ensures Run(k, ps, args, v).ctx.Some? == v.ctx.Some?
    ensures Run(k, ps, args, v).slot.Some? == v.slot.Some?
    decreases |ps|
  {
    if ps != [] {
      SlotKept(k, ps[..|ps| - 1], args, v);
    }
  }

  /** Cancellation is monotonic, and an uncancelled context ends cancelled
      exactly when some call cancelled it. Kinds without a context (Death,
      Respawn, Quit) cannot be cancelled at all. */
  lemma {:induction false} CancelFacts<A, T>(k: Kind, ps: seq<Observer<A, T>>, args: A, v: View<T>)
    ensures Fits(k, v) ==> Fits(k, Run(k, ps, args, v))
    ensures v.ctx == Some(true) ==> Run(k, ps, args, v).ctx == Some(true)
    ensures v.ctx == Some(false) ==>
      (Run(k, ps, args, v).ctx == Some(true) <==>
       exists m :: 0 <= m < |Trace(k, ps, args, v)| && Trace(k, ps, args, v)[m].reaction.cancel)
    ensures v.ctx.None? ==> Run(k, ps, args, v).ctx.None?
    decreases |ps|
  {
    if ps != [] {
      var n := |ps| - 1;
      CancelFacts(k, ps[..n], args, v);
      SlotKept(k, ps[..n], args, v);
      Unfold(k, ps, args, v);
      var t0 := Trace(k, ps[..n], args, v);
      var t := Trace(k, ps, args, v);
      var u := Run(k, ps[..n], args, v);
      if Implements(ps[n], k) {
        var c := Call(n, u, ps[n].react(k, args, u));
        assert t == t0 + [c];
        assert forall m :: 0 <= m < |t0| ==> t[m] == t0[m];
        if v.ctx == Some(false) && c.reaction.cancel {
          assert t[|t0|].reaction.cancel;
        }
      } else {
        assert t == t0;
      }
    }
  }

  /** Registration order is dispatch order: visiting `ps + qs` is visiting
      `ps`, then `qs` from where `ps` left off. */
  lemma {:induction false} RunAppend<A, T>(k: Kind, ps: seq<Observer<A, T>>, qs: seq<Observer<A, T>>, args: A, v: View<T>)
    ensures Run(k, ps + qs, args, v) == Run(k, qs, args, Run(k, ps, args, v))
    decreases |qs|
  {
    if qs == [] {
      assert ps + qs == ps;
    } else {
      var n := |qs| - 1;
      assert (ps + qs)[..|ps + qs| - 1] == ps + qs[..n];
      RunAppend(k, ps, qs[..n], args, v);
    }
  }

  /** A plugin whose type assertion fails for `k` has no effect on the
      context or the slot. */
  lemma SkipIncapable<A, T>(k: Kind, ps: seq<Observer<A, T>>, p: Observer<A, T>, qs: seq<Observer<A, T>>, args: A, v: View<T>)
    requires !Implements(p, k)
    ensures Run(k, ps + [p] + qs, args, v) == Run(k, ps + qs, args, v)
  {
    RunAppend(k, ps + [p], qs, args, v);
    RunAppend(k, ps, [p], args, v);
    RunAppend(k, ps, qs, args, v);
  }

  /** A plugin that only embeds `NopHandler` is invisible to every dispatch. */
  lemma NopTransparent<A, T>(k: Kind, ps: seq<Observer<A, T>>, qs: seq<Observer<A, T>>, args: A, v: View<T>)
    ensures Run(k, ps + [NopHandler()] + qs, args, v) == Run(k, ps + qs, args, v)
  {
    RunAppend(k, ps + [NopHandler()], qs, args, v);
    RunAppend(k, ps, [NopHandler()], args, v);
    RunAppend(k, ps, qs, args, v);
    NopHandlerIsNoop(k, args, Run(k, ps, args, v));
  }

  /** With no plugins every dispatch calls nothing and changes nothing,
      exactly as `NopHandler`'s method for that kind. */
  lemma EmptyIsNop<A, T>(k: Kind, args: A, v: View<T>)
    ensures Trace(k, [], args, v) == []
    ensures Run(k, [], args, v) == v == Apply(v, NopHandler<A, T>().react(k, args, v))
  {
  }

  /** Death, Respawn and Quit take no context, so no plugin list can cancel
      them. */
  lemma ContextFreeKindsNeverCancel<A, T>(k: Kind, ps: seq<Observer<A, T>>, args: A, v: View<T>)
    requires Fits(k, v) && k in {Death, Respawn, Quit}
    ensures Run(k, ps, args, v).ctx.None?
  {
    CancelFacts(k, ps, args, v);
  }

  /** Every other kind takes a context: one plugin that cancels cancels the
      event. */
  lemma ContextKindsCancel<A, T>(k: Kind, p: Observer<A, T>, args: A, v: View<T>)
    requires Fits(k, v) && k !in {Death, Respawn, Quit}
    requires Implements(p, k) && p.react(k, args, v).cancel
    ensures Run(k, [p], args, v).ctx == Some(true)
  {
  }

  /** Chat, Heal, Hurt and Respawn carry a slot: one plugin that assigns `x`
      leaves `x` for the caller. */
  lemma SlotKindsWrite<A, T>(k: Kind, p: Observer<A, T>, args: A, v: View<T>, x: T)
    requires k in {Chat, Heal, Hurt, Respawn} && Fits(k, v)
    requires Implements(p, k) && p.react(k, args, v).write == Some(x)
    ensures Run(k, [p], args, v).slot == Some(x)
  {
  }

  /** Every other kind carries no slot, so no plugin list can hand a value
      back to the caller. */
  lemma SlotFreeKindsNoSlot<A, T>(k: Kind, ps: seq<Observer<A, T>>, args: A, v: View<T>)
    requires Fits(k, v) && k !in {Chat, Heal, Hurt, Respawn}
    ensures Run(k, ps, args, v).slot.None?
  {
    SlotKept(k, ps, args, v);
  }
}
