/** The player's event-handler contract: one single-method capability per
    event kind, their union `Handler`, and the do-nothing `NopHandler`. */
module PlayerHandler {
  import opened Wrappers

  /** The 22 event kinds, one per capability interface (`MoveHandler` …
      `QuitHandler`). */
  datatype Kind =
    | Move | Teleport | Chat | FoodLoss | Heal | Hurt | Death | Respawn
    | StartBreak | BlockBreak | BlockPlace | BlockPick | ItemUse
    | ItemUseOnBlock | ItemUseOnEntity | AttackEntity | ItemDamage
    | ItemPickup | ItemDrop | Transfer | CommandExecution | Quit
  {
    /** Whether the capability's method takes a `*event.Context`, that is,
        whether an observer can cancel the event. */
    predicate TakesContext()
    {
      match this
      case Death | Respawn | Quit => false
      case _ => true
    }

    /** Whether the capability's method receives a pointer that observers
        may assign to: the chat message, the health added, the damage dealt
        and the respawn position. */
    predicate HasSlot()
    {
      match this
      case Chat | Heal | Hurt | Respawn => true
      case _ => false
    }
  }

  /** The capabilities embedded in the `Handler` interface. */
  const HandlerKinds: set<Kind> :=
    {Move, Teleport, Chat, FoodLoss, Heal, Hurt, Death, Respawn,
     StartBreak, BlockBreak, BlockPlace, BlockPick, ItemUse,
     ItemUseOnBlock, ItemUseOnEntity, AttackEntity, ItemDamage,
     ItemPickup, ItemDrop, Transfer, CommandExecution, Quit}

  /** What one handler invocation sees of its by-reference arguments: the
      context's cancel flag and the slot's current value, each `None` when
      the kind's signature does not carry it. */
  datatype View<T> = View(ctx: Option<bool>, slot: Option<T>)

  /** The net effect of one handler invocation: whether it called
      `ctx.Cancel()` and what, if anything, it last assigned to the slot. */
  datatype Reaction<T> = Reaction(cancel: bool, write: Option<T>)

  /** The view has exactly the by-reference arguments that kind `k`'s
      method signature has. */
  predicate Fits<T>(k: Kind, v: View<T>)
  {
    v.ctx.Some? == k.TakesContext() && v.slot.Some? == k.HasSlot()
  }

  /** The state after one invocation with reaction `r`: cancelling sets the
      flag for good, assigning replaces the slot's value, and an argument the
      signature does not carry cannot be touched. */
  function Apply<T>(v: View<T>, r: Reaction<T>): View<T>
  {
    View(if v.ctx.Some? then Some(v.ctx.value || r.cancel) else None,
         if v.slot.Some? && r.write.Some? then r.write else v.slot)
  }

  /** An observer: the subset of capabilities its dynamic type implements,
      and how it reacts when one of them is called with the by-value
      arguments `A` and the by-reference state it sees. */
  datatype Observer<!A, !T> = Observer(caps: set<Kind>, react: (Kind, A, View<T>) -> Reaction<T>)

  /** The Go type assertion `o.(KHandler)` succeeds. */
  predicate Implements<A, T>(o: Observer<A, T>, k: Kind)
  {
    k in o.caps
  }

  /** `NopHandler`: implements every capability and does nothing in any. */
  function NopHandler<A, T>(): Observer<A, T>
  {
    Observer(HandlerKinds, (k: Kind, a: A, v: View<T>) => Reaction(false, None))
  }

  /** `Handler` is the union of all 22 capabilities. */
  lemma HandlerIsUnion()
    ensures forall k: Kind :: k in HandlerKinds
  {
    forall k: Kind ensures k in HandlerKinds {
      match k
      case Move => case Teleport => case Chat => case FoodLoss =>
      case Heal => case Hurt => case Death => case Respawn =>
      case StartBreak => case BlockBreak => case BlockPlace =>
      case BlockPick => case ItemUse => case ItemUseOnBlock =>
      case ItemUseOnEntity => case AttackEntity => case ItemDamage =>
      case ItemPickup => case ItemDrop => case Transfer =>
      case CommandExecution => case Quit =>
    }
  }

  /** The compile-time check `var _ Handler = (*NopHandler)(nil)`. */
  lemma NopHandlerImplementsHandler<A, T>()
    ensures forall k: Kind :: Implements(NopHandler<A, T>(), k)
  {
    HandlerIsUnion();
  }

  /** Every `NopHandler` method has an empty body: it never cancels and
      leaves every slot as it found it. */
  lemma NopHandlerIsNoop<A, T>(k: Kind, a: A, v: View<T>)
    ensures Apply(v, NopHandler<A, T>().react(k, a, v)) == v
  {
  }

  /** An invocation keeps the signature's shape, never un-cancels, and
      leaves the slot alone unless it assigns to it. */
  lemma ApplyFacts<T>(k: Kind, v: View<T>, r: Reaction<T>)
    ensures Fits(k, v) ==> Fits(k, Apply(v, r))
    ensures v.ctx == Some(true) ==> Apply(v, r).ctx == Some(true)
    ensures r.write.None? ==> Apply(v, r).slot == v.slot
    ensures !r.cancel ==> Apply(v, r).ctx == v.ctx
  {
  }
}
