/** Small registries run through the dispatcher: what a player's chat, hurt
    and quit events come to with particular plugin lists. */
module Scenarios {
  import opened Wrappers
  import opened Event
  import opened PlayerHandler
  import opened PluginHandler

  /** A chat plugin that rewrites every message. */
  function Rewriter(): Observer<(), string>
  {
    Observer({Chat}, (k: Kind, a: (), v: View<string>) => Reaction(false, Some("[filtered]")))
  }

  /** A chat plugin that cancels every message. */
  function Canceller(): Observer<(), string>
  {
    Observer({Chat}, (k: Kind, a: (), v: View<string>) => Reaction(true, None))
  }

  /** A plugin that implements only the heal capability: it cancels every
      heal and sets the amount to zero. */
  function HealOnly(): Observer<(), real>
  {
    Observer({Heal}, (k: Kind, a: (), v: View<real>) => Reaction(true, Some(0.0)))
  }

  /** A plugin implementing only quit, recording nothing. */
  function QuitWatcher(): Observer<(), real>
  {
    Observer({Quit}, (k: Kind, a: (), v: View<real>) => Reaction(false, None))
  }

  /** The coordinates plugin: it implements only command execution, and its
      reaction (showing the player's coordinates) touches neither the
      context nor any slot. */
  function Coords<T>(): Observer<(), T>
  {
    Observer({CommandExecution}, (k: Kind, a: (), v: View<T>) => Reaction(false, None))
  }

  /** A rewrite followed by a cancel: the message is the rewritten one and
      the event is cancelled. */
  lemma RewriteThenCancel()
    ensures Run(Chat, [Rewriter(), Canceller()], (), View(Some(false), Some("hello")))
      == View(Some(true), Some("[filtered]"))
  {
    assert [Rewriter(), Canceller()][..1] == [Rewriter()];
  }

  /** The cancel comes first, yet the rewriter after it is still called. */
  lemma CancelThenRewrite()
    ensures Indices(Trace(Chat, [Canceller(), Rewriter()], (), View(Some(false), Some("hello")))) == [0, 1]
    ensures Run(Chat, [Canceller(), Rewriter()], (), View(Some(false), Some("hello")))
      == View(Some(true), Some("[filtered]"))
  {
    var ps := [Canceller(), Rewriter()];
    assert ps[..1] == [Canceller()];
    assert Invoked(Chat, ps[..1]) == [0];
    TraceIndices(Chat, ps, (), View(Some(false), Some("hello")));
  }

  /** A hurt event passes a heal-only plugin by: the damage and the context
      are as the caller left them. */
  lemma HurtSkipsHealer()
    ensures Run(Hurt, [HealOnly()], (), View(Some(false), Some(5.0))) == View(Some(false), Some(5.0))
    ensures Trace(Hurt, [HealOnly()], (), View(Some(false), Some(5.0))) == []
  {
  }

  /** Both quit plugins are called, in order, whatever came before. */
  lemma BothQuitWatchersCalled(v: View<real>)
    ensures Indices(Trace(Quit, [QuitWatcher(), QuitWatcher()], (), v)) == [0, 1]
  {
    var ps := [QuitWatcher(), QuitWatcher()];
    assert ps[..1] == [QuitWatcher()];
    assert Invoked(Quit, ps[..1]) == [0];
    TraceIndices(Quit, ps, (), v);
  }

  /** The coordinates plugin is called only for command execution, and it
      changes nothing whichever event it sees. */
  lemma CoordsOnlyCommands<T>(k: Kind, v: View<T>)
    ensures Invoked(k, [Coords<T>()]) == if k == CommandExecution then [0] else []
    ensures Run(k, [Coords<T>()], (), v) == v
  {
  }

  /** What a chat call site sees after dispatching through a handler built
      from the rewriter and the canceller. */
  method ChatCallSite() returns (canceled: bool, message: string)
    ensures canceled && message == "[filtered]"
  {
    var h := new Handler.JoinPlugins([Rewriter(), Canceller()]);
    var ctx := new Context();
    var msg := new Ref("hello");
    ghost var calls := h.HandleChat(ctx, msg, ());
    RewriteThenCancel();
    canceled, message := ctx.Cancelled(), msg.value;
  }

  /** A handler made of one plugin, dispatching an event it does not
      implement, leaves the caller's slot and context alone. */
  method HurtCallSite() returns (canceled: bool, damage: real)
    ensures !canceled && damage == 5.0
  {
    var h := new Handler.MakePlugin(HealOnly());
    var ctx := new Context();
    var dmg := new Ref(5.0);
    ghost var calls := h.HandleHurt(ctx, dmg, ());
    HurtSkipsHealer();
    canceled, damage := ctx.Cancelled(), dmg.value;
  }
}
