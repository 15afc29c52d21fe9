# Plugin fan-out for dragonfly players

dragonfly lets several independently written plugins react to the events a
connected player raises: moving, chatting, being hurt, breaking a block,
quitting, and so on, 22 kinds in all. Each kind has its own single-method
capability interface (`MoveHandler`, `ChatHandler`, …). A plugin implements
any subset of them. The player holds one `Handler`, the union of all 22. By
default that is `NopHandler`, which does nothing. When plugins are attached,
it is the composite `dragonfly.Handler`. For each event kind, that handler
walks its plugin list in order. It asks each plugin whether its type
implements the kind's interface, and calls the ones that do. Every call gets
the same `*event.Context` and the same payload pointer.

This project models that layer and proves what it guarantees:

- which plugins are called, each exactly once, and in what order;
- that cancelling does not stop the loop;
- that a shared slot ends with the last write;
- that an empty list, or a plugin that only embeds `NopHandler`, does nothing.

## Structure

- `event.dfy` (module `Event`): `Context`, a class with the `canceled` flag
  and `Cancel()`; `Ref<T>`, a class with one field, standing for a Go pointer
  that observers may assign through.
- `player_handler.dfy` (module `PlayerHandler`), for `dragonfly/player/handler.go`:
  - `Kind`, the 22 capabilities, with `TakesContext()` (does the method take a
    context?) and `HasSlot()` (does it take a pointer callers read back?);
  - `HandlerKinds`, the `Handler` union;
  - `View`, what one call sees of its by-reference arguments; `Reaction`, what
    the call did to them; `Apply`, the resulting state;
  - `Observer`, a plugin value: its capability set, standing for the Go type
    assertion, and its reaction function;
  - `NopHandler`.
- `plugin_handler.dfy` (module `PluginHandler`), for `dragonfly/plugin.go`:
  - the class `Handler`, with its plugin list and its two constructors;
  - `Dispatch`, the `for … range` loop shared by all 22 methods, with a ghost
    record of the calls it makes;
  - the 22 `Handle…` methods;
  - the specification functions `Invoked` (positions of the capable plugins),
    `Run` (the state left by visiting the plugins in order) and `Trace` (the
    calls made, each with the position, the state seen and the reaction);
  - the lemmas about those functions.
- `scenarios.dfy` (module `Scenarios`): small plugin lists and what
  dispatching through them comes to, including the coordinates plugin of
  `plguins/example.go` as a sample observer.
- `wrappers.dfy`: the `Option` datatype.

`Dispatch` is proved against `Run` and `Trace`: the context and slot it leaves
equal `Run` applied to their old state, and its ghost list of calls is `Trace`.
The lemmas then say what `Run` and `Trace` mean. The 22 Go methods only
`range` over `handler.plugins` (dragonfly/plugin.go:43) and never assign into
it, so a dispatch leaves the registry as it found it. The model has the same
guarantee because `plugins` is a `const` field set only by the constructors.

The by-reference arguments of a kind follow its Go signature. Death, Respawn
and Quit carry no context, so their `View` has no context (`None`). Only
Chat, Heal, Hurt and Respawn carry a slot. A plugin's reaction therefore
cannot cancel, or write, an argument its method never receives.

## Model

| member | source | states |
|---|---|---|
| `Event.Context.Cancel` | dragonfly/player/handler.go:16 | after `Cancel()` the context is cancelled; calling it again keeps it cancelled |
| `Event.Ref.Set` | dragonfly/player/handler.go:29 | assigning through the pointer replaces the value every later reader sees |
| `PlayerHandler.HandlerIsUnion` | dragonfly/player/handler.go:162-187 | every one of the 22 capabilities belongs to `Handler` |
| `Event.Context.Cancelled` | dragonfly/player/handler.go:16 | whether some observer has called `Cancel()` on this context |
| `PlayerHandler.Kind.TakesContext` | dragonfly/player/handler.go:15-160 | whether the kind's method takes a `*event.Context`: false exactly for Death, Respawn and Quit (handler.go:55, 61, 159) |
| `PlayerHandler.Kind.HasSlot` | dragonfly/player/handler.go:26-62 | whether the kind's method takes a pointer documented for assignment: true exactly for Chat, Heal, Hurt and Respawn |
| `PlayerHandler.Implements` | dragonfly/plugin.go:44 | the type assertion `plugin.(player.KHandler)` succeeds: the kind is in the plugin's capability set |
| `PlayerHandler.NopHandler` | dragonfly/player/handler.go:192-262 | the `NopHandler` struct and its 22 empty methods: every capability, and a reaction that neither cancels nor assigns |
| `PlayerHandler.NopHandlerImplementsHandler` | dragonfly/player/handler.go:192-195 | `NopHandler` implements every capability of `Handler` |
| `PlayerHandler.NopHandlerIsNoop` | dragonfly/player/handler.go:197-262 | every `NopHandler` method leaves the context uncancelled and the slot unchanged |
| `PlayerHandler.ApplyFacts` | dragonfly/player/handler.go:26-61 | a call keeps the signature's arguments, never un-cancels, changes the slot only by assigning, and changes the context only by cancelling |
| `PluginHandler.Handler.MakePlugin` | dragonfly/plugin.go:28-34 | the handler's plugin list is exactly `[p]` |
| `PluginHandler.Handler.JoinPlugins` | dragonfly/plugin.go:36-40 | the handler's plugin list is the given list, unchanged in elements and order |
| `PluginHandler.Visit` | dragonfly/plugin.go:44-46 | one loop iteration: when the assertion succeeds, the plugin's reaction applied to the state it sees; otherwise the state unchanged |
| `PluginHandler.Handler.Dispatch` | dragonfly/plugin.go:42-48 | the context and slot end as `Run` of the plugin list from their old state; the calls made are `Trace`, at the positions `Invoked` |
| `PluginHandler.Handler.HandleMove` | dragonfly/plugin.go:42-48 | move: context ends as `Run` says; calls are `Trace` |
| `PluginHandler.Handler.HandleTeleport` | dragonfly/plugin.go:50-56 | teleport: context ends as `Run` says; calls are `Trace` |
| `PluginHandler.Handler.HandleChat` | dragonfly/plugin.go:58-64 | chat: context and message end as `Run` says; calls are `Trace` |
| `PluginHandler.Handler.HandleFoodLoss` | dragonfly/plugin.go:66-72 | food loss: context ends as `Run` says; calls are `Trace` |
| `PluginHandler.Handler.HandleHeal` | dragonfly/plugin.go:74-80 | heal: context and health end as `Run` says; calls are `Trace` |
| `PluginHandler.Handler.HandleHurt` | dragonfly/plugin.go:82-88 | hurt: context and damage end as `Run` says; calls are `Trace` |
| `PluginHandler.Handler.HandleDeath` | dragonfly/plugin.go:90-96 | death: no context, no slot; calls are `Trace` |
| `PluginHandler.Handler.HandleRespawn` | dragonfly/plugin.go:98-104 | respawn: no context; position ends as `Run` says; calls are `Trace` |
| `PluginHandler.Handler.HandleStartBreak` | dragonfly/plugin.go:106-112 | start break: context ends as `Run` says; calls are `Trace` |
| `PluginHandler.Handler.HandleBlockBreak` | dragonfly/plugin.go:114-120 | block break: context ends as `Run` says; calls are `Trace` |
| `PluginHandler.Handler.HandleBlockPlace` | dragonfly/plugin.go:122-128 | block place: context ends as `Run` says; calls are `Trace` |
| `PluginHandler.Handler.HandleBlockPick` | dragonfly/plugin.go:130-136 | block pick: context ends as `Run` says; calls are `Trace` |
| `PluginHandler.Handler.HandleItemUse` | dragonfly/plugin.go:138-144 | item use: context ends as `Run` says; calls are `Trace` |
| `PluginHandler.Handler.HandleItemUseOnBlock` | dragonfly/plugin.go:146-152 | item use on block: context ends as `Run` says; calls are `Trace` |
| `PluginHandler.Handler.HandleItemUseOnEntity` | dragonfly/plugin.go:154-160 | item use on entity: context ends as `Run` says; calls are `Trace` |
| `PluginHandler.Handler.HandleAttackEntity` | dragonfly/plugin.go:162-168 | attack: context ends as `Run` says; calls are `Trace` |
| `PluginHandler.Handler.HandleItemDamage` | dragonfly/plugin.go:170-176 | item damage: context ends as `Run` says; the damage int is by value; calls are `Trace` |
| `PluginHandler.Handler.HandleItemPickup` | dragonfly/plugin.go:178-184 | item pickup: context ends as `Run` says; calls are `Trace` |
| `PluginHandler.Handler.HandleItemDrop` | dragonfly/plugin.go:186-192 | item drop: context ends as `Run` says; calls are `Trace` |
| `PluginHandler.Handler.HandleTransfer` | dragonfly/plugin.go:194-200 | transfer: context ends as `Run` says; calls are `Trace` |
| `PluginHandler.Handler.HandleCommandExecution` | dragonfly/plugin.go:202-208 | command execution: context ends as `Run` says; calls are `Trace` |
| `PluginHandler.Handler.HandleQuit` | dragonfly/plugin.go:210-216 | quit: no context, no slot; calls are `Trace` |
| `PluginHandler.InvokedExactly` | dragonfly/plugin.go:43-46 | position `i` is invoked if and only if plugin `i` implements the kind; invoked positions strictly increase, so each is called once, in list order |
| `PluginHandler.TraceIndices` | dragonfly/plugin.go:43-46 | the calls made are at exactly the invoked positions, from any starting state |
| `PluginHandler.InvocationsIgnoreState` | dragonfly/plugin.go:58-64 | which plugins are called never depends on the context or slot (the loop never reads `ctx`) |
| `PluginHandler.NoShortCircuit` | dragonfly/plugin.go:58-64 | after a call that cancels, every later capable plugin is still called, after it |
| `PluginHandler.TraceEnds` | dragonfly/plugin.go:58-64 | the first call sees the caller's state; the dispatch ends with what the last call left, or with the caller's state if nothing was called |
| `PluginHandler.TraceLinks` | dragonfly/plugin.go:58-64 | each call sees exactly what the previous call left: one shared context and slot |
| `PluginHandler.TraceCalls` | dragonfly/plugin.go:42-48 | each call is the listed plugin's own method, for a plugin that implements the kind, with the dispatch's one `args` value (reference inputs within it are not modelled as shared state) |
| `PluginHandler.RunSlot` | dragonfly/plugin.go:74-80 | the slot a dispatch leaves is the last write among its calls, or the caller's value |
| `PluginHandler.LastWriteWins` | dragonfly/plugin.go:82-88 | if no call writes, the slot keeps the caller's value; otherwise it holds the write of the last call that wrote |
| `PluginHandler.SlotKept` | dragonfly/plugin.go:90-104 | a dispatch never adds or removes a by-reference argument |
| `PluginHandler.CancelFacts` | dragonfly/plugin.go:58-64 | cancellation is monotonic; an uncancelled context ends cancelled if and only if some call cancelled; kinds without a context stay without one |
| `PluginHandler.RunAppend` | dragonfly/plugin.go:43-47 | dispatching over `ps + qs` is dispatching over `ps`, then over `qs` from the state `ps` left |
| `PluginHandler.SkipIncapable` | dragonfly/plugin.go:44 | a plugin that fails the type assertion has no effect on the context or slot |
| `PluginHandler.NopTransparent` | dragonfly/player/handler.go:189-191 | a plugin that embeds `NopHandler` and overrides none of its methods (a bare `NopHandler` lacks `Init` and `GetName`, so it is not a `Plugin`) changes nothing a dispatch produces, wherever it sits in the list |
| `PluginHandler.ContextFreeKindsNeverCancel` | dragonfly/player/handler.go:53-62 | Death and Respawn (and Quit, handler.go:159) take no context, so no plugin list can cancel them |
| `PluginHandler.ContextKindsCancel` | dragonfly/player/handler.go:15-154 | every other kind takes a context: one capable plugin that cancels leaves the event cancelled |
| `PluginHandler.SlotKindsWrite` | dragonfly/player/handler.go:26-62 | for Chat, Heal, Hurt and Respawn, one capable plugin that assigns `x` hands `x` back to the caller |
| `PluginHandler.SlotFreeKindsNoSlot` | dragonfly/player/handler.go:15-160 | every other kind has no slot, so no plugin list hands a value back |
| `PluginHandler.EmptyIsNop` | dragonfly/plugin.go:43 | with no plugins nothing is called and nothing changes, exactly as `NopHandler` |
| `Scenarios.RewriteThenCancel` | dragonfly/plugin.go:58-64 | rewrite then cancel: the message is `[filtered]` and the chat is cancelled |
| `Scenarios.CancelThenRewrite` | dragonfly/plugin.go:58-64 | cancel then rewrite: both are called and the rewrite still lands |
| `Scenarios.HurtSkipsHealer` | dragonfly/plugin.go:82-88 | a heal-only plugin is skipped on hurt: damage stays `5.0`, context uncancelled |
| `Scenarios.BothQuitWatchersCalled` | dragonfly/plugin.go:210-216 | two quit plugins are both called, in order |
| `Scenarios.CoordsOnlyCommands` | plguins/example.go:13-19 | the coordinates plugin is called only for command execution and changes nothing |
| `Scenarios.ChatCallSite` | dragonfly/plugin.go:58-64 | a chat call site reads back a cancelled context and the rewritten message |
| `Scenarios.HurtCallSite` | dragonfly/plugin.go:82-88 | a hurt call site reads back an uncancelled context and the damage it passed |

## Left out

- `Plugin.Init(*Server)` and `GetName()` (dragonfly/plugin.go:18-21), and their bodies in `plguins/example.go`, are left out. They are lifecycle hooks that call into the server and the global command registry, outside the event path.
- The player, world, entity, item, command and network values are not modelled. Each `Handle…` method takes one opaque value `args` for all of the event's inputs other than the context and the documented slot.
- Shared reference inputs are not modelled as shared state. `p *player.Player`, `e *entity.Item`, `args []string` (dragonfly/plugin.go:202) and `addr *net.UDPAddr` are the same references for every plugin in one dispatch, so a plugin writing through one of them is seen by the next. In the model they sit in the immutable `args`, which every plugin receives unchanged.
- HandleTransfer: `addr` is a `*net.UDPAddr` that no doc comment (dragonfly/player/handler.go:144-148) offers for assignment. It is folded into the by-value `args`, so a plugin writing through it is not modelled.
- JoinPlugins: Go stores the caller's slice, not a copy (dragonfly/plugin.go:36-40), so after `h := JoinPlugins(ps); ps[0] = q` every later dispatch calls `q`. `Handler.plugins` is a value sequence, so this aliasing between the caller's slice and the registry is not captured.
- The slot types `string`, `float64` and `mgl64.Vec3` become one generic slot type `T` per handler. The model does no arithmetic on slot values.
- How `event.Context` is built is not shown in the code. It is modelled as one boolean that `Cancel()` sets.
- The body of a plugin method is modelled by its net effect on the call's arguments: whether it cancelled, and what it last assigned to the slot. What a plugin reads after its own write, and any effect outside the context and the slot, are not modelled.
- Go's runtime type assertion is modelled as membership in a fixed capability set.
- `HandleItemUseOnBlock`: the click position is documented to lie in [0, 1] on each axis. That is a promise by the caller, and the handler never checks it. The position is part of the opaque `args`, so no precondition states it.
- A panic raised inside a plugin is not modelled. The dispatch loop has no error path of its own.
- Concurrency is not modelled. Dispatch is one synchronous loop.
- `NopHandler`'s 22 empty methods are modelled as one `Observer` value whose every reaction is empty, not as 22 methods.
