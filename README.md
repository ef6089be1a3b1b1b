# Plugin manager of base-server, in Dafny

This project models `PluginInterfaceManager`, the class through which the
server registers its plugins, puts them in order and drives them through
three lifecycle phases. The model covers three parts of the class:

- **The registry.** `addPlug` stores a plugin in the ordered array `$plugs`
  under its name and in `$plugClasses` under its class. It refuses once
  `$fixed` is set. `getPlug` looks a plugin up by class.
- **Ordering.** `order` turns every plugin's declared before-classes and
  after-classes into `addAfterPlug` calls. It then sorts `$plugs` with
  `usort` by each plugin's `getOrderIndex` and sets `$fixed`.
- **The phases.** `init`, `beforeServerStart` and `beforeProcessStart` call
  every plugin's hook in `$plugs` order and dispatch manager and plugin
  events. `waitReady` waits for the manager's ready signal.

The manager is the class `Manager.PluginInterfaceManager`. Its fields are
`plugs`, `plugClasses` and `fixed`, and three more record what the source
does to its collaborators:

- `afterCalls` logs every `addAfterPlug` call in order. The bodies of those
  calls belong to the concrete plugins.
- `trace` holds every `onAdded` and lifecycle hook call, every closing of a
  plugin's readiness channel, and every event handed to the dispatcher, in
  the order they happen.
- `readyChannel` is the manager's own ready channel: `Empty`, `Signalled`
  or `Closed`.

Plugins are values (`Plugins.Plugin`). The `id` field stands for object
identity. `$plugs` is a sequence of key/plugin entries that follows PHP's
rules for array assignment:

- assigning to a key that exists replaces the value in that key's slot;
- assigning to a new key appends it;
- `usort` re-numbers the keys 0, 1, 2, ….

Code that is not part of this model enters as parameters:

- `getOrderIndex` is a function `orderIndex(p, calls)`. It gives the order
  index of plugin `p` once the calls in `calls` have been made. `calls` is
  the log of every `addAfterPlug` call made so far, to any plugin.
- Each hook's outcome is a function of the plugin. For `init` and
  `beforeServerStart` it says whether the hook throws. For
  `beforeProcessStart` it is `Throws`, `ReadyInTime` or `TimedOut`. The
  last two say which branch the test `!pop(5)` on the plugin's readiness
  channel takes. `TimedOut` covers every falsy result: a timeout, a closed
  channel, or a falsy value that was pushed.
- Whether the context supplied a logger and an event dispatcher is fixed
  when the manager is constructed.

Where the source's contract and its documentation differ, the model follows
the code:

- A duplicate name or class silently overwrites the earlier plugin. It is
  not rejected.
- `order` does not check `$fixed`. It may run twice, and each run adds its
  edges again.
- The phase methods do not check that the manager is fixed.
- `usort` with this comparator, which never answers "equal", promises only
  a permutation sorted by order index. No stability is claimed.
- A stale `$plugClasses` entry can survive an overwrite by name. If plugin
  A of class C1 is replaced under its name by B of class C2, then
  `getPlug(C1)` still returns A.

## Model

| member | source | states |
|---|---|---|
| `Plugins.PutLastWriteWins` | src/Server/PlugIn/PluginInterfaceManager.php:86 | after `$plugs[name] = p` the name maps to `p` (last write wins) |
| `Plugins.PutKeepsOtherKeys` | src/Server/PlugIn/PluginInterfaceManager.php:86 | the assignment leaves the value of every other key unchanged |
| `Plugins.PutKeepsSlots` | src/Server/PlugIn/PluginInterfaceManager.php:86 | a re-used key keeps its original position and a new key goes last; no key appears twice |
| `Plugins.Reindexed` | src/Server/PlugIn/PluginInterfaceManager.php:189-195 | after `usort` the array holds the sorted plugins in that order, under the keys 0..n-1 |
| `Manager.PluginInterfaceManager.constructor` | src/Server/PlugIn/PluginInterfaceManager.php:66-74 | a new manager is unfixed and empty, and its ready channel is empty |
| `Manager.PluginInterfaceManager.AddPlug` | src/Server/PlugIn/PluginInterfaceManager.php:81-89 | on a fixed manager it fails and changes nothing; otherwise the name maps to `p`, other names are unchanged, a re-used name keeps its slot, `$plugClasses[class] = p`, and `onAdded` is called once |
| `Manager.PluginInterfaceManager.GetPlug` | src/Server/PlugIn/PluginInterfaceManager.php:96-99 | returns the plugin stored under the class, of that class, or none when the class is unregistered; it reads state and never fails |
| `Manager.PluginInterfaceManager.ResolveClasses` | src/Server/PlugIn/PluginInterfaceManager.php:206-212 | the loop collects exactly the registered plugins named by the list, in list order |
| `Manager.PluginInterfaceManager.PlugBeforeClass` | src/Server/PlugIn/PluginInterfaceManager.php:203-213 | a plugin is in the result exactly when some class in `p`'s before list is registered to it, and the result follows declaration order |
| `Manager.PluginInterfaceManager.PlugAfterClass` | src/Server/PlugIn/PluginInterfaceManager.php:219-229 | the same for `p`'s after list |
| `Ordering.RegisteredMembership` | src/Server/PlugIn/PluginInterfaceManager.php:206-211 | membership in the resolved list is equivalent to being registered under a listed class; unregistered names are dropped |
| `Ordering.RegisteredAppend` | src/Server/PlugIn/PluginInterfaceManager.php:206-211 | resolving a concatenated list gives the two resolved lists concatenated, so declaration order is kept |
| `Ordering.RegisteredAllPresent` | src/Server/PlugIn/PluginInterfaceManager.php:206-211 | when every listed class is registered, nothing is dropped and entry k is the plugin of class k |
| `Manager.PluginInterfaceManager.AddPlugEdges` | src/Server/PlugIn/PluginInterfaceManager.php:182-187 | one plugin's turn: every registered before-target receives `addAfterPlug(p)`, then `p` receives `addAfterPlug(q)` for every registered after-target `q` |
| `Manager.PluginInterfaceManager.AddEdges` | src/Server/PlugIn/PluginInterfaceManager.php:181-188 | the nested loops make exactly the calls `EdgeCalls` lists, taking the plugins in `$plugs` order |
| `Ordering.PlugEdgesExact` | src/Server/PlugIn/PluginInterfaceManager.php:182-187 | the calls of one plugin's turn are exactly the edges its declarations demand |
| `Ordering.EdgeCallsSound` | src/Server/PlugIn/PluginInterfaceManager.php:181-188 | every call made is demanded by some plugin's before or after list |
| `Ordering.EdgeCallsComplete` | src/Server/PlugIn/PluginInterfaceManager.php:181-188 | every demanded edge is made: Q gets P as "after" when P lists Q's class as before; P gets Q when P lists Q's class as after |
| `Ordering.EdgeCallsExact` | src/Server/PlugIn/PluginInterfaceManager.php:181-188 | both directions: the calls made are exactly the demanded edges |
| `Ordering.InsertionPoint` | src/Server/PlugIn/PluginInterfaceManager.php:189-195 | finds the slot of a sorted sequence before which every plugin ranks at most `x` and after which every plugin ranks above it |
| `Ordering.InsertSorted` | src/Server/PlugIn/PluginInterfaceManager.php:189-195 | inserting at that slot keeps the sequence sorted and adds exactly one copy of `x` |
| `Ordering.SortByIndex` | src/Server/PlugIn/PluginInterfaceManager.php:189-195 | the result is a permutation of the input, sorted non-decreasingly by `getOrderIndex(p, 0)` |
| `Ordering.SortedRespectsEdges` | src/Server/PlugIn/PluginInterfaceManager.php:181-195 | when every recorded edge's receiver ranks strictly above its target, the sorted order puts the target first |
| `Manager.PluginInterfaceManager.Order` | src/Server/PlugIn/PluginInterfaceManager.php:179-197 | adds exactly the demanded edges; `$plugs` becomes a permutation of the plugins, sorted by order index and re-indexed from 0; sets `$fixed`; nothing else changes |
| `Manager.LockedAfterOrder` | src/Server/PlugIn/PluginInterfaceManager.php:83-85 | after `order`, `addPlug` fails (`added` is false); the class lookups, the plugins in `$plugs` and the trace are as `order` left them before the refused call |
| `Lifecycle.FirstThrow` | src/Server/PlugIn/PluginInterfaceManager.php:108-113 | the position of the first hook that throws: every hook before it returns and it throws, or none throws |
| `Lifecycle.ReachedIsFailFast` | src/Server/PlugIn/PluginInterfaceManager.php:108-113 | a fail-fast phase calls a prefix of the plugins and stops right after the first hook that throws; when none throws it calls all of them |
| `Manager.PluginInterfaceManager.CallHooks` | src/Server/PlugIn/PluginInterfaceManager.php:127-129 | calls the hooks in order up to and including the first that throws; completes exactly when no hook throws |
| `Manager.PluginInterfaceManager.Init` | src/Server/PlugIn/PluginInterfaceManager.php:106-114 | calls each plugin's `init` in `$plugs` order; an exception is not caught and stops the loop |
| `Manager.PluginInterfaceManager.DispatchEvent` | src/Server/PlugIn/PluginInterfaceManager.php:124-126 | an event reaches the trace exactly when a dispatcher is present |
| `Manager.PluginInterfaceManager.BeforeServerStart` | src/Server/PlugIn/PluginInterfaceManager.php:121-134 | the "before" event, then the hooks up to the first that throws, then the "after" event only if none threw |
| `Lifecycle.ServerStartBrackets` | src/Server/PlugIn/PluginInterfaceManager.php:121-134 | when no hook throws, every hook is called once, in order, between `PlugBeforeServerStartEvent` and `PlugAfterServerStartEvent`; without a dispatcher the trace holds only the hooks |
| `Manager.PluginInterfaceManager.StartPlugin` | src/Server/PlugIn/PluginInterfaceManager.php:148-167 | one plugin's turn: its hook is called; a throw produces no event; a timeout closes its channel and dispatches `PlugFailEvent`; readiness in time dispatches `PlugSuccessEvent` |
| `Manager.PluginInterfaceManager.StartPlugins` | src/Server/PlugIn/PluginInterfaceManager.php:147-168 | every plugin has its turn in order, whatever happened to earlier plugins |
| `Manager.PluginInterfaceManager.BeforeProcessStart` | src/Server/PlugIn/PluginInterfaceManager.php:141-174 | `PlugBeforeProcessStartEvent`, every plugin's turn, `PlugAfterProcessStartEvent`, then the push of the ready signal (catch-block logging taken as guarded by a logger being present; see Findings) |
| `Lifecycle.ProcessIsolation` | src/Server/PlugIn/PluginInterfaceManager.php:147-168 | the trace for plugin i depends only on plugin i's own outcome, and the plugins after it are still processed |
| `Lifecycle.ProcessCallsEveryHook` | src/Server/PlugIn/PluginInterfaceManager.php:147-168 | every plugin's `beforeProcessStart` hook is called exactly once, in `$plugs` order, whatever the outcomes |
| `Lifecycle.StepsEvents` | src/Server/PlugIn/PluginInterfaceManager.php:147-168 | the loop dispatches one success or failure event per plugin whose hook returned, in order, and none for a plugin whose hook threw |
| `Lifecycle.ProcessStartEvents` | src/Server/PlugIn/PluginInterfaceManager.php:141-172 | with a dispatcher, the events are the "before" event, the per-plugin verdicts and the "after" event; without one, there are no events |
| `Lifecycle.AsWrittenAgreesWhenLogged` | src/Server/PlugIn/PluginInterfaceManager.php:147-168 | with a logger present, or when no hook throws, the code as written behaves like the guarded loop |
| `Lifecycle.NullLoggerAbortsPhase` | src/Server/PlugIn/PluginInterfaceManager.php:150-153 | without a logger, one throwing hook ends the phase as written, so a later plugin is never started; the guarded loop starts both plugins |
| `Lifecycle.Push` | src/Server/PlugIn/PluginInterfaceManager.php:173 | after the push the channel is no longer empty, and it is closed exactly when it was closed before |
| `Manager.PluginInterfaceManager.WaitReady` | src/Server/PlugIn/PluginInterfaceManager.php:294-302 | returns only once the ready signal has been pushed; then the channel is closed and `PlugAllReadyEvent` is dispatched when a dispatcher is present |

## Left out

- Logging: the Monolog calls at lines 110, 151-152 and 158 are foreign I/O and are not in the trace. Only whether a logger exists is modelled, because that decides the behaviour of line 151 (see Findings).
- Concurrency and time: the coroutine `Channel`, the 5-second `pop(5)` and the blocking `pop()` are not modelled as such. Each plugin's readiness is an input of `beforeProcessStart`, and the manager's channel is a three-state value.
- `Lifecycle.Push`: a push onto a channel that still holds an unread signal would block in the source. The model leaves the channel signalled instead, because a second `beforeProcessStart` before `waitReady` is outside what it covers.
- `Manager.PluginInterfaceManager.WaitReady`: a call that would block is modelled as returning `false` with no change. A call on a closed channel is taken to return at once, which is the usual semantics of a coroutine channel. The `Channel` class is not part of this model.
- The plugins' own code: the bodies of the hooks, `onAdded`, `addAfterPlug` and `getOrderIndex` are not part of this model. `getOrderIndex` is assumed to have no side effects, and `onAdded` is assumed not to call back into the manager.
- Looking up the server, logger, event dispatcher and container through the context (lines 66-74) and `getServer`: this is container plumbing. The presence of the logger and dispatcher is a constructor parameter.
- The manager's own `PluginInterface` members (`getName` returning "PlugManager"; `setOrderIndex`, `getOrderIndex` returning 0, `getBeforeClass`/`getAfterClass` returning empty lists, `addAfterPlug`, `atAfter`, `atBefore`, `onAdded`, `getReadyChannel`): these are constants or no-ops.
- `src/Server/PlugIn/PluginInterface.php` is only an interface. The model uses it as the shape of `Plugins.Plugin`.
- Exceptions thrown by the event dispatcher itself are not modelled.

## Findings

| source | as written | input that shows it | evidently intended | confidence | as-written member | corrected member |
|---|---|---|---|---|---|---|
| src/Server/PlugIn/PluginInterfaceManager.php:151 | the catch block of `beforeProcessStart` calls `$this->log->error` without checking the logger. With no logger, that call fails inside the catch block, and the error escapes the method. | a manager with no logger (line 70 notes the base manager has none) and plugins [a, b] where a's `beforeProcessStart` hook throws: b is never started, no `PlugAfterProcessStartEvent` is dispatched, and the ready signal is never pushed, so `waitReady` blocks | log only when a logger is present, as lines 109 and 157 do, and go on to the next plugin | likely; not executed | `Lifecycle.ProcessStepsAsWritten` (shown by `Lifecycle.NullLoggerAbortsPhase`) | `Manager.PluginInterfaceManager.BeforeProcessStart` (with `Lifecycle.ProcessCallsEveryHook`, `Lifecycle.ProcessIsolation`) |
