# DocHub plugin coordinator, modelled in Dafny

This project models the plugin-loading coordinator of the DocHub front end
(`src/frontend/plugins/plugins.js`) and proves properties of it. The
coordinator has two parts.

- **Registration bridge.** A plugin script announces a document renderer by
  calling the global `DocHub.documents.register(type, component)`. Before
  `init`, that function appends the pair to the buffer `plugins.documents`.
  `init` puts a forwarding version in the same slot. The forwarding version
  gives the component a `mixins` list when it has none, hands it to the UI
  library, and writes it into the store's `documents` map. A later write for
  the same type overwrites an earlier one. `init` then calls `plugins.pull()`
  to replay the buffer.
- **Completion tracker.** Unless `env.isPlugin()` holds, `init` requests
  `/manifest.json`. For each URL in the manifest's `plugins` list it increments
  a counter and dispatches a script. The script's `onload` and `onerror`
  callbacks do the same thing: they decrement the counter and, when it reaches
  zero, commit `setReady(true)`. A failed request, or an exception in the
  response handler, also commits `setReady(true)`.

The files:

- `plugins_state.dfy` (module `Plugins`) holds the data model (component,
  registration, the manifest's `plugins` field, phase, state, events). It gives
  the effect of each event as a pure step function `Step`, and of a sequence of
  events as `Run`. `Valid` is the state invariant: the counter equals the
  number of dispatched scripts whose callback has not fired, and `ready` holds
  exactly after a failed fetch, or once every one of at least one dispatched
  script has settled. `StepPreservesValid` proves that every event keeps it.
- `plugins_coordinator.dfy` (module `PluginCoordinator`) holds the class
  `Coordinator`. Its fields are the ones the source changes in place: the
  buffer, the `register` slot, `state.ready`, `state.documents`, the counter
  local to `init`, and the dispatched scripts. Each of its event methods is
  proved to have exactly the effect `Step` gives that event and to keep
  `Valid`. The manifest handler's `map` over the URLs is a loop (`Dispatch`).
  Its invariants show that the guard `if (!counter)` right after an increment
  can never fire.
- `plugins_properties.dfy` (module `PluginProperties`) holds lemmas about
  single events and about event sequences.

External inputs become parameters or events:

- `env.isPlugin()` is the boolean argument of `Init`.
- The manifest request's outcome is one of two events: `ManifestResolved` with
  the value of `plugins`, or `ManifestRejected`.
- Each script's callback is a `ScriptSettled` event, and the class's
  `ScriptLoaded` or `ScriptFailed` method. Callbacks run one at a time, as on
  the JavaScript event loop.

## Behaviour of the code as written

The model follows the code on these paths, and a lemma states each one:

- The comment at line 8 says `pull` moves every plugin registered earlier
  into the main manager. Line 10 does not do that. It calls
  `DocHub.registerDocuments`, not the `DocHub.documents.register` that `init`
  installed at line 41, and the global object never has a
  `registerDocuments` property. So a non-empty buffer throws a TypeError at
  its first entry, and `init` ends there. The buffered registrations never
  reach the registry, the counter is never set up, no manifest is requested,
  and `ready` never becomes true (`PullOutcomes`, `EarlyRegistrationIsLost`).
  An empty buffer is a no-op.
- The buffer is never cleared (`BufferNeverShrinks`, `ForwardingRun`).
- When `isPlugin()` holds, the `&&` at line 51 skips the request. Nothing on
  that path ever commits `setReady` (`NoFetchNeverReady`).
- When the `plugins` list is empty or absent, the `map` body never runs.
  Nothing on that path ever commits `setReady` (`EmptyListNeverReady`). The
  guard at line 71 runs only inside the `map` body, right after an increment,
  so it never fires (`Coordinator.Dispatch`).
- After `init`, `register` with a component that is not an object throws at
  line 42, before the commit at line 44, so nothing is written
  (`PostInitRegisterWrites`, `Coordinator.Register`).

## Model

| member | source | states |
|---|---|---|
| `Plugins.Initial` | src/frontend/plugins/plugins.js:6-28 | after module evaluation the buffer is empty, the buffering `register` is installed, the registry is empty and `ready` is false |
| `Plugins.Decorate` | src/frontend/plugins/plugins.js:42 | an existing `mixins` value is kept unchanged; a missing one becomes the empty list; the component is otherwise the same |
| `Plugins.ForwardRegister` | src/frontend/plugins/plugins.js:41-45 | for an object component the written type maps to the decorated component; for any other value the call throws and the registry is unchanged; no key is removed; every other key keeps its component |
| `Plugins.Pull` | src/frontend/plugins/plugins.js:9-11 | `pull` finishes exactly when the buffer is empty; otherwise it throws on the first buffered entry |
| `Plugins.IndicesBounds` | src/frontend/plugins/plugins.js:52-53 | the index set `Indices(lo, hi)`, which dispatch adds to the outstanding scripts, holds exactly the numbers from `lo` to `hi - 1`, and has `hi - lo` elements |
| `Plugins.StepPreservesValid` | src/frontend/plugins/plugins.js:39-77 | every event keeps the invariant: the counter equals the number of unsettled dispatched scripts, and `ready` holds exactly after a failed fetch or once at least one script was dispatched and all have settled |
| `Plugins.RunPreservesValid` | src/frontend/plugins/plugins.js:39-77 | the invariant holds after every admissible sequence of events |
| `PluginProperties.PreInitRegisterAppends` | src/frontend/plugins/plugins.js:17-19 | before `init`, `register` appends exactly `(type, component)` to the end of the buffer and changes nothing else |
| `PluginProperties.PostInitRegisterWrites` | src/frontend/plugins/plugins.js:41-45 | after `init`, `register` maps the type to the decorated component, or throws for a non-object and writes nothing; it keeps every other key and leaves the buffer and `ready` unchanged |
| `PluginProperties.RegisterTwiceKeepsSecond` | src/frontend/plugins/plugins.js:33-35 | registering one type twice after `init` leaves the second component, unless the second call throws, which leaves the first |
| `PluginProperties.DecorateKeepsMixins` | src/frontend/plugins/plugins.js:42 | decoration keeps an existing mixin list, supplies only a missing one, and is idempotent |
| `PluginProperties.RegisterAllLastWins` | src/frontend/plugins/plugins.js:33-35 | after a sequence of forwarded registrations, a type holds the component of its last registration that did not throw |
| `PluginProperties.RegisterAllUntouched` | src/frontend/plugins/plugins.js:33-35 | a type that no successful registration names keeps its entry, or stays absent |
| `PluginProperties.RegisterAllKeys` | src/frontend/plugins/plugins.js:33-35 | the registry's keys afterwards are the old keys plus every type registered with an object; nothing is removed |
| `PluginProperties.BufferKeepsOrder` | src/frontend/plugins/plugins.js:15-21 | registrations before `init` extend the buffer in call order; the registry stays empty and `ready` false |
| `PluginProperties.ForwardingRun` | src/frontend/plugins/plugins.js:41-46 | after `init`, under any events, the buffer is frozen and the registry is the old registry with every later registration forwarded in order |
| `PluginProperties.BufferNeverShrinks` | src/frontend/plugins/plugins.js:7-18 | no sequence of events removes anything from the buffer, so it is never emptied |
| `PluginProperties.PullOutcomes` | src/frontend/plugins/plugins.js:39-51 | `init` always installs the forwarding bridge and keeps the buffer; with an empty buffer it goes on to the request, or skips it when `isPlugin()` holds; with a non-empty buffer `pull` throws on the first entry and `init` stops |
| `PluginProperties.EarlyRegistrationIsLost` | src/frontend/plugins/plugins.js:8-11 | with any registration buffered, `init` stops at `pull`; under any later events the buffer is kept, the registry holds only the later registrations, forwarded in order, and `ready` never becomes true |
| `PluginProperties.ReadyStaysTrueStep` | src/frontend/plugins/plugins.js:29-32 | no event sets `ready` back to false |
| `PluginProperties.ReadyStaysTrue` | src/frontend/plugins/plugins.js:26-77 | once `ready` is true it stays true under every admissible sequence of events |
| `PluginProperties.ResolveOutcomes` | src/frontend/plugins/plugins.js:51-72 | a `plugins` value without `map` sets `ready` with no script dispatched; an absent or empty list dispatches nothing and leaves `ready` false; N URLs are dispatched in order with the counter at N and `ready` false |
| `PluginProperties.RejectOutcome` | src/frontend/plugins/plugins.js:73-77 | a rejected manifest request sets `ready` with no script dispatched |
| `PluginProperties.CountDown` | src/frontend/plugins/plugins.js:52-68 | after dispatch, each load or error callback takes exactly one off the counter; there are never more callbacks than outstanding scripts; `ready` holds exactly when all of at least one script have settled |
| `PluginProperties.ReadyExactlyAfterLastScript` | src/frontend/plugins/plugins.js:55-68 | for N >= 1 URLs, in any order and for any mix of loads and errors, the counter is N minus the callbacks so far, and `ready` becomes true exactly at the N-th callback, not before |
| `PluginProperties.EmptyListNeverReady` | src/frontend/plugins/plugins.js:52 | after an absent or empty `plugins` list, no sequence of events sets `ready` |
| `PluginProperties.NoFetchNeverReady` | src/frontend/plugins/plugins.js:51 | when `isPlugin()` holds, or `init` stopped at `pull`, no script is ever dispatched and `ready` stays false |
| `PluginProperties.TwoPluginScenario` | src/frontend/plugins/plugins.js:51-77 | two URLs, the first loading and the second failing, end with `ready`, counter 0 and an untouched registry |
| `PluginCoordinator.Coordinator.constructor` | src/frontend/plugins/plugins.js:6-28 | the object starts in the initial state and satisfies the invariant |
| `PluginCoordinator.Coordinator.SetReady` | src/frontend/plugins/plugins.js:30-32 | `ready` takes the given value and nothing else changes |
| `PluginCoordinator.Coordinator.RegisterDocument` | src/frontend/plugins/plugins.js:33-35 | `documents[type]` becomes the component and nothing else changes |
| `PluginCoordinator.Coordinator.Register` | src/frontend/plugins/plugins.js:17-45 | whichever `register` is installed, the new state is that of `Step` for the registration, and the invariant is kept; it reports a throw exactly for a non-object after `init` |
| `PluginCoordinator.Coordinator.Init` | src/frontend/plugins/plugins.js:39-51 | returns what `pull` did; the new state is that of `Step` for `init` |
| `PluginCoordinator.Coordinator.ManifestResolved` | src/frontend/plugins/plugins.js:51-77 | the new state is that of `Step` for the response, including the path through the `catch` handler |
| `PluginCoordinator.Coordinator.Dispatch` | src/frontend/plugins/plugins.js:52-72 | the counter grows by the number of URLs, the scripts are appended in list order, and `ready` is unchanged: the guard after each increment never fires |
| `PluginCoordinator.Coordinator.ManifestRejected` | src/frontend/plugins/plugins.js:73-77 | `ready` is set and the request is over |
| `PluginCoordinator.Coordinator.DecCounter` | src/frontend/plugins/plugins.js:55 | the counter drops by one, the script is no longer outstanding, and `ready` is set if the counter reaches zero |
| `PluginCoordinator.Coordinator.ScriptLoaded` | src/frontend/plugins/plugins.js:59-63 | the load callback has the effect `Step` gives a settled script |
| `PluginCoordinator.Coordinator.ScriptFailed` | src/frontend/plugins/plugins.js:64-68 | the error callback has exactly the same effect as the load callback |

## Left out

- `Vue.component(...)` (line 43) is a call into the UI library, treated as a
  sink; the model does not record it.
- `document.createElement`, setting `src` and `document.head.appendChild`
  (lines 57-58, 69) are DOM insertion; the model only appends the URL to the
  dispatched scripts.
- The `console.info` and `console.error` diagnostics (lines 61, 66, 75) are
  logging only.
- The internals of `requests.request` and `env.isPlugin()` are external
  helpers. The request's outcome is an event, and `isPlugin()` is a boolean
  argument. Resolving the base URL with `new URL('/', window.location)` is
  browser location handling and is not modelled.
- Vuex's `context.commit` and the `namespaced` store wiring are not modelled;
  the mutations are direct field updates.
- Asynchrony and timing are not modelled, only the order of callbacks. A
  script that never settles simply never produces its callback. There is no
  timeout, as in the source.
- Components are values, not shared objects. The source writes `mixins` into
  the caller's object; here only the registered copy is decorated. This
  matters only for copies held elsewhere, such as in the buffer, which is
  never replayed successfully.
- Document types are strings. The source uses `type` as an object key at
  line 34, which turns a non-string type into a string, so that, for example,
  `1` and `"1"` name the same entry. The model does not show this.
- Which error a non-object component raises is not modelled, only that the
  forwarding `register` throws.
- A second call of `init` is not modelled: `init` is dispatched once, so
  `Init` requires the initial phase.
- `plugins` entries that are not strings, and arrays with a replaced `map`,
  are not modelled. An exception thrown by `appendChild` part-way through the
  list is not modelled either.
- `Coordinator.Dispatch`: requires a non-negative counter. That is part of the
  invariant its only caller holds, not a demand of the source.
