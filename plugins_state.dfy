/**
 * The plugin-loading coordinator of the DocHub front end, as a state machine.
 *
 * The coordinator consists of
 *  - the registration bridge: a buffer of registrations made before `init`
 *    and a global `register` slot that `init` replaces by a forwarding version;
 *  - the store module: the `ready` flag and the `documents` registry;
 *  - the completion tracker: the counter local to `init`, the scripts it
 *    dispatched and the load/error callbacks of those scripts.
 *
 * Each asynchronous callback of the source is an `Event` here; events run one
 * at a time, as the JavaScript event loop runs them. `Step` gives the effect of
 * one event, `Run` the effect of a sequence of events.
 */
module Plugins {

  datatype Option<T> = None | Some(value: T)

  /** What a plugin passes as its renderer component. An `Object` is an opaque
      handle plus the one property the bridge reads and writes; `mixins == None`
      stands for any falsy value of `component.mixins` (absent, undefined,
      null, ...). `NotAnObject` is `undefined`, `null` or a primitive, on which
      reading or writing `mixins` throws a TypeError in module code. */
  datatype Component = Object(handle: nat, mixins: Option<seq<nat>>) | NotAnObject

  /** One buffered call `register(type, component)`. */
  datatype Registration = Registration(docType: string, component: Component)

  /** Which function currently sits in the global `DocHub.documents.register` slot. */
  datatype Bridge = Buffering | Forwarding

  /** The value of `response.data.plugins` in the manifest:
      `Absent` for a missing or falsy value (the `|| []` default applies),
      `Urls` for a list of script URLs,
      `NotAList` for a truthy value without a `map` method (a string, an object). */
  datatype PluginsField = Absent | Urls(urls: seq<string>) | NotAList

  /** Where `init` and its asynchronous continuation stand. */
  datatype Phase =
    | Uninit       // the module is loaded, `init` has not run
    | InitThrew    // `pull` threw inside `init`; nothing after it ran
    | NoFetch      // `isPlugin()` was true: the manifest is never requested
    | Fetching     // the manifest request is outstanding
    | Dispatched   // the `then` handler ran and dispatched the listed scripts
    | FetchFailed  // the `catch` handler ran

  /** What `pull` does: finishes, or throws a TypeError on the entry it was handling. */
  datatype PullOutcome = Drained | NotAFunction(entry: Registration)

  /** The observable state of the coordinator, plus the bookkeeping the proofs
      need (`phase`, and `pending`: the indices of dispatched scripts whose
      load/error callback has not yet fired). */
  datatype State = State(
    bridge: Bridge,
    buffer: seq<Registration>,
    registry: map<string, Component>,
    ready: bool,
    phase: Phase,
    counter: int,
    scripts: seq<string>,
    pending: set<nat>)

  /** The events: calls of the global `register`, the one call of `init`, the
      settlement of the manifest request and the load/error callback of one
      script (`loaded` tells which of the two fired). */
  datatype Event =
    | Register(docType: string, component: Component)
    | Init(isPlugin: bool)
    | ManifestResolved(plugins: PluginsField)
    | ManifestRejected
    | ScriptSettled(index: nat, loaded: bool)

  /** The state right after the module is evaluated. */
  function Initial(): (s: State)
    ensures s.bridge == Buffering && s.buffer == [] && s.registry == map[] && !s.ready
  {
    State(Buffering, [], map[], false, Uninit, 0, [], {})
  }

  /** The script indices `lo .. hi - 1`. */
  function Indices(lo: nat, hi: nat): set<nat>
    decreases hi
  {
    if hi <= lo then {} else Indices(lo, hi - 1) + {hi - 1}
  }

  lemma {:induction false} IndicesBounds(lo: nat, hi: nat)
    ensures forall i :: i in Indices(lo, hi) <==> lo <= i < hi
    ensures |Indices(lo, hi)| == if lo <= hi then hi - lo else 0
    decreases hi
  {
    if lo < hi {
      IndicesBounds(lo, hi - 1);
    }
  }

  // ---------------------------------------------------------------- bridge

  /** `component.mixins = component.mixins || []`: an existing value is kept,
      a falsy one becomes the empty list. */
  function Decorate(c: Component): (d: Component)
    requires c.Object?
    ensures d.Object? && d.handle == c.handle && d.mixins.Some?
    ensures c.mixins.Some? ==> d == c
    ensures c.mixins.None? ==> d.mixins == Some([])
  {
    if c.mixins.Some? then c else c.(mixins := Some([]))
  }

  /** The forwarding `register`, as it affects the registry: it decorates the
      component and commits `registerDocument`, which writes `documents[type]`.
      For a component that is not an object the decoration throws, before the
      commit, so the registry is not written. The call into the UI library
      that makes the component renderable is not modelled. */
  function ForwardRegister(registry: map<string, Component>, r: Registration): (m: map<string, Component>)
    ensures r.component.Object? ==> r.docType in m && m[r.docType] == Decorate(r.component)
    ensures r.component.NotAnObject? ==> m == registry
    ensures forall k :: k in m <==> k in registry || (k == r.docType && r.component.Object?)
    ensures forall k :: k in registry && k != r.docType ==> m[k] == registry[k]
  {
    if r.component.NotAnObject? then registry else registry[r.docType := Decorate(r.component)]
  }

  /** Whether the forwarding `register` throws for `c`. */
  predicate ForwardThrows(c: Component)
  {
    c.NotAnObject?
  }

  /** The registry after forwarding `regs`, in order, through the forwarding `register`. */
  function RegisterAll(registry: map<string, Component>, regs: seq<Registration>): map<string, Component>
    decreases |regs|
  {
    if regs == [] then registry else RegisterAll(ForwardRegister(registry, regs[0]), regs[1..])
  }

  /** `plugins.pull()`: for each buffered entry it calls `DocHub.registerDocuments`,
      a property the global object never has, so the first call throws. */
  function Pull(buffer: seq<Registration>): (r: PullOutcome)
    ensures r == Drained <==> buffer == []
    ensures r.NotAFunction? ==> r.entry == buffer[0]
  {
    if buffer == [] then Drained else NotAFunction(buffer[0])
  }

  /** A call of whichever `register` is installed. */
  function RegisterStep(s: State, r: Registration): State
  {
    match s.bridge
    case Buffering => s.(buffer := s.buffer + [r])
    case Forwarding => s.(registry := ForwardRegister(s.registry, r))
  }

  // --------------------------------------------------------------- tracker

  /** `init`: installs the forwarding `register`, pulls the buffer, and (if
      `pull` returned) sets the counter to 0 and requests the manifest unless
      `isPlugin()` holds. */
  function InitStep(s: State, isPlugin: bool): State
  {
    var installed := s.(bridge := Forwarding);
    if Pull(s.buffer).NotAFunction? then installed.(phase := InitThrew)
    else if isPlugin then installed.(counter := 0, phase := NoFetch)
    else installed.(counter := 0, phase := Fetching)
  }

  /** `(response?.data?.plugins || []).map(...)`: the list the handler maps
      over, or `None` when `map` is not a function and the handler throws. */
  function ManifestList(p: PluginsField): Option<seq<string>>
  {
    match p
    case Absent => Some([])
    case Urls(urls) => Some(urls)
    case NotAList => None
  }

  /** The `then` handler: each listed URL increments the counter and dispatches
      one script; an exception in the handler reaches the `catch` handler,
      which sets `ready`. */
  function ResolveStep(s: State, p: PluginsField): State
  {
    match ManifestList(p)
    case None => s.(ready := true, phase := FetchFailed)
    case Some(urls) =>
      s.(phase := Dispatched,
         counter := s.counter + |urls|,
         scripts := s.scripts + urls,
         pending := s.pending + Indices(|s.scripts|, |s.scripts| + |urls|))
  }

  /** The `catch` handler after a rejected manifest request. */
  function RejectStep(s: State): State
  {
    s.(ready := true, phase := FetchFailed)
  }

  /** `decCounter`, called from both `onload` and `onerror`: decrement, and set
      `ready` when the counter reaches 0. */
  function SettleStep(s: State, i: nat): State
  {
    var c := s.counter - 1;
    s.(counter := c, pending := s.pending - {i}, ready := if c == 0 then true else s.ready)
  }

  // --------------------------------------------------------------- machine

  /** Which events can occur in a state: `init` runs once; the manifest
      callbacks exist only while the request is outstanding; a script's
      callback fires at most once, and only for a dispatched script. */
  predicate Enabled(s: State, e: Event)
  {
    match e
    case Register(_, _) => true
    case Init(_) => s.phase == Uninit
    case ManifestResolved(_) => s.phase == Fetching
    case ManifestRejected => s.phase == Fetching
    case ScriptSettled(i, _) => s.phase == Dispatched && i in s.pending
  }

  function Step(s: State, e: Event): State
    requires Enabled(s, e)
  {
    match e
    case Register(t, c) => RegisterStep(s, Registration(t, c))
    case Init(isPlugin) => InitStep(s, isPlugin)
    case ManifestResolved(p) => ResolveStep(s, p)
    case ManifestRejected => RejectStep(s)
    case ScriptSettled(i, _) => SettleStep(s, i)
  }

  /** Every event of `es` is enabled when its turn comes. */
  predicate Admissible(s: State, es: seq<Event>)
    decreases |es|
  {
    es == [] || (Enabled(s, es[0]) && Admissible(Step(s, es[0]), es[1..]))
  }

  function Run(s: State, es: seq<Event>): State
    requires Admissible(s, es)
    decreases |es|
  {
    if es == [] then s else Run(Step(s, es[0]), es[1..])
  }

  /** The registrations among `es`, in order. */
  function Registrations(es: seq<Event>): seq<Registration>
    decreases |es|
  {
    if es == [] then []
    else (if es[0].Register? then [Registration(es[0].docType, es[0].component)] else [])
         + Registrations(es[1..])
  }

  /** The number of script callbacks among `es`. */
  function Settles(es: seq<Event>): nat
    decreases |es|
  {
    if es == [] then 0 else (if es[0].ScriptSettled? then 1 else 0) + Settles(es[1..])
  }

  /** The invariant of the coordinator. Before `init` the forwarding bridge is
      absent and nothing is registered; after it the buffer is empty unless
      `pull` threw. The counter is the number of dispatched scripts whose
      callback has not fired. `ready` holds exactly after a failed fetch or
      once every one of at least one dispatched script has settled. */
  predicate Valid(s: State)
  {
    && (s.bridge == Buffering <==> s.phase == Uninit)
    && (s.phase == Uninit ==> s.registry == map[])
    && (s.phase != Uninit ==> (s.phase == InitThrew <==> s.buffer != []))
    && s.counter == |s.pending|
    && (forall i :: i in s.pending ==> i < |s.scripts|)
    && (s.phase != Dispatched ==> s.scripts == [])
    && (s.ready <==> (s.phase == FetchFailed || (s.phase == Dispatched && s.scripts != [] && s.counter == 0)))
  }

  lemma InitialValid()
    ensures Valid(Initial())
  {
  }

  lemma StepPreservesValid(s: State, e: Event)
    requires Valid(s) && Enabled(s, e)
    ensures Valid(Step(s, e))
  {
    match e
    case ManifestResolved(p) =>
      assert s.pending == {};
      if p.Urls? {
        IndicesBounds(|s.scripts|, |s.scripts| + |p.urls|);
      }
    case ScriptSettled(i, _) =>
      assert |s.pending - {i}| == |s.pending| - 1;
    case _ =>
  }

  lemma {:induction false} RunPreservesValid(s: State, es: seq<Event>)
    requires Valid(s) && Admissible(s, es)
    ensures Valid(Run(s, es))
    decreases |es|
  {
    if es != [] {
      StepPreservesValid(s, es[0]);
      RunPreservesValid(Step(s, es[0]), es[1..]);
    }
  }
}
