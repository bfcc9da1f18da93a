/**
 * The coordinator as the source holds it: mutable state changed in place by
 * the global `register`, the `init` action, its asynchronous callbacks and the
 * two store mutations. Each event method is proved to have exactly the effect
 * that `Plugins.Step` gives it, and to keep `Plugins.Valid`.
 */
module PluginCoordinator {
  import opened Plugins

  class Coordinator {
    var buffer: seq<Registration>           // `plugins.documents`
    var bridge: Bridge                      // the function in `DocHub.documents.register`
    var registry: map<string, Component>    // `state.documents`
    var ready: bool                         // `state.ready`
    var counter: int                        // the `counter` local to `init`
    var scripts: seq<string>                // the script elements appended, by `src`
    ghost var phase: Phase
    ghost var pending: set<nat>             // scripts whose callback has not fired

    ghost function Snapshot(): State
      reads this
    {
      State(bridge, buffer, registry, ready, phase, counter, scripts, pending)
    }

    ghost predicate Valid()
      reads this
    {
      Plugins.Valid(Snapshot())
    }

    /** Evaluating the module: an empty buffer, the buffering `register`, and
        the store's initial state. */
    constructor ()
      ensures Valid() && Snapshot() == Initial()
    {
      buffer := [];
      bridge := Buffering;
      registry := map[];
      ready := false;
      counter := 0;
      scripts := [];
      phase := Uninit;
      pending := {};
      InitialValid();
    }

    /** The `setReady` mutation. */
    method SetReady(value: bool)
      modifies this
      ensures ready == value
      ensures Snapshot() == old(Snapshot()).(ready := value)
    {
      ready := value;
    }

    /** The `registerDocument` mutation: `documents[type] = component`. */
    method RegisterDocument(docType: string, component: Component)
      modifies this
      ensures registry == old(registry)[docType := component]
      ensures Snapshot() == old(Snapshot()).(registry := old(registry)[docType := component])
    {
      registry := registry[docType := component];
    }

    /** A call of the global `DocHub.documents.register`, whichever version the
        slot holds. It reports whether the call threw: the forwarding version
        throws on `component.mixins` when the component is not an object. The
        forwarding version also hands the component to the UI library under
        `plugin-doc-<type>`; that call is not modelled. */
    method Register(docType: string, component: Component) returns (threw: bool)
      requires Valid()
      modifies this
      ensures Valid()
      ensures threw <==> old(bridge) == Forwarding && ForwardThrows(component)
      ensures Snapshot() == Step(old(Snapshot()), Event.Register(docType, component))
    {
      ghost var before := Snapshot();
      threw := false;
      match bridge {
        case Buffering =>
          buffer := buffer + [Registration(docType, component)];
        case Forwarding =>
          if component.NotAnObject? {
            threw := true;
          } else {
            var decorated := Decorate(component);
            RegisterDocument(docType, decorated);
          }
      }
      StepPreservesValid(before, Event.Register(docType, component));
    }

    /** The `init` action, up to the moment the manifest request is issued.
        It returns what `pull` did: a TypeError ends `init` and reaches its
        caller. */
    method Init(isPlugin: bool) returns (outcome: PullOutcome)
      requires Valid() && phase == Uninit
      modifies this
      ensures Valid()
      ensures outcome == Pull(old(buffer))
      ensures Snapshot() == Step(old(Snapshot()), Event.Init(isPlugin))
    {
      ghost var before := Snapshot();
      bridge := Forwarding;
      outcome := Pull(buffer);
      if outcome.NotAFunction? {
        phase := InitThrew;
      } else {
        counter := 0;
        phase := if isPlugin then NoFetch else Fetching;
      }
      StepPreservesValid(before, Event.Init(isPlugin));
    }

    /** The `then` handler of the manifest request. */
    method ManifestResolved(plugins: PluginsField)
      requires Valid() && phase == Fetching
      modifies this
      ensures Valid()
      ensures Snapshot() == Step(old(Snapshot()), Event.ManifestResolved(plugins))
    {
      ghost var before := Snapshot();
      match ManifestList(plugins) {
        case None =>
          // `map` is not a function: the handler throws and `catch` runs
          SetReady(true);
          phase := FetchFailed;
        case Some(urls) =>
          phase := Dispatched;
          Dispatch(urls);
      }
      StepPreservesValid(before, Event.ManifestResolved(plugins));
    }

    /** The `map` over the listed URLs: for each, in order, increment the
        counter, dispatch a script, and test the guard `!counter`, which cannot
        hold right after an increment of a non-negative counter. */
    method Dispatch(urls: seq<string>)
      requires counter >= 0
      modifies this
      ensures counter == old(counter) + |urls|
      ensures scripts == old(scripts) + urls
      ensures pending == old(pending) + Indices(|old(scripts)|, |old(scripts)| + |urls|)
      ensures buffer == old(buffer) && bridge == old(bridge) && registry == old(registry)
      ensures ready == old(ready) && phase == old(phase)
    {
      ghost var lo := |scripts|;
      var j := 0;
      while j < |urls|
        invariant 0 <= j <= |urls|
        invariant counter == old(counter) + j
        invariant scripts == old(scripts) + urls[..j]
        invariant pending == old(pending) + Indices(lo, lo + j)
        invariant buffer == old(buffer) && bridge == old(bridge) && registry == old(registry)
        invariant ready == old(ready) && phase == old(phase)
      {
        counter := counter + 1;
        pending := pending + {|scripts|};
        scripts := scripts + [urls[j]];
        if counter == 0 {
          assert false;
        }
        assert urls[..j + 1] == urls[..j] + [urls[j]];
        j := j + 1;
      }
      assert urls[..j] == urls;
    }

    /** The `catch` handler after a rejected manifest request. */
    method ManifestRejected()
      requires Valid() && phase == Fetching
      modifies this
      ensures Valid()
      ensures Snapshot() == Step(old(Snapshot()), Event.ManifestRejected)
    {
      ghost var before := Snapshot();
      SetReady(true);
      phase := FetchFailed;
      StepPreservesValid(before, Event.ManifestRejected);
    }

    /** `decCounter`, shared by both script callbacks. */
    method DecCounter(index: nat)
      requires Valid() && phase == Dispatched && index in pending
      modifies this
      ensures Snapshot() == SettleStep(old(Snapshot()), index)
    {
      counter := counter - 1;
      pending := pending - {index};
      if counter == 0 {
        SetReady(true);
      }
    }

    /** `script.onload` of the index-th dispatched script. */
    method ScriptLoaded(index: nat)
      requires Valid() && phase == Dispatched && index in pending
      modifies this
      ensures Valid()
      ensures Snapshot() == Step(old(Snapshot()), Event.ScriptSettled(index, true))
    {
      ghost var before := Snapshot();
      DecCounter(index);
      StepPreservesValid(before, Event.ScriptSettled(index, true));
    }

    /** `script.onerror` of the index-th dispatched script. */
    method ScriptFailed(index: nat)
      requires Valid() && phase == Dispatched && index in pending
      modifies this
      ensures Valid()
      ensures Snapshot() == Step(old(Snapshot()), Event.ScriptSettled(index, false))
    {
      ghost var before := Snapshot();
      DecCounter(index);
      StepPreservesValid(before, Event.ScriptSettled(index, false));
    }
  }
}
