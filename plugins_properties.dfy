/**
 * Properties of the plugin coordinator over single events and over event
 * sequences: the registration bridge (buffer order, overwrite, decoration,
 * pull) and the completion tracker (counter accounting, monotone `ready`, the
 * outcomes of the manifest fetch).
 */
module PluginProperties {
  import opened Plugins

  // ---------------------------------------------------------------- bridge

  /** Before `init`, `register` appends exactly its pair to the buffer and
      touches nothing else. */
  lemma PreInitRegisterAppends(s: State, t: string, c: Component)
    requires s.bridge == Buffering
    ensures Step(s, Register(t, c)).buffer == s.buffer + [Registration(t, c)]
    ensures Step(s, Register(t, c)) == s.(buffer := s.buffer + [Registration(t, c)])
  {
  }

  /** After `init`, `register` writes the decorated component under its type,
      keeps every other key, and leaves the buffer and `ready` alone; for a
      component that is not an object it throws and writes nothing. */
  lemma PostInitRegisterWrites(s: State, t: string, c: Component)
    requires s.bridge == Forwarding
    ensures var r := Step(s, Register(t, c)).registry;
      && (c.Object? ==> t in r && r[t] == Decorate(c))
      && (c.NotAnObject? ==> r == s.registry)
      && (forall k :: k != t ==> (k in r <==> k in s.registry))
      && (forall k :: k != t && k in s.registry ==> r[k] == s.registry[k])
    ensures Step(s, Register(t, c)).buffer == s.buffer
    ensures Step(s, Register(t, c)).ready == s.ready
  {
  }

  /** Registering one type twice after `init` leaves the second component
      (unless the second call throws, which leaves the first). */
  lemma RegisterTwiceKeepsSecond(s: State, t: string, c1: Component, c2: Component)
    requires s.bridge == Forwarding
    ensures Admissible(s, [Register(t, c1), Register(t, c2)])
    ensures c2.Object? ==>
      Run(s, [Register(t, c1), Register(t, c2)]).registry == s.registry[t := Decorate(c2)]
    ensures c2.NotAnObject? ==>
      Run(s, [Register(t, c1), Register(t, c2)]).registry == ForwardRegister(s.registry, Registration(t, c1))
  {
    var s1 := Step(s, Register(t, c1));
    var s2 := Step(s1, Register(t, c2));
    assert Run(s2, []) == s2;
    assert Run(s1, [Register(t, c2)]) == s2;
    assert [Register(t, c1), Register(t, c2)][1..] == [Register(t, c2)];
  }

  /** Decoration keeps an existing mixin list, supplies only a missing one,
      and is idempotent. */
  lemma DecorateKeepsMixins(c: Component)
    requires c.Object?
    ensures c.mixins.Some? ==> Decorate(c).mixins == c.mixins
    ensures c.mixins.None? ==> Decorate(c).mixins == Some([])
    ensures Decorate(Decorate(c)) == Decorate(c)
  {
  }

  /** A registration of an object whose type no later call writes again is
      the one the registry holds after forwarding the whole sequence. */
  lemma {:induction false} RegisterAllLastWins(m: map<string, Component>, regs: seq<Registration>, i: nat)
    requires i < |regs| && regs[i].component.Object?
    requires forall j :: i < j < |regs| && regs[j].docType == regs[i].docType ==> ForwardThrows(regs[j].component)
    ensures regs[i].docType in RegisterAll(m, regs)
    ensures RegisterAll(m, regs)[regs[i].docType] == Decorate(regs[i].component)
    decreases |regs|
  {
    var m1 := ForwardRegister(m, regs[0]);
    if i == 0 {
      RegisterAllUntouched(m1, regs[1..], regs[0].docType);
    } else {
      RegisterAllLastWins(m1, regs[1..], i - 1);
    }
  }

  /** A type that no call of `regs` writes keeps its entry, or its absence. */
  lemma {:induction false} RegisterAllUntouched(m: map<string, Component>, regs: seq<Registration>, t: string)
    requires forall j :: 0 <= j < |regs| && regs[j].docType == t ==> ForwardThrows(regs[j].component)
    ensures t in RegisterAll(m, regs) <==> t in m
    ensures t in m ==> RegisterAll(m, regs)[t] == m[t]
    decreases |regs|
  {
    if regs != [] {
      RegisterAllUntouched(ForwardRegister(m, regs[0]), regs[1..], t);
    }
  }

  /** The document types `regs` writes: those registered with an object. */
  function Types(regs: seq<Registration>): set<string>
  {
    set j | 0 <= j < |regs| && regs[j].component.Object? :: regs[j].docType
  }

  /** Forwarding never removes a key: the keys afterwards are the old keys
      plus the registered types. */
  lemma {:induction false} RegisterAllKeys(m: map<string, Component>, regs: seq<Registration>)
    ensures RegisterAll(m, regs).Keys == m.Keys + Types(regs)
    decreases |regs|
  {
    if regs != [] {
      RegisterAllKeys(ForwardRegister(m, regs[0]), regs[1..]);
      var head := if regs[0].component.Object? then {regs[0].docType} else {};
      assert Types(regs) == head + Types(regs[1..]) by {
        forall k | k in Types(regs) ensures k in head + Types(regs[1..]) {
          var j :| 0 <= j < |regs| && regs[j].component.Object? && regs[j].docType == k;
          if j > 0 { assert regs[1..][j - 1].docType == k && regs[1..][j - 1].component.Object?; }
        }
        forall k | k in Types(regs[1..]) ensures k in Types(regs) {
          var j :| 0 <= j < |regs[1..]| && regs[1..][j].component.Object? && regs[1..][j].docType == k;
          assert regs[j + 1].docType == k && regs[j + 1].component.Object?;
        }
      }
    }
  }

  /** Before `init`, a sequence of registrations only extends the buffer, in
      call order; the registry stays empty and `ready` false. */
  lemma {:induction false} BufferKeepsOrder(s: State, es: seq<Event>)
    requires Valid(s) && s.bridge == Buffering
    requires forall j :: 0 <= j < |es| ==> es[j].Register?
    ensures Admissible(s, es)
    ensures Run(s, es).buffer == s.buffer + Registrations(es)
    ensures Run(s, es).registry == map[] && !Run(s, es).ready && Run(s, es).phase == Uninit
    decreases |es|
  {
    if es != [] {
      var r := Registration(es[0].docType, es[0].component);
      var s1 := Step(s, es[0]);
      assert s1 == s.(buffer := s.buffer + [r]);
      StepPreservesValid(s, es[0]);
      BufferKeepsOrder(s1, es[1..]);
      assert Registrations(es) == [r] + Registrations(es[1..]);
      assert s1.buffer + Registrations(es[1..]) == s.buffer + Registrations(es);
    }
  }

  /** After `init`, whatever else happens, the buffer is frozen and the
      registry is the old one with every later registration forwarded in order. */
  lemma {:induction false} ForwardingRun(s: State, es: seq<Event>)
    requires s.bridge == Forwarding && Admissible(s, es)
    ensures Run(s, es).buffer == s.buffer
    ensures Run(s, es).registry == RegisterAll(s.registry, Registrations(es))
    decreases |es|
  {
    if es != [] {
      ForwardingRun(Step(s, es[0]), es[1..]);
      if es[0].Register? {
        var r := Registration(es[0].docType, es[0].component);
        assert Registrations(es) == [r] + Registrations(es[1..]);
        assert ([r] + Registrations(es[1..]))[1..] == Registrations(es[1..]);
      } else {
        assert Registrations(es) == Registrations(es[1..]);
      }
    }
  }

  /** The buffer only grows, so it is never emptied: not by `pull`, not by
      anything else. */
  lemma {:induction false} BufferNeverShrinks(s: State, es: seq<Event>)
    requires Admissible(s, es)
    ensures s.buffer <= Run(s, es).buffer
    decreases |es|
  {
    if es != [] {
      BufferNeverShrinks(Step(s, es[0]), es[1..]);
    }
  }

  /** `pull` on an empty buffer does nothing; on a non-empty one it stops at
      the first entry with a TypeError, so `init` ends there: the forwarding
      bridge is installed, the buffer is kept, no counter is set up and no
      manifest is requested. */
  lemma PullOutcomes(s: State, isPlugin: bool)
    requires Valid(s) && s.phase == Uninit
    ensures s.buffer == [] ==> Pull(s.buffer) == Drained
    ensures s.buffer != [] ==> Pull(s.buffer) == NotAFunction(s.buffer[0])
    ensures Step(s, Init(isPlugin)).bridge == Forwarding
    ensures Step(s, Init(isPlugin)).buffer == s.buffer
    ensures Step(s, Init(isPlugin)).registry == s.registry
    ensures s.buffer != [] ==> Step(s, Init(isPlugin)).phase == InitThrew
    ensures s.buffer == [] ==> Step(s, Init(isPlugin)).phase == if isPlugin then NoFetch else Fetching
  {
  }

  /** Any registration before `init` is enough: `init` stops at `pull`, the
      buffered registrations never reach the registry, which holds only what
      is registered later, and `ready` never becomes true. */
  lemma EarlyRegistrationIsLost(s: State, isPlugin: bool, es: seq<Event>)
    requires Valid(s) && s.phase == Uninit && s.buffer != []
    requires Admissible(Step(s, Init(isPlugin)), es)
    ensures Step(s, Init(isPlugin)).phase == InitThrew
    ensures Run(Step(s, Init(isPlugin)), es).buffer == s.buffer
    ensures Run(Step(s, Init(isPlugin)), es).registry == RegisterAll(map[], Registrations(es))
    ensures !Run(Step(s, Init(isPlugin)), es).ready
  {
    var t := Step(s, Init(isPlugin));
    StepPreservesValid(s, Init(isPlugin));
    NoFetchNeverReady(t, es);
    ForwardingRun(t, es);
  }

  // --------------------------------------------------------------- tracker

  /** `ready` is only ever set to true: every event keeps it true. */
  lemma ReadyStaysTrueStep(s: State, e: Event)
    requires Enabled(s, e) && s.ready
    ensures Step(s, e).ready
  {
  }

  lemma {:induction false} ReadyStaysTrue(s: State, es: seq<Event>)
    requires Admissible(s, es) && s.ready
    ensures Run(s, es).ready
    decreases |es|
  {
    if es != [] {
      ReadyStaysTrueStep(s, es[0]);
      ReadyStaysTrue(Step(s, es[0]), es[1..]);
    }
  }

  /** Outcomes of the `then` handler. A NotAList value makes it throw into the
      `catch` handler: `ready` with no script dispatched. An absent or empty
      list dispatches nothing and leaves `ready` false. A list of N URLs
      dispatches them in order and leaves the counter at N; the guard after
      each increment never sets `ready`. */
  lemma ResolveOutcomes(s: State, p: PluginsField)
    requires Valid(s) && s.phase == Fetching
    ensures var r := Step(s, ManifestResolved(p));
      && (p.NotAList? ==> r.ready && r.phase == FetchFailed && r.scripts == [] && r.counter == 0)
      && (p.Absent? ==> !r.ready && r.phase == Dispatched && r.scripts == [] && r.counter == 0)
      && (p.Urls? ==>
            !r.ready && r.phase == Dispatched && r.scripts == p.urls
            && r.counter == |p.urls| && r.pending == Indices(0, |p.urls|))
  {
  }

  /** A rejected manifest request: `ready`, no script. */
  lemma RejectOutcome(s: State)
    requires Valid(s) && s.phase == Fetching
    ensures Step(s, ManifestRejected).ready
    ensures Step(s, ManifestRejected).scripts == [] && Step(s, ManifestRejected).counter == 0
  {
  }

  /** Counter accounting once scripts are dispatched: every callback, load or
      error, takes exactly one off the counter, there are never more
      callbacks than outstanding scripts, and `ready` holds exactly when
      every one of at least one script has settled. */
  lemma {:induction false} CountDown(s: State, es: seq<Event>)
    requires Valid(s) && s.phase == Dispatched && Admissible(s, es)
    ensures Settles(es) <= s.counter
    ensures Run(s, es).phase == Dispatched && Run(s, es).scripts == s.scripts
    ensures Run(s, es).counter == s.counter - Settles(es)
    ensures Run(s, es).ready <==> s.scripts != [] && Settles(es) == s.counter
    decreases |es|
  {
    if es != [] {
      StepPreservesValid(s, es[0]);
      CountDown(Step(s, es[0]), es[1..]);
    }
  }

  /** For a manifest of N >= 1 URLs, in any order and for any mix of loads
      and errors, `ready` becomes true exactly when the N-th callback fires,
      and not before. */
  lemma ReadyExactlyAfterLastScript(s: State, urls: seq<string>, es: seq<Event>)
    requires Valid(s) && s.phase == Fetching && |urls| >= 1
    requires Admissible(Step(s, ManifestResolved(Urls(urls))), es)
    ensures Settles(es) <= |urls|
    ensures Run(Step(s, ManifestResolved(Urls(urls))), es).counter == |urls| - Settles(es)
    ensures Run(Step(s, ManifestResolved(Urls(urls))), es).ready <==> Settles(es) == |urls|
  {
    var d := Step(s, ManifestResolved(Urls(urls)));
    ResolveOutcomes(s, Urls(urls));
    StepPreservesValid(s, ManifestResolved(Urls(urls)));
    CountDown(d, es);
  }

  /** An empty or absent list: nothing can ever set `ready`. */
  lemma EmptyListNeverReady(s: State, p: PluginsField, es: seq<Event>)
    requires Valid(s) && s.phase == Fetching && (p.Absent? || p == Urls([]))
    requires Admissible(Step(s, ManifestResolved(p)), es)
    ensures !Run(Step(s, ManifestResolved(p)), es).ready
  {
    ResolveOutcomes(s, p);
    StepPreservesValid(s, ManifestResolved(p));
    CountDown(Step(s, ManifestResolved(p)), es);
  }

  /** When `init` stops at `pull`, or `isPlugin()` holds, no manifest is
      requested: only registrations can follow, no script is dispatched and
      `ready` stays false. */
  lemma {:induction false} NoFetchNeverReady(s: State, es: seq<Event>)
    requires Valid(s) && (s.phase == InitThrew || s.phase == NoFetch) && Admissible(s, es)
    ensures Run(s, es).phase == s.phase && Run(s, es).scripts == [] && !Run(s, es).ready
    decreases |es|
  {
    if es != [] {
      StepPreservesValid(s, es[0]);
      NoFetchNeverReady(Step(s, es[0]), es[1..]);
    }
  }

  /** Running `e` and then `es` is running `[e] + es`. */
  lemma RunCons(s: State, e: Event, es: seq<Event>)
    requires Enabled(s, e) && Admissible(Step(s, e), es)
    ensures Admissible(s, [e] + es) && Run(s, [e] + es) == Run(Step(s, e), es)
  {
    assert ([e] + es)[1..] == es;
  }

  /** Two URLs, the first loads and the second fails: `ready`, counter 0,
      registry untouched. */
  lemma TwoPluginScenario()
    ensures var es := [Init(false), ManifestResolved(Urls(["https://a/p1.js", "https://a/p2.js"])),
                       ScriptSettled(0, true), ScriptSettled(1, false)];
      Admissible(Initial(), es)
      && Run(Initial(), es).ready && Run(Initial(), es).counter == 0
      && Run(Initial(), es).registry == map[]
  {
    var urls := ["https://a/p1.js", "https://a/p2.js"];
    var e0, e1, e2, e3 := Init(false), ManifestResolved(Urls(urls)), ScriptSettled(0, true), ScriptSettled(1, false);
    var s0 := Initial();
    var s1 := Step(s0, e0);
    assert s1.phase == Fetching && s1.scripts == [] && s1.pending == {};
    var s2 := Step(s1, e1);
    IndicesBounds(0, 2);
    assert s2.pending == Indices(0, 2);
    assert 0 in s2.pending && 1 in s2.pending && s2.phase == Dispatched;
    var s3 := Step(s2, e2);
    assert 1 in s3.pending && s3.phase == Dispatched;
    var s4 := Step(s3, e3);
    assert s4.ready && s4.counter == 0 && s4.registry == map[];
    assert Run(s4, []) == s4;
    RunCons(s3, e3, []);
    RunCons(s2, e2, [e3]);
    RunCons(s1, e1, [e2, e3]);
    RunCons(s0, e0, [e1, e2, e3]);
    assert [e0, e1, e2, e3] == [e0] + ([e1] + ([e2] + ([e3] + [])));
  }
}
