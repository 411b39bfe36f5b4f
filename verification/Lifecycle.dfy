/** Initialises the instances of an application and runs its lifecycle hooks. */
module Lifecycle {
  import opened Basics
  import opened InjectorGraph
  import opened InjectorState
  import opened InjectorResolution
  import opened InjectorTheorems
  import opened Injector
  import opened ModuleCompilation

  datatype Hook = ModuleInit | ApplicationBootstrap | BeforeShutdown | ModuleDestroy | ApplicationShutdown

  /** One call of a hook and the error it threw, if any. */
  datatype HookCall = HookCall(hook: Hook, instance: Value, error: Option<int>)

  /** Application code in the hooks. A hook cannot call back into the injector. */
  class Hooks {
    const has: (Hook, Value) -> bool
    const behaviour: (nat, Hook, Value) -> Option<int>
    var calls: seq<HookCall>

    constructor (has: (Hook, Value) -> bool, behaviour: (nat, Hook, Value) -> Option<int>)
      ensures this.has == has && this.behaviour == behaviour && calls == []
    {
      this.has, this.behaviour, calls := has, behaviour, [];
    }

    method Run(hook: Hook, v: Value) returns (error: Option<int>)
      requires has(hook, v)
      modifies this
      ensures calls == old(calls) + [HookCall(hook, v, error)]
    {
      error := behaviour(|calls|, hook, v);
      calls := calls + [HookCall(hook, v, error)];
    }
  }

  /** Which hooks were called on which instances. */
  function Invoked(calls: seq<HookCall>): seq<(Hook, Value)> {
    if calls == [] then [] else Invoked(calls[..|calls| - 1]) + [(calls[|calls| - 1].hook, calls[|calls| - 1].instance)]
  }

  function Thrown(calls: seq<HookCall>): seq<int> {
    if calls == [] then [] else
      Thrown(calls[..|calls| - 1]) + if calls[|calls| - 1].error.Some? then [calls[|calls| - 1].error.value] else []
  }

  /** The calls of a hook on those of the given instances that have it, in order. */
  function Selected(has: (Hook, Value) -> bool, hook: Hook, vs: seq<Value>): seq<(Hook, Value)> {
    if vs == [] then [] else
      Selected(has, hook, vs[..|vs| - 1]) + if has(hook, vs[|vs| - 1]) then [(hook, vs[|vs| - 1])] else []
  }

  lemma {:induction false} SelectedOne(has: (Hook, Value) -> bool, hook: Hook, vs: seq<Value>, v: Value)
    ensures Selected(has, hook, vs + [v]) == Selected(has, hook, vs) + if has(hook, v) then [(hook, v)] else []
  {
    assert (vs + [v])[..|vs + [v]| - 1] == vs;
  }

  lemma {:induction false} InvokedJoin(a: seq<HookCall>, b: seq<HookCall>)
    ensures Invoked(a + b) == Invoked(a) + Invoked(b) && Thrown(a + b) == Thrown(a) + Thrown(b)
  {
    if b == [] {
      assert a + b == a;
    } else {
      assert (a + b)[..|a + b| - 1] == a + b[..|b| - 1];
      InvokedJoin(a, b[..|b| - 1]);
    }
  }

  lemma {:induction false} InvokedOne(calls: seq<HookCall>, x: HookCall)
    ensures Invoked(calls + [x]) == Invoked(calls) + [(x.hook, x.instance)]
    ensures Thrown(calls + [x]) == Thrown(calls) + if x.error.Some? then [x.error.value] else []
  {
    assert (calls + [x])[..|calls + [x]| - 1] == calls;
  }

  /** A hook runs at most once on each of the given instances, and on every one that has it. */
  lemma {:induction false} SelectedOnce(has: (Hook, Value) -> bool, hook: Hook, vs: seq<Value>)
    ensures Distinct(vs) ==> Distinct(Selected(has, hook, vs))
    ensures forall x :: x in Selected(has, hook, vs) <==> x.0 == hook && x.1 in vs && has(hook, x.1)
  {
    if vs != [] {
      var front := vs[..|vs| - 1];
      assert vs == front + [vs[|vs| - 1]];
      SelectedOnce(has, hook, front);
    }
  }

  /** The calls are in the order of the instances: each belongs to an instance of its own. */
  lemma {:induction false} SelectedInOrder(has: (Hook, Value) -> bool, hook: Hook, vs: seq<Value>)
    returns (from: seq<nat>)
    ensures |from| == |Selected(has, hook, vs)|
    ensures forall i, j | 0 <= i < j < |from| :: from[i] < from[j]
    ensures forall i | 0 <= i < |from| ::
              from[i] < |vs| && has(hook, vs[from[i]]) && Selected(has, hook, vs)[i] == (hook, vs[from[i]])
    ensures forall j | 0 <= j < |vs| && has(hook, vs[j]) :: j in from
  {
    from := [];
    if vs != [] {
      var n := |vs| - 1;
      var before := SelectedInOrder(has, hook, vs[..n]);
      from := before + if has(hook, vs[n]) then [n] else [];
      forall j | 0 <= j < |vs| && has(hook, vs[j])
        ensures j in from
      {
        assert j < n ==> vs[..n][j] == vs[j];
      }
    }
  }

  /** Every call is reported with its hook and instance. */
  lemma {:induction false} CallsAreReported(calls: seq<HookCall>)
    ensures |Invoked(calls)| == |calls|
    ensures forall i | 0 <= i < |calls| :: Invoked(calls)[i] == (calls[i].hook, calls[i].instance)
  {
    if calls != [] {
      var front := calls[..|calls| - 1];
      CallsAreReported(front);
      assert forall i | 0 <= i < |front| :: front[i] == calls[i];
    }
  }

  /** And every error that a call threw is collected, in order. */
  lemma {:induction false} ErrorsAreCollected(calls: seq<HookCall>) returns (from: seq<nat>)
    ensures |from| == |Thrown(calls)| && forall i, j | 0 <= i < j < |from| :: from[i] < from[j]
    ensures forall i | 0 <= i < |from| :: from[i] < |calls| && calls[from[i]].error == Some(Thrown(calls)[i])
    ensures forall j | 0 <= j < |calls| && calls[j].error.Some? :: j in from
  {
    from := [];
    if calls != [] {
      var n := |calls| - 1;
      var before := ErrorsAreCollected(calls[..n]);
      from := before + if calls[n].error.Some? then [n] else [];
      assert Thrown(calls) == Thrown(calls[..n]) + if calls[n].error.Some? then [calls[n].error.value] else [];
      hide Thrown;
      forall i | 0 <= i < |before|
        ensures from[i] < n && calls[from[i]].error == Some(Thrown(calls)[i])
      {
        assert calls[..n][before[i]].error == Some(Thrown(calls[..n])[i]);
      }
      forall j | 0 <= j < |calls| && calls[j].error.Some?
        ensures j in from
      {
        if j < n {
          assert calls[..n][j].error.Some?;
        }
      }
    }
  }

  // ------------------------------------------------------------- initialisation

  /** The tokens that initialisation resolves in a container, in order: the module's own tokens
      that are not request-scoped, then the module class. */
  ghost function WantedTokens(g: Graph, c: Id, ts: seq<Token>): seq<(Id, Token)>
    requires Dag(g) && c in g
  {
    if ts == [] then [] else
      WantedTokens(g, c, ts[..|ts| - 1]) + if FirstMode(g, c, ts[|ts| - 1]) == Some(Request) then []
          else [(c, ts[|ts| - 1])]
  }

  /** What initialisation asks for, in order: for each module the wanted tokens and then its class, of the
      container that is the home of the class. */
  ghost function Wanted(g: Graph, home: map<nat, Id>, modules: seq<CompiledModule>): seq<(Id, Token)>
    requires Dag(g) && forall c | c in home :: home[c] in g
  {
    if modules == [] then [] else
      Wanted(g, home, modules[..|modules| - 1]) + WantedOf(g, home, modules[|modules| - 1])
  }

  ghost function WantedOf(g: Graph, home: map<nat, Id>, m: CompiledModule): seq<(Id, Token)>
    requires Dag(g) && forall c | c in home :: home[c] in g
  {
    if m.cls in home then WantedTokens(g, home[m.cls], m.ownTokens) + [(home[m.cls], ClassToken(m.cls))] else []
  }

  function Requests(steps: seq<Step>): seq<(Id, Token)> {
    if steps == [] then [] else Requests(steps[..|steps| - 1]) + [(steps[|steps| - 1].c, steps[|steps| - 1].token)]
  }

  /** The instances that resolution returned, in order. */
  function Answers(steps: seq<Step>): seq<Value> {
    if steps == [] then [] else
      Answers(steps[..|steps| - 1]) + if steps[|steps| - 1].r.Ok? then [steps[|steps| - 1].r.value] else []
  }

  lemma {:induction false} OneStep(steps: seq<Step>, s: Step)
    ensures Requests(steps + [s]) == Requests(steps) + [(s.c, s.token)]
    ensures Answers(steps + [s]) == Answers(steps) + if s.r.Ok? then [s.r.value] else []
  {
    assert (steps + [s])[..|steps + [s]| - 1] == steps;
  }

  lemma RunOne(g: Graph, worlds: seq<World>, steps: seq<Step>, w: World, s: Step)
    requires Run(g, worlds, steps) && Live(g, w) && Stepped(g, worlds[|worlds| - 1], w, s)
    ensures Run(g, worlds + [w], steps + [s])
  {
    hide Live, Stepped;
  }

  lemma Calm(g: Graph, w: World, c: Id, token: Token)
    requires Live(g, w) && c in g && forall d | d in w.cells :: w.cells[d].resolving == []
    ensures Dag(g) && c in w.cells && Idle(g, w, g[c].height) && Asked(g[c].providers, w.cells[c], token)
            && token !in w.cells[c].resolving
  {
  }

  /** `NoContainer` is the failure to find a container for a module class. */
  datatype InitFailure = Unresolved(error: Error) | HookFailed(thrown: int) | NoContainer(cls: nat)

  class Initializer {
    const hooks: Hooks
    var initialized: set<Value>
    ghost const before: seq<HookCall>
    ghost var met: seq<Value>

    constructor (hooks: Hooks)
      ensures this.hooks == hooks && before == hooks.calls && met == [] && Valid()
    {
      this.hooks, initialized, before, met := hooks, {}, hooks.calls, [];
      new;
      assert Invoked(before) + [] == Invoked(before);
    }

    /** Every instance met so far was initialised when it was met first, whether its hook threw or not. */
    ghost predicate Valid()
      reads this, hooks
    {
      && initialized == Elements(met)
      && Invoked(hooks.calls) == Invoked(before) + Selected(hooks.has, ModuleInit, Unique(met))
    }

    method CallOnModuleInit(v: Value) returns (error: Option<int>)
      requires Valid()
      modifies this, hooks
      ensures Valid() && met == old(met) + [v]
      ensures (hooks.calls == old(hooks.calls) && error.None?)
              || hooks.calls == old(hooks.calls) + [HookCall(ModuleInit, v, error)]
    {
      hide Selected, Invoked;
      error := None;
      UniqueIsSet(met);
      assert (met + [v])[..|met + [v]| - 1] == met;
      if v !in initialized {
        initialized := initialized + {v};
        SelectedOne(hooks.has, ModuleInit, Unique(met), v);
        if hooks.has(ModuleInit, v) {
          ghost var calls := hooks.calls;
          error := hooks.Run(ModuleInit, v);
          InvokedOne(calls, HookCall(ModuleInit, v, error));
          ConcatAssociative(Invoked(before), Selected(hooks.has, ModuleInit, Unique(met)), [(ModuleInit, v)]);
        }
      }
      met := met + [v];
    }
  }

  /** Between two resolutions nothing is in progress. */
  ghost predicate Calmed(w: World) {
    forall d | d in w.cells :: w.cells[d].resolving == []
  }

  ghost predicate Progress(g: Graph, worlds: seq<World>, steps: seq<Step>) {
    |worlds| > 0 && Run(g, worlds, steps) && Calmed(worlds[|worlds| - 1])
  }

  lemma SomeWorld(g: Graph, worlds: seq<World>, steps: seq<Step>)
    requires Progress(g, worlds, steps)
    ensures |worlds| > 0
  {
  }

  /** One resolution more. */
  lemma Progressed(g: Graph, worlds: seq<World>, steps: seq<Step>, w: World, s: Step)
    requires Progress(g, worlds, steps) && s.c in g && Live(g, w) && s.request.None? && s.cached.None? && s.room.None?
    requires Advance(worlds[|worlds| - 1], w) && Explained(g, worlds[|worlds| - 1], w, false, s.r)
    requires Live(g, worlds[|worlds| - 1]) && Resolved(g, worlds[|worlds| - 1], w, s.c, s.token, s.context,
                                                       s.request, s.r, s.k)
    requires Dag(g) && Reached(g, worlds[|worlds| - 1], w, s.c, s.token, s.cached, s.r, s.k)
    requires Traced(g, worlds[|worlds| - 1], w, Scope(g, s.c, s.token), s.cached, s.request)
    requires Founded(g, Scope(g, s.c, s.token), Some(s.token), s.r)
    ensures Progress(g, worlds + [w], steps + [s])
  {
    hide Founded, Live, Resolved, Keeps, Explained, Reached, Traced, Scope, Dag;
    KeepsKeys(worlds[|worlds| - 1], w);
    RunOne(g, worlds, steps, w, s);
  }

  lemma AtRest(g: Graph, worlds: seq<World>, steps: seq<Step>, c: Id, token: Token)
    requires Progress(g, worlds, steps) && c in g
    ensures |worlds| > 0
    ensures var w := worlds[|worlds| - 1];
            Live(g, w) && Dag(g) && c in w.cells && Idle(g, w, g[c].height)
              && Asked(g[c].providers, w.cells[c], token) && token !in w.cells[c].resolving
  {
    hide Stepped;
    Calm(g, worlds[|worlds| - 1], c, token);
  }

  /** Resolves a token and initialises the instance. */
  method ResolveAndInit(container: Container, token: Token, init: Initializer, host: Host,
                        ghost all: set<Container>, ghost g: Graph, ghost worlds: seq<World>, ghost steps: seq<Step>)
    returns (error: Option<InitFailure>, ghost worlds': seq<World>, ghost steps': seq<Step>)
    requires container in all && Container.Wired(all, g) && Progress(g, worlds, steps)
    requires Container.Shows(all, host, worlds[|worlds| - 1]) && init.Valid() && init.met == Answers(steps)
    modifies all`singletons, all`resolving, all`instances, all`builds, all`contexts, host, init, init.hooks
    ensures Progress(g, worlds', steps') && worlds <= worlds' && Container.Shows(all, host, worlds'[|worlds'| - 1])
    ensures init.Valid() && init.met == Answers(steps')
    ensures |steps'| == |steps| + 1 && steps < steps' && Requests(steps') == Requests(steps) + [(container.id, token)]
    ensures error.Some? ==> Blames(error.value, steps'[|steps|], init.hooks.calls)
    ensures error.None? ==> steps'[|steps|].r.Ok?
    ensures steps'[|steps|].token == token
  {
    hide Container.Wired, Container.Shows, Progress, Resolved, Live, Advance, Explained, Idle, Asked, Answers,
      Requests, Initializer.Valid, Reached, Traced, Scope;
    container.WiredHere(all, g);
    AtRest(g, worlds, steps, container.id, token);
    ghost var w := worlds[|worlds| - 1];
    var r;
    ghost var k, w';
    r, k, w' := container.Resolve(token, None, host, null, all, g, w);
    ghost var s := Step(container.id, token, None, None, None, None, r, k);
    OneStep(steps, s);
    Progressed(g, worlds, steps, w', s);
    worlds', steps' := worlds + [w'], steps + [s];
    if r.Err? {
      return Some(Unresolved(r.error)), worlds', steps';
    }
    var thrown := init.CallOnModuleInit(r.value);
    error := if thrown.Some? then Some(HookFailed(thrown.value)) else None;
  }

  /** Initialisation failed because a module class was not resolved, or because its hook threw. */
  ghost predicate Blames(f: InitFailure, s: Step, calls: seq<HookCall>) {
    match f
    case Unresolved(error) => s.r == Err(error)
    case NoContainer(_) => false
    case HookFailed(thrown) => s.r.Ok? && calls != [] && calls[|calls| - 1] == HookCall(ModuleInit, s.r.value,
          Some(thrown))
  }

  lemma {:induction false} WantedToken(g: Graph, c: Id, ts: seq<Token>, i: nat)
    requires Dag(g) && c in g && i < |ts|
    ensures WantedTokens(g, c, ts[..i + 1])
         == WantedTokens(g, c, ts[..i]) + if FirstMode(g, c, ts[i]) == Some(Request) then [] else [(c, ts[i])]
  {
    assert ts[..i + 1][..i] == ts[..i];
  }

  /** The instances of one module. What goes wrong with its providers is ignored, what goes wrong
      with the module class itself is not. */
  method InitModule(m: CompiledModule, container: Container, init: Initializer, host: Host,
                    ghost all: set<Container>, ghost g: Graph, ghost worlds: seq<World>, ghost steps: seq<Step>)
    returns (error: Option<InitFailure>, ghost worlds': seq<World>, ghost steps': seq<Step>)
    requires container in all && Container.Wired(all, g) && Progress(g, worlds, steps)
    requires Container.Shows(all, host, worlds[|worlds| - 1]) && init.Valid() && init.met == Answers(steps)
    modifies all`singletons, all`resolving, all`instances, all`builds, all`contexts, host, init, init.hooks
    ensures Progress(g, worlds', steps') && worlds <= worlds' && Container.Shows(all, host, worlds'[|worlds'| - 1])
    ensures init.Valid() && init.met == Answers(steps') && steps < steps'
    ensures Dag(g) && container.id in g
    ensures Requests(steps') == Requests(steps)
              + (WantedTokens(g, container.id, m.ownTokens) + [(container.id, ClassToken(m.cls))])
    ensures steps'[|steps'| - 1].token == ClassToken(m.cls)
    ensures error.Some? ==> Blames(error.value, steps'[|steps'| - 1], init.hooks.calls) && !error.value.NoContainer?
    ensures error.None? ==> steps'[|steps'| - 1].r.Ok?
  {
    hide Container.Wired, Container.Shows, Progress, Dag, Answers, Requests, Initializer.Valid, WantedTokens, FirstMode;
    container.WiredHere(all, g);
    AtRest(g, worlds, steps, container.id, ClassToken(m.cls));
    worlds', steps' := worlds, steps;
    NothingWanted(g, container.id, m.ownTokens);
    ghost var wanted: seq<(Id, Token)> := [];
    assert Requests(steps) + wanted == Requests(steps);
    for i := 0 to |m.ownTokens|
      invariant Progress(g, worlds', steps') && worlds <= worlds' && |worlds'| > 0
                && Container.Shows(all, host, worlds'[|worlds'| - 1])
      invariant init.Valid() && init.met == Answers(steps') && steps <= steps'
      invariant wanted == WantedTokens(g, container.id, m.ownTokens[..i])
                && Requests(steps') == Requests(steps) + wanted
    {
      var token := m.ownTokens[i];
      WantedToken(g, container.id, m.ownTokens, i);
      var scoped := container.IsRequestScoped(token, all, g);
      if scoped {
        continue;
      }
      var ignored;
      ignored, worlds', steps' := ResolveAndInit(container, token, init, host, all, g, worlds', steps');
      ConcatAssociative(Requests(steps), wanted, [(container.id, token)]);
      wanted := wanted + [(container.id, token)];
    }
    assert m.ownTokens[..|m.ownTokens|] == m.ownTokens;
    error, worlds', steps' := ResolveAndInit(container, ClassToken(m.cls), init, host, all, g, worlds', steps');
    ConcatAssociative(Requests(steps), wanted, [(container.id, ClassToken(m.cls))]);
  }

  lemma {:induction false} NothingWanted(g: Graph, c: Id, ts: seq<Token>)
    requires Dag(g) && c in g
    ensures WantedTokens(g, c, ts[..0]) == []
  {
  }

  lemma {:induction false} WantedModule(g: Graph, home: map<nat, Id>, modules: seq<CompiledModule>, i: nat)
    requires Dag(g) && i < |modules| && forall c | c in home :: home[c] in g
    ensures Wanted(g, home, modules[..i + 1]) == Wanted(g, home, modules[..i]) + WantedOf(g, home, modules[i])
  {
    assert modules[..i + 1][..i] == modules[..i];
  }

  lemma {:induction false} WantedPrefix(g: Graph, home: map<nat, Id>, modules: seq<CompiledModule>, i: nat)
    requires Dag(g) && i <= |modules| && forall c | c in home :: home[c] in g
    ensures Wanted(g, home, modules[..i]) <= Wanted(g, home, modules)
    decreases |modules| - i
  {
    hide WantedOf;
    if i < |modules| {
      WantedModule(g, home, modules, i);
      WantedPrefix(g, home, modules, i + 1);
    } else {
      assert modules[..i] == modules;
    }
  }

  /** How initialisation ended: it asked for all that is wanted and every module class was resolved; or it stopped at
      the first module without a container; or at the first whose class was not resolved, or whose class hook threw. */
  ghost predicate Initialised(g: Graph, home: map<nat, Id>, modules: seq<CompiledModule>, steps: seq<Step>,
                              error: Option<InitFailure>, calls: seq<HookCall>)
    requires Dag(g) && forall c | c in home :: home[c] in g
  {
    match error
    case None => Requests(steps) == Wanted(g, home, modules) && PassedAll(g, home, modules, steps, |modules|)
    case Some(NoContainer(cls)) => exists i :: 0 <= i < |modules| && StoppedAt(g, home, modules, steps, cls, i)
    case Some(f) => exists i :: 0 <= i < |modules| && FailedAt(g, home, modules, steps, f, calls, i)
  }

  /** The module has a container, and what was asked for last, its class, was resolved. */
  ghost predicate Passed(g: Graph, home: map<nat, Id>, modules: seq<CompiledModule>, steps: seq<Step>, i: nat)
    requires Dag(g) && (forall c | c in home :: home[c] in g) && i < |modules|
  {
    var n := |Wanted(g, home, modules[..i + 1])|;
    modules[i].cls in home && 0 < n <= |steps| && steps[n - 1].r.Ok?
  }

  ghost predicate PassedAll(g: Graph, home: map<nat, Id>, modules: seq<CompiledModule>, steps: seq<Step>, n: nat)
    requires Dag(g) && (forall c | c in home :: home[c] in g) && n <= |modules|
  {
    forall i | 0 <= i < n :: Passed(g, home, modules, steps, i)
  }

  ghost predicate StoppedAt(g: Graph, home: map<nat, Id>, modules: seq<CompiledModule>, steps: seq<Step>, cls: nat,
                            i: nat)
    requires Dag(g) && (forall c | c in home :: home[c] in g) && i < |modules|
  {
    && modules[i].cls == cls && cls !in home && PassedAll(g, home, modules, steps, i)
    && Requests(steps) == Wanted(g, home, modules[..i])
  }

  ghost predicate FailedAt(g: Graph, home: map<nat, Id>, modules: seq<CompiledModule>, steps: seq<Step>, f: InitFailure,
                           calls: seq<HookCall>, i: nat)
    requires Dag(g) && (forall c | c in home :: home[c] in g) && i < |modules|
  {
    && modules[i].cls in home && PassedAll(g, home, modules, steps, i)
    && Requests(steps) == Wanted(g, home, modules[..i + 1]) && steps != []
    && steps[|steps| - 1].c == home[modules[i].cls] && steps[|steps| - 1].token == ClassToken(modules[i].cls)
    && Blames(f, steps[|steps| - 1], calls)
  }

  /** Steps taken later change nothing about the modules passed before. */
  lemma PassedStay(g: Graph, home: map<nat, Id>, modules: seq<CompiledModule>, before: seq<Step>, after: seq<Step>,
                   n: nat)
    requires Dag(g) && (forall c | c in home :: home[c] in g) && n <= |modules|
    requires PassedAll(g, home, modules, before, n) && before <= after
    ensures PassedAll(g, home, modules, after, n)
  {
    hide Wanted, Dag;
    forall i | 0 <= i < n
      ensures Passed(g, home, modules, after, i)
    {
      assert Passed(g, home, modules, before, i);
    }
  }

  lemma {:induction false} PassedOne(g: Graph, home: map<nat, Id>, modules: seq<CompiledModule>, steps: seq<Step>,
                                     i: nat)
    requires Dag(g) && (forall c | c in home :: home[c] in g) && i < |modules| && modules[i].cls in home
    requires PassedAll(g, home, modules, steps, i) && steps != [] && steps[|steps| - 1].r.Ok?
    requires |Wanted(g, home, modules[..i + 1])| == |steps|
    ensures PassedAll(g, home, modules, steps, i + 1)
  {
    hide Dag, Wanted;
    assert Passed(g, home, modules, steps, i);
  }

  /** However it ended, what was asked for is the beginning of what is wanted. */
  lemma {:induction false} InitialisedAsks(g: Graph, home: map<nat, Id>, modules: seq<CompiledModule>, steps: seq<Step>,
                                           error: Option<InitFailure>, calls: seq<HookCall>)
    requires Dag(g) && (forall c | c in home :: home[c] in g) && Initialised(g, home, modules, steps, error, calls)
    ensures Requests(steps) <= Wanted(g, home, modules)
  {
    hide Dag, Wanted, Requests, Blames, PassedAll;
    if error.Some? {
      if error.value.NoContainer? {
        var i :| 0 <= i < |modules| && StoppedAt(g, home, modules, steps, error.value.cls, i);
        WantedPrefix(g, home, modules, i);
      } else {
        var i :| 0 <= i < |modules| && FailedAt(g, home, modules, steps, error.value, calls, i);
        WantedPrefix(g, home, modules, i + 1);
      }
    }
  }

  lemma {:induction false} RequestsLength(steps: seq<Step>)
    ensures |Requests(steps)| == |steps|
    ensures steps != [] ==>
              Requests(steps)[|steps| - 1] == (steps[|steps| - 1].c, steps[|steps| - 1].token)
  {
    if steps != [] {
      RequestsLength(steps[..|steps| - 1]);
    }
  }

  /** The last request of a module is for its class. */
  lemma {:induction false} ClassIsLast(g: Graph, home: map<nat, Id>, modules: seq<CompiledModule>, steps: seq<Step>,
                                       i: nat)
    requires Dag(g) && (forall c | c in home :: home[c] in g) && i < |modules| && modules[i].cls in home
    requires Requests(steps) == Wanted(g, home, modules[..i + 1])
    ensures steps != [] && |Wanted(g, home, modules[..i + 1])| == |steps|
    ensures steps[|steps| - 1].c == home[modules[i].cls] && steps[|steps| - 1].token == ClassToken(modules[i].cls)
  {
    hide Dag, WantedTokens, Requests, Wanted;
    RequestsLength(steps);
    WantedModule(g, home, modules, i);
    var own := WantedOf(g, home, modules[i]);
    assert own[|own| - 1] == (home[modules[i].cls], ClassToken(modules[i].cls));
  }

  /** Initialises the modules in order. Every instance that any of the resolutions returned had its
      init hook called once, when it was met first. */
  method InitAll(modules: seq<CompiledModule>, containers: map<nat, Container>, init: Initializer, host: Host,
                 ghost all: set<Container>, ghost g: Graph, ghost home: map<nat, Id>, ghost w: World)
    returns (error: Option<InitFailure>, ghost worlds: seq<World>, ghost steps: seq<Step>)
    requires Container.Wired(all, g) && Container.Shows(all, host, w) && Live(g, w) && Calmed(w)
    requires containers.Keys == home.Keys && forall c | c in containers ::
               containers[c] in all && containers[c].id == home[c]
    requires forall c | c in home :: home[c] in g
    requires init.Valid() && init.met == []
    modifies all`singletons, all`resolving, all`instances, all`builds, all`contexts, host, init, init.hooks
    ensures Progress(g, worlds, steps) && worlds[0] == w && Container.Shows(all, host, worlds[|worlds| - 1])
    ensures Invoked(init.hooks.calls)
              == Invoked(init.before) + Selected(init.hooks.has, ModuleInit, Unique(Answers(steps)))
    ensures Dag(g) && Initialised(g, home, modules, steps, error, init.hooks.calls)
  {
    hide Container.Wired, Container.Shows, Dag, Requests, Wanted, Selected, Invoked, WantedTokens, Live, Calmed,
      Progress, Answers, Initializer.Valid, Blames, Passed;
    error, worlds, steps := None, [w], [];
    LiveIsDag(g, w);
    Begins(g, home, w, modules);
    for i := 0 to |modules|
      invariant |worlds| > 0 && worlds[0] == w && Progress(g, worlds, steps)
                && Container.Shows(all, host, worlds[|worlds| - 1])
      invariant init.Valid() && init.met == Answers(steps)
      invariant Requests(steps) == Wanted(g, home, modules[..i]) && error.None?
                && PassedAll(g, home, modules, steps, i)
    {
      var m := modules[i];
      WantedModule(g, home, modules, i);
      if m.cls !in containers {
        error := Some(NoContainer(m.cls));
        assert StoppedAt(g, home, modules, steps, m.cls, i);
        HooksCalled(init);
        return;
      }
      ghost var before := steps;
      error, worlds, steps := InitModule(m, containers[m.cls], init, host, all, g, worlds, steps);
      PassedStay(g, home, modules, before, steps, i);
      ClassIsLast(g, home, modules, steps, i);
      if error.Some? {
        assert FailedAt(g, home, modules, steps, error.value, init.hooks.calls, i);
        HooksCalled(init);
        return;
      }
      PassedOne(g, home, modules, steps, i);
    }
    assert modules[..|modules|] == modules;
    HooksCalled(init);
  }

  lemma HooksCalled(init: Initializer)
    requires init.Valid()
    ensures Invoked(init.hooks.calls) == Invoked(init.before) + Selected(init.hooks.has, ModuleInit, Unique(init.met))
  {
  }

  lemma LiveIsDag(g: Graph, w: World)
    requires Live(g, w)
    ensures Dag(g)
  {
  }

  lemma {:induction false} Begins(g: Graph, home: map<nat, Id>, w: World, modules: seq<CompiledModule>)
    requires Live(g, w) && Calmed(w) && Dag(g) && forall c | c in home :: home[c] in g
    ensures Progress(g, [w], []) && Answers([]) == [] && Requests([]) == [] == Wanted(g, home, modules[..0])
  {
    hide Live, Dag;
  }

  // --------------------------------------------------------------- application hooks

  /** Calls the hook on every given instance that has it, whatever the others throw. */
  method RunHooks(hook: Hook, vs: seq<Value>, hooks: Hooks) returns (errors: seq<int>, ghost made: seq<HookCall>)
    modifies hooks
    ensures hooks.calls == old(hooks.calls) + made && errors == Thrown(made)
    ensures Invoked(made) == Selected(hooks.has, hook, vs)
  {
    hide Selected, Invoked, Thrown;
    errors, made := [], [];
    NoCalls(hooks.has, hook, vs);
    for i := 0 to |vs|
      invariant hooks.calls == old(hooks.calls) + made && errors == Thrown(made)
      invariant Invoked(made) == Selected(hooks.has, hook, vs[..i])
    {
      assert vs[..i + 1] == vs[..i] + [vs[i]];
      SelectedOne(hooks.has, hook, vs[..i], vs[i]);
      if hooks.has(hook, vs[i]) {
        var error := hooks.Run(hook, vs[i]);
        InvokedOne(made, HookCall(hook, vs[i], error));
        made := made + [HookCall(hook, vs[i], error)];
        if error.Some? {
          errors := errors + [error.value];
        }
      }
    }
    assert vs[..|vs|] == vs;
  }

  lemma {:induction false} NoCalls(has: (Hook, Value) -> bool, hook: Hook, vs: seq<Value>)
    ensures Invoked([]) == [] == Selected(has, hook, vs[..0]) && Thrown([]) == []
  {
  }

  ghost function Cleared(g: Graph, c: Id): Graph
    requires c in g
  {
    g[c := g[c].(providers := map[])]
  }

  ghost function ClearedWorld(w: World, c: Id): World
    requires c in w.cells
  {
    With(w, c, Cell(map[], w.cells[c].resolving, [], [], map[]))
  }

  class InjectorContext {
    const container: Container
    var isBootstrapped: bool
    var isShuttingDown: bool

    constructor (container: Container)
      ensures this.container == container && !isBootstrapped && !isShuttingDown
    {
      this.container := container;
      isBootstrapped, isShuttingDown := false, false;
    }

    ghost predicate Valid(host: Host, all: set<Container>, g: Graph, w: World)
      reads all, host
    {
      container in all && Container.Wired(all, g) && Dag(g) && Container.Shows(all, host, w)
    }

    lemma ContainerFacts(host: Host, all: set<Container>, g: Graph, w: World)
      requires Valid(host, all, g, w)
      ensures container.id in g && container.providers == g[container.id].providers
    {
      hide Dag, Container.Shows;
    }

    /** The bootstrap hooks, in the order of the instances, once in the life of the context. */
    method OnApplicationBootstrap(hooks: Hooks, host: Host, ghost all: set<Container>, ghost g: Graph, ghost w: World)
      returns (errors: seq<int>, ghost made: seq<HookCall>)
      requires Valid(host, all, g, w)
      modifies `isBootstrapped, hooks
      ensures Valid(host, all, g, w) && container.id in g && isBootstrapped
      ensures hooks.calls == old(hooks.calls) + made && errors == Thrown(made)
      ensures Invoked(made) == if old(isBootstrapped) then []
              else Selected(hooks.has, ApplicationBootstrap, AllInstances(g, w, container.id))
    {
      hide Selected, Container.Wired, Container.Shows, AllInstances, Dag;
      container.WiredHere(all, g);
      errors, made := [], [];
      if isBootstrapped {
        return;
      }
      var instances := container.GetInstances(true, host, all, g, w);
      errors, made := RunHooks(ApplicationBootstrap, instances, hooks);
      isBootstrapped := true;
    }

    /** The hooks before shutdown, in reverse order, once in the life of the context. */
    method OnBeforeApplicationShutdown(hooks: Hooks, host: Host, ghost all: set<Container>, ghost g: Graph,
                                       ghost w: World)
      returns (errors: seq<int>, ghost made: seq<HookCall>)
      requires Valid(host, all, g, w)
      modifies `isShuttingDown, hooks
      ensures Valid(host, all, g, w) && container.id in g && isShuttingDown
      ensures hooks.calls == old(hooks.calls) + made && errors == Thrown(made)
      ensures Invoked(made) ==
                if old(isShuttingDown) then []
                    else Selected(hooks.has, BeforeShutdown, Reverse(AllInstances(g, w, container.id)))
    {
      hide Selected, Container.Wired, Container.Shows, AllInstances, Dag;
      container.WiredHere(all, g);
      errors, made := [], [];
      if isShuttingDown {
        return;
      }
      isShuttingDown := true;
      var instances := container.GetInstances(true, host, all, g, w);
      errors, made := RunHooks(BeforeShutdown, Reverse(instances), hooks);
    }

    /** The destroy hooks and then the shutdown hooks, both in reverse order; what some throw does not
        keep the others from running. Only the root container is cleared. */
    method OnApplicationShutdown(hooks: Hooks, host: Host, ghost all: set<Container>, ghost g: Graph, ghost w: World)
      returns (errors: seq<int>, ghost made: seq<HookCall>)
      requires Valid(host, all, g, w)
      modifies hooks, container`providers, container`singletons, container`instances, container`builds,
               container`contexts
      ensures container.id in g && container.id in w.cells
      ensures Valid(host, all, Cleared(g, container.id), ClearedWorld(w, container.id))
      ensures hooks.calls == old(hooks.calls) + made && errors == Thrown(made)
      ensures var vs := Reverse(AllInstances(g, w, container.id));
              Invoked(made) == Selected(hooks.has, ModuleDestroy, vs) + Selected(hooks.has, ApplicationShutdown, vs)
    {
      hide Selected, Invoked, Thrown, AllInstances, Dag, Reverse, Container.Wired, Container.Shows;
      container.WiredHere(all, g);
      var instances := container.GetInstances(true, host, all, g, w);
      var destroyed, shut;
      ghost var destroying, shutting;
      destroyed, destroying := RunHooks(ModuleDestroy, Reverse(instances), hooks);
      shut, shutting := RunHooks(ApplicationShutdown, Reverse(instances), hooks);
      errors, made := destroyed + shut, destroying + shutting;
      InvokedJoin(destroying, shutting);
      ConcatAssociative(old(hooks.calls), destroying, shutting);
      container.Clear(host, all, g, w);
      ClearedIsDag(g, container.id);
    }

    /** The full shutdown. When a hook before shutdown throws, nothing else runs; `whole` tells that none did. */
    method Close(hooks: Hooks, host: Host, ghost all: set<Container>, ghost g: Graph, ghost w: World)
      returns (errors: seq<int>, ghost made: seq<HookCall>, ghost whole: bool)
      requires Valid(host, all, g, w)
      modifies `isShuttingDown, hooks, container`providers, container`singletons, container`instances,
               container`builds, container`contexts
      ensures container.id in g && isShuttingDown && hooks.calls == old(hooks.calls) + made && errors == Thrown(made)
      ensures Closing(g, w, container.id, hooks.has, old(isShuttingDown), made, whole)
      ensures whole ==> container.id in w.cells && Valid(host, all, Cleared(g, container.id),
                                                         ClearedWorld(w, container.id))
      ensures !whole ==> Valid(host, all, g, w)
    {
      hide Selected, Invoked, Thrown, AllInstances, Dag, Reverse, Valid, Cleared, ClearedWorld;
      ghost var first, rest;
      errors, first := OnBeforeApplicationShutdown(hooks, host, all, g, w);
      if errors != [] {
        assert first == first + [];
        return errors, first, false;
      }
      errors, rest := OnApplicationShutdown(hooks, host, all, g, w);
      InvokedJoin(first, rest);
      ConcatAssociative(old(hooks.calls), first, rest);
      made, whole := first + rest, true;
    }
  }

  /** What a close calls: the hooks before shutdown unless they were called already, and unless one of
      them throws the destroy hooks and the shutdown hooks. */
  ghost predicate Closing(g: Graph, w: World, c: Id, has: (Hook, Value) -> bool, shutting: bool, made: seq<HookCall>,
                          whole: bool)
    requires Dag(g) && c in g
  {
    var vs := Reverse(AllInstances(g, w, c));
    exists first, rest ::
      && made == first + rest
      && Invoked(first) == (if shutting then [] else Selected(has, BeforeShutdown, vs))
      && (whole <==> Thrown(first) == [])
      && (!whole ==> rest == [])
      && (whole ==> Invoked(rest) == Selected(has, ModuleDestroy, vs) + Selected(has, ApplicationShutdown, vs))
  }

  /** A second close always gets past the hooks before shutdown. It calls the destroy and shutdown hooks
      of the instances of imported modules again, and those of the root module only when the first did not. */
  lemma {:induction false} TwoCloses(g: Graph, w: World, c: Id, has: (Hook, Value) -> bool, shutting: bool,
                                     one: seq<HookCall>, whole: bool, two: seq<HookCall>, again: bool)
    requires Dag(g) && c in g && c in w.cells && Closing(g, w, c, has, shutting, one, whole)
    requires Dag(if whole then Cleared(g, c) else g)
    requires Closing(if whole then Cleared(g, c) else g, if whole then ClearedWorld(w, c)
                       else w, c, has, true, two, again)
    ensures again
    ensures forall x :: x in Invoked(two) <==>
              (x.0 == ModuleDestroy || x.0 == ApplicationShutdown) && has(x.0, x.1) && Remains(g, w, c, whole, x.1)
    ensures whole ==> forall x | x in Invoked(two) :: x in Invoked(one)
  {
    hide Closing, AllInstances, Dag, Selected, Invoked, Thrown, Remains, Cleared, ClearedWorld;
    ClearedHas(g, w, c);
    ClosingCalls(g, w, c, has, shutting, one, whole);
    ClosingCalls(if whole then Cleared(g, c) else g, if whole then ClearedWorld(w, c) else w, c, has, true, two, again);
    WhatRemains(g, w, c);
  }

  lemma ClearedHas(g: Graph, w: World, c: Id)
    requires Dag(g) && c in g && c in w.cells
    ensures c in Cleared(g, c) && Dag(Cleared(g, c))
  {
    ClearedIsDag(g, c);
  }

  /** What is recorded in the modules, or only in the imported ones when the root module was cleared. */
  ghost predicate Remains(g: Graph, w: World, c: Id, cleared: bool, v: Value)
    requires Dag(g) && c in g
  {
    exists d :: (cleared ==> d != c) && Below(g, c, d) && v in OwnInstances(w, d)
  }

  lemma {:induction false} WhatRemains(g: Graph, w: World, c: Id)
    requires Dag(g) && c in g && c in w.cells
    ensures Dag(Cleared(g, c)) && c in Cleared(g, c)
    ensures forall v :: v in AllInstances(g, w, c) <==> Remains(g, w, c, false, v)
    ensures forall v :: v in AllInstances(Cleared(g, c), ClearedWorld(w, c), c) <==> Remains(g, w, c, true, v)
    ensures forall v :: Remains(g, w, c, true, v) ==> Remains(g, w, c, false, v)
  {
    hide AllInstances, Dag, Below, OwnInstances, Cleared, ClearedWorld;
    ClearedHas(g, w, c);
    EachInstanceOnce(g, w, c);
    AfterShutdown(g, w, c);
  }

  /** What a close calls, without the order. */
  lemma {:induction false} ClosingCalls(g: Graph, w: World, c: Id, has: (Hook, Value) -> bool, shutting: bool,
                                        made: seq<HookCall>, whole: bool)
    requires Dag(g) && c in g && Closing(g, w, c, has, shutting, made, whole)
    ensures shutting ==> whole
    ensures whole ==> forall x: (Hook, Value) | x.0 == ModuleDestroy || x.0 == ApplicationShutdown ::
                        x in Invoked(made) <==> has(x.0, x.1) && x.1 in AllInstances(g, w, c)
    ensures shutting ==> forall x | x in Invoked(made) :: x.0 == ModuleDestroy || x.0 == ApplicationShutdown
  {
    hide AllInstances, Dag, Selected, Reverse;
    var vs := Reverse(AllInstances(g, w, c));
    var first, rest :|
      && made == first + rest
      && Invoked(first) == (if shutting then [] else Selected(has, BeforeShutdown, vs))
      && (whole <==> Thrown(first) == [])
      && (!whole ==> rest == [])
      && (whole ==> Invoked(rest) == Selected(has, ModuleDestroy, vs) + Selected(has, ApplicationShutdown, vs));
    InvokedJoin(first, rest);
    ReverseKeeps(AllInstances(g, w, c));
    SelectedOnce(has, BeforeShutdown, vs);
    SelectedOnce(has, ModuleDestroy, vs);
    SelectedOnce(has, ApplicationShutdown, vs);
  }

  lemma ClearedIsDag(g: Graph, c: Id)
    requires Dag(g) && c in g
    ensures Dag(Cleared(g, c))
  {
  }

  /** After a shutdown the instances of imported modules are still there: another shutdown would call
      their hooks again. Those of the root module are gone. */
  lemma {:induction false} AfterShutdown(g: Graph, w: World, c: Id)
    requires Dag(g) && c in g && c in w.cells
    ensures Dag(Cleared(g, c)) && Distinct(AllInstances(Cleared(g, c), ClearedWorld(w, c), c))
    ensures forall v :: v in AllInstances(Cleared(g, c), ClearedWorld(w, c), c) <==>
              exists d :: d != c && Below(g, c, d) && v in OwnInstances(w, d)
  {
    hide Dag, AllInstances;
    ClearedIsDag(g, c);
    EachInstanceOnce(Cleared(g, c), ClearedWorld(w, c), c);
    forall d
      ensures Below(Cleared(g, c), c, d) <==> Below(g, c, d)
    {
      SameBelow(g, c, c, d);
    }
    assert forall d :: OwnInstances(ClearedWorld(w, c), d) == if d == c then [] else OwnInstances(w, d);
  }

  lemma {:induction false} SameBelow(g: Graph, root: Id, c: Id, d: Id)
    requires Dag(g) && root in g && Dag(Cleared(g, root)) && c in g
    ensures Below(Cleared(g, root), c, d) <==> Below(g, c, d)
    decreases g[c].height
  {
    forall i | 0 <= i < |g[c].children|
      ensures Below(Cleared(g, root), g[c].children[i], d) <==> Below(g, g[c].children[i], d)
    {
      SameBelow(g, root, g[c].children[i], d);
    }
  }

  /** Initialisation calls the init hook exactly once on every instance that was resolved and has it. */
  lemma {:induction false} InitHooksRunOnce(has: (Hook, Value) -> bool, steps: seq<Step>)
    ensures var calls := Selected(has, ModuleInit, Unique(Answers(steps)));
            && Distinct(calls)
            && forall x :: x in calls <==> x.0 == ModuleInit && has(ModuleInit, x.1) && x.1 in Answers(steps)
  {
    UniqueIsSet(Answers(steps));
    SelectedOnce(has, ModuleInit, Unique(Answers(steps)));
  }

  /** A pass over the application calls the hook exactly once on every instance recorded in a reachable
      container that has it. */
  lemma {:induction false} PassRunsOnce(g: Graph, w: World, c: Id, has: (Hook, Value) -> bool, hook: Hook,
                                        vs: seq<Value>)
    requires Dag(g) && c in g && (vs == AllInstances(g, w, c) || vs == Reverse(AllInstances(g, w, c)))
    ensures var calls := Selected(has, hook, vs);
            && Distinct(calls)
            && forall x :: x in calls <==>
                 x.0 == hook && has(hook, x.1) && exists d :: Below(g, c, d) && x.1 in OwnInstances(w, d)
  {
    hide Dag, AllInstances, Below, OwnInstances, Selected, Reverse;
    EachInstanceOnce(g, w, c);
    ReverseKeeps(AllInstances(g, w, c));
    SelectedOnce(has, hook, vs);
    var calls := Selected(has, hook, vs);
    forall x
      ensures x in calls <==> x.0 == hook && has(hook, x.1) && exists d :: Below(g, c, d) && x.1 in OwnInstances(w, d)
    {
      var v := x.1;
      assert v in vs <==> v in AllInstances(g, w, c);
      assert v in AllInstances(g, w, c) <==> exists d :: Below(g, c, d) && v in OwnInstances(w, d);
    }
  }

  lemma {:induction false} ReverseKeeps<T>(s: seq<T>)
    ensures Distinct(s) ==> Distinct(Reverse(s))
    ensures forall x :: x in Reverse(s) <==> x in s
  {
    forall x | x in s
      ensures x in Reverse(s)
    {
      var i :| 0 <= i < |s| && s[i] == x;
      assert Reverse(s)[|s| - 1 - i] == x;
    }
  }
}
