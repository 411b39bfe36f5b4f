/** The dependency injection container, resolving one token at a time. */
module Injector {
  import opened Basics
  import opened InjectorGraph
  import opened InjectorState
  import opened InjectorResolution

  /** Application code called during resolution. Its replies are arbitrary: `behaviour`
      may answer every call differently, but cannot call back into the container. */
  class Host {
    const behaviour: (nat, Foreign) -> Reply
    var log: seq<Event>

    constructor (behaviour: (nat, Foreign) -> Reply)
      ensures this.behaviour == behaviour && log == [] && Fresh()
    {
      this.behaviour := behaviour;
      log := [];
    }

    /** The log has the replies that were given. */
    ghost predicate Faithful()
      reads this
    {
      forall i | 0 <= i < |log| && log[i].Called? :: log[i].reply == behaviour(i, log[i].call)
    }

    /** The application has not served a request yet. */
    ghost predicate Fresh()
      reads this
    {
      Faithful() && Unserved(log)
    }

    method Invoke(call: Foreign) returns (r: Reply)
      requires Faithful()
      modifies this
      ensures log == old(log) + [Called(call, r)] && Faithful()
    {
      r := behaviour(|log|, call);
      log := log + [Called(call, r)];
    }

    method Assign(instance: Value, field: nat, value: Value)
      requires Faithful()
      modifies this
      ensures log == old(log) + [Assigned(instance, field, value)] && Faithful()
    {
      log := log + [Assigned(instance, field, value)];
    }

    /** Records that a container put an instance among those of the running request. */
    method Provide(maker: Id, token: Token, instance: Value)
      requires Faithful()
      modifies this
      ensures log == old(log) + [Provided(maker, token, instance)] && Faithful()
    {
      log := log + [Provided(maker, token, instance)];
    }
  }

  /** The instances of the running request. */
  class RequestContext {
    var instances: map<Token, Value>

    constructor ()
      ensures instances == map[]
    {
      instances := map[];
    }
  }

  class Container {
    /** The container's identity. */
    const id: Id
    var providers: map<Token, Normalized>
    var singletons: map<Token, Value>
    var resolving: seq<Token>
    var children: seq<Container>
    var exports: set<Token>
    var globalContainer: Container?
    var instances: seq<Value>
    var contexts: map<string, map<Token, Value>>
    /** The token each element of `instances` was made for. */
    ghost var builds: seq<Token>

    constructor (id: Id, exports: set<Token>, globalContainer: Container?)
      ensures this.id == id && this.exports == exports && this.globalContainer == globalContainer
      ensures providers == map[] && children == [] && ToCell() == Cell(map[], [], [], [], map[])
    {
      this.id := id;
      this.exports := exports;
      this.globalContainer := globalContainer;
      providers, singletons, resolving, children := map[], map[], [], [];
      instances, contexts, builds := [], map[], [];
    }

    ghost function ToCell(): Cell
      reads `singletons, `resolving, `instances, `builds, `contexts
    {
      Cell(singletons, resolving, instances, builds, contexts)
    }

    ghost predicate Matches(all: set<Container>, node: Node)
      reads `providers, `children, `exports, `globalContainer
    {
      && providers == node.providers
      && exports == node.exports
      && |children| == |node.children|
      && (forall i | 0 <= i < |children| :: children[i] in all && children[i].id == node.children[i])
      && (globalContainer == null ==> node.shared == None)
      && (globalContainer != null ==> globalContainer in all && node.shared == Some(globalContainer.id))
    }

    /** `g` is the fixed part of the containers in `all`. */
    static ghost predicate Wired(all: set<Container>, g: Graph)
      reads all`providers, all`children, all`exports, all`globalContainer
    {
      Apart(all) && forall c | c in all :: c.id in g && c.Matches(all, g[c.id])
    }

    static ghost predicate Apart(all: set<Container>) {
      forall c, d | c in all && d in all && c.id == d.id :: c == d
    }

    /** `w` is the changing part of the containers in `all`, and the log. */
    static ghost predicate Shows(all: set<Container>, host: Host, w: World)
      reads all`singletons, all`resolving, all`instances, all`builds, all`contexts, host
    {
      w.log == host.log && host.Faithful() && forall c | c in all :: c.id in w.cells && w.cells[c.id] == c.ToCell()
    }

    lemma WiredHere(all: set<Container>, g: Graph)
      requires this in all && Wired(all, g)
      ensures id in g && Matches(all, g[id]) && Apart(all)
    {
    }

    lemma ShownHere(all: set<Container>, host: Host, w: World)
      requires this in all && Shows(all, host, w)
      ensures id in w.cells && w.cells[id] == ToCell() && w.log == host.log && host.Faithful()
    {
    }

    static ghost function Instances(request: RequestContext?): Option<map<Token, Value>>
      reads (if request == null then {} else {request})
    {
      if request == null then None else Some(request.instances)
    }

    // ------------------------------------------------------------ registration

    /** Later providers of a token replace earlier ones. */
    method Register(ps: seq<Provider>)
      modifies `providers
      ensures providers == Registered(old(providers), ps)
    {
      for i := 0 to |ps|
        invariant Registered(providers, ps[i..]) == Registered(old(providers), ps)
      {
        var normalized := Normalize(ps[i]);
        assert ps[i..][1..] == ps[i + 1..];
        providers := providers[normalized.token := normalized];
      }
    }

    method AddChild(child: Container)
      modifies `children
      ensures children == old(children) + [child]
    {
      children := children + [child];
    }

    // ----------------------------------------------------------------- look-ups

    method CanResolve(token: Token, ghost all: set<Container>, ghost g: Graph) returns (b: bool)
      requires this in all && Wired(all, g) && Dag(g)
      ensures id in g && (b <==> Visible(g, id, token))
      decreases if id in g then g[id].height else 0
    {
      hide Visible, Dag, Wired, Apart;
      WiredHere(all, g);
      VisibleIffLocated(g, id, token);
      if token in providers {
        return true;
      }
      for i := 0 to |children|
        invariant ChildLocations(g, id, token, 0) == ChildLocations(g, id, token, i)
      {
        var child := children[i];
        child.WiredHere(all, g);
        LowerChild(g, id, i);
        ChildrenSkip(g, id, token, i);
        if token in child.exports {
          VisibleIffLocated(g, child.id, token);
          var found := child.CanResolve(token, all, g);
          if found {
            return true;
          }
        }
      }
      if globalContainer != null && globalContainer != this {
        globalContainer.WiredHere(all, g);
        if token in globalContainer.providers {
          return true;
        }
      }
      return false;
    }

    method GetProviderMode(token: Token, ghost all: set<Container>, ghost g: Graph) returns (mode: Option<Mode>)
      requires this in all && Wired(all, g) && Dag(g)
      ensures id in g && mode == FirstMode(g, id, token)
      decreases if id in g then g[id].height else 0
    {
      hide Dag, Wired, Apart;
      WiredHere(all, g);
      if token in providers {
        return Some(providers[token].mode);
      }
      for i := 0 to |children|
        invariant ChildLocations(g, id, token, 0) == ChildLocations(g, id, token, i)
      {
        var child := children[i];
        child.WiredHere(all, g);
        LowerChild(g, id, i);
        ChildrenSkip(g, id, token, i);
        if token in child.exports {
          mode := child.GetProviderMode(token, all, g);
          if mode.Some? {
            return;
          }
        }
      }
      if globalContainer != null && globalContainer != this {
        globalContainer.WiredHere(all, g);
        LowerShared(g, id, token);
        mode := globalContainer.GetProviderMode(token, all, g);
        return;
      }
      return None;
    }

    method IsRequestScoped(token: Token, ghost all: set<Container>, ghost g: Graph) returns (b: bool)
      requires this in all && Wired(all, g) && Dag(g)
      ensures id in g && (b <==> FirstMode(g, id, token) == Some(Request))
    {
      var mode := GetProviderMode(token, all, g);
      b := mode == Some(Request);
    }

    /** The recorded instances: this container's, or also those of everything it imports. */
    method GetInstances(recursive: bool, host: Host, ghost all: set<Container>, ghost g: Graph, ghost w: World)
      returns (vs: seq<Value>)
      requires this in all && Wired(all, g) && Dag(g) && Shows(all, host, w)
      ensures id in g && vs == InstancesOf(g, w, id, recursive)
      decreases if id in g then g[id].height else 0
    {
      hide Dag, Unique, Wired, Apart;
      WiredHere(all, g);
      vs := instances;
      if recursive {
        assert vs == OwnInstances(w, id) + ChildInstances(g, w, id, 0);
        for i := 0 to |children|
          invariant vs == OwnInstances(w, id) + ChildInstances(g, w, id, i)
        {
          children[i].WiredHere(all, g);
          LowerChild(g, id, i);
          var below := children[i].GetInstances(recursive, host, all, g, w);
          ConcatAssociative(OwnInstances(w, id), ChildInstances(g, w, id, i), below);
          vs := vs + below;
        }
        vs := Unique(vs);
      }
    }

    /** Forgets the providers and everything cached or recorded. */
    method Clear(host: Host, ghost all: set<Container>, ghost g: Graph, ghost w: World)
      requires this in all && Wired(all, g) && Shows(all, host, w)
      modifies `providers, `singletons, `instances, `builds, `contexts
      ensures id in g && Wired(all, g[id := g[id].(providers := map[])])
      ensures id in w.cells && Shows(all, host, With(w, id, Cell(map[], w.cells[id].resolving, [], [], map[])))
    {
      hide Wired, Shows;
      ClearProviders(all, g);
      ClearCell(host, all, g, w);
    }

    method ClearProviders(ghost all: set<Container>, ghost g: Graph)
      requires this in all && Wired(all, g)
      modifies `providers
      ensures id in g && Wired(all, g[id := g[id].(providers := map[])])
    {
      providers := map[];
    }

    method ClearCell(host: Host, ghost all: set<Container>, ghost g: Graph, ghost w: World)
      requires this in all && Apart(all) && Shows(all, host, w)
      modifies `singletons, `instances, `builds, `contexts
      ensures id in w.cells && Shows(all, host, With(w, id, Cell(map[], w.cells[id].resolving, [], [], map[])))
    {
      singletons, instances, builds, contexts := map[], [], [], map[];
    }

    // --------------------------------------------------------------- resolution

    // Single updates, with this container's cell before the update given as `cell`.

    /** Puts `token` in progress. */
    method Start(token: Token, host: Host, ghost all: set<Container>, ghost w: World)
      requires this in all && Apart(all) && Shows(all, host, w)
      modifies `resolving
      ensures Shows(all, host, Entered(w, id, token))
    {
      resolving := resolving + [token];
    }

    method CacheSingleton(token: Token, v: Value, host: Host, ghost all: set<Container>, ghost w: World,
                          ghost cell: Cell)
      requires this in all && Apart(all) && Shows(all, host, With(w, id, cell))
      modifies `singletons
      ensures Shows(all, host, With(w, id, Cached(cell, token, v)))
    {
      singletons := singletons[token := v];
    }

    method CacheInContext(key: string, token: Token, v: Value, host: Host, ghost all: set<Container>, ghost w: World,
                          ghost cell: Cell)
      requires this in all && Apart(all) && Shows(all, host, With(w, id, cell)) && key in contexts
      modifies `contexts
      ensures Shows(all, host, With(w, id, CachedIn(cell, key, token, v)))
    {
      contexts := contexts[key := contexts[key][token := v]];
    }

    method OpenContext(key: string, host: Host, ghost all: set<Container>, ghost w: World)
      requires this in all && Apart(all) && Shows(all, host, w)
      modifies `contexts
      ensures Shows(all, host, Opened(w, id, key))
    {
      contexts := contexts[key := map[]];
    }

    /** Adds the instance made for `token` to those kept for the lifecycle. */
    method Remember(v: Value, token: Token, host: Host, ghost all: set<Container>, ghost w: World, ghost cell: Cell)
      requires this in all && Apart(all) && Shows(all, host, With(w, id, cell))
      modifies `instances, `builds
      ensures Shows(all, host, With(w, id, Noted(cell, token, v)))
    {
      instances := instances + [v];
      builds := builds + [token];
    }

    /** Puts the instance among those of the running request. */
    method KeepInRequest(token: Token, v: Value, host: Host, request: RequestContext, ghost all: set<Container>,
                         ghost w: World)
      requires Shows(all, host, w)
      modifies host, request
      ensures Shows(all, host, w.(log := w.log + [Provided(id, token, v)]))
      ensures request.instances == old(request.instances)[token := v]
    {
      request.instances := request.instances[token := v];
      host.Provide(id, token, v);
    }

    /** The end of every construction, whether it returned or threw. */
    method Finish(token: Token, host: Host, ghost rest: seq<Token>, ghost all: set<Container>, ghost w: World,
                  ghost cell: Cell)
      requires this in all && Apart(all) && Shows(all, host, With(w, id, cell))
      requires cell.resolving == rest + [token] && token !in rest
      modifies `resolving
      ensures Shows(all, host, With(w, id, Leave(cell, rest)))
    {
      WithoutLast(rest, token);
      resolving := Without(resolving, token);
    }

    /** Resolves `token`: own providers first, then exporting children, then the global container.
        `context` is the named context of the call, if any; `k` tells which location answered. */
    method Resolve(token: Token, context: Option<string>, host: Host, request: RequestContext?,
                            ghost all: set<Container>, ghost g: Graph, ghost w: World)
      returns (r: Outcome, ghost k: nat, ghost w': World)
      requires this in all && Wired(all, g) && Shows(all, host, w) && Live(g, w) && Idle(g, w, g[id].height)
      requires Requested(w.log, Instances(request))
      requires Asked(g[id].providers, w.cells[id], token)
      modifies all`singletons, all`resolving, all`instances, all`builds, all`contexts, host,
               (if request == null then {} else {request})
      ensures Shows(all, host, w') && Live(g, w') && Advance(w, w')
      ensures Explained(g, w, w', request != null, r)
      ensures Founded(g, Scope(g, id, token), Some(token), r)
      ensures Traced(g, w, w', Scope(g, id, token), old(Instances(request)), Instances(request))
      ensures context.None? ==> Inner(w, w')
      ensures token in w.cells[id].resolving ==> r == Err(CircularDependency(w.cells[id].resolving + [token]))
      ensures token !in w.cells[id].resolving ==> Resolved(g, w, w', id, token, context, Instances(request), r, k)
      ensures token !in w.cells[id].resolving ==> Reached(g, w, w', id, token, old(Instances(request)), r, k)
      decreases g[id].height, Free(g[id].providers, w.cells[id].resolving), 4
    {
      hide Traced, Reached, Scope, Reach, Requested, Served, Guarded, Tried, Wired, Live, Keeps, Sound, Made,
        Answered, Explained, MissingAt, Free, Requires, Asked, Inner, OwnResolved, Advance, Underway, With, Apart,
        Dag, Matches, Idle, Founded;
      WiredHere(all, g);
      k, w' := 0, w;
      if token in resolving {
        LiveDag(g, w);
        TracedNothing(g, w, w, Scope(g, id, token), Instances(request));
        r := Err(CircularDependency(resolving + [token]));
        CircularIsReal(g, w, id, token, request != null, r);
        CircularIsFounded(g, w, id, token);
        return;
      }
      if token in providers {
        r, w' := ResolveWithMode(token, providers[token], context, host, request, all, g, w);
        LiveFacts(g, w, id);
        LiveFacts(g, w', id);
        OwnIsResolved(g, w, w', id, token, context, Instances(request), r);
        OwnScope(g, id, token);
        FoundedWider(g, Reach(g, id, token), Scope(g, id, token), None, Some(token), r);
        OwnReached(g, w, w', id, token, old(Instances(request)), r);
        return;
      }
      r, k, w' := ResolveElsewhere(token, context, host, request, all, g, w);
    }

    /** The part of `Resolve` after the container's own providers. */
    method ResolveElsewhere(token: Token, context: Option<string>, host: Host, request: RequestContext?,
                            ghost all: set<Container>, ghost g: Graph, ghost w: World)
      returns (r: Outcome, ghost k: nat, ghost w': World)
      requires this in all && Wired(all, g) && Shows(all, host, w) && Live(g, w) && Idle(g, w, g[id].height)
      requires Requested(w.log, Instances(request))
      requires token !in g[id].providers
      modifies all`singletons, all`resolving, all`instances, all`builds, all`contexts, host,
               (if request == null then {} else {request})
      ensures Shows(all, host, w') && Live(g, w') && Advance(w, w')
      ensures Explained(g, w, w', request != null, r)
      ensures Founded(g, Scope(g, id, token), Some(token), r)
      ensures Traced(g, w, w', Scope(g, id, token), old(Instances(request)), Instances(request))
      ensures context.None? ==> Inner(w, w')
      ensures Resolved(g, w, w', id, token, context, Instances(request), r, k)
      ensures Reached(g, w, w', id, token, old(Instances(request)), r, k)
      decreases g[id].height, Free(g[id].providers, w.cells[id].resolving), 3
    {
      hide Traced, Reached, Scope, Reach, Requested, Served, Guarded, Tried, Wired, Live, Keeps, Sound, Made,
        Answered, Explained, MissingAt, Free, Requires, Asked, Inner, OwnResolved, Advance, Underway, With, Apart,
        Dag, Matches, Idle, Founded, Shows;
      hide Resolved, Split, PassedOver, Searching, Locations, Spans, Unheld, RequestScoped;
      WiredHere(all, g);
      SearchBegins(g, w, id, token, context);
      r, k, w' := Err(TokenNotFound(token)), 0, w;
      ghost var tried: seq<Id> := [];
      var kids := children;
      ghost var cached := Instances(request);
      LiveDag(g, w);
      TracedNothing(g, w, w, Spans(g, [], token), cached);
      NoneUnheld(g, token, cached);
      for i := 0 to |kids|
        invariant Shows(all, host, w') && Searching(g, w, w', id, token, context, tried, i)
        invariant Traced(g, w, w', Spans(g, tried, token), cached, Instances(request))
                  && Unheld(g, tried, token, cached)
      {
        var child := kids[i];
        child.WiredHere(all, g);
        SearchStep(g, w, w', id, token, context, tried, i);
        if token in child.exports {
          ghost var middle, held := w', Instances(request);
          TracedFacts(g, w, middle, Spans(g, tried, token), cached, held);
          r, k, w' := child.Resolve(token, context, host, request, all, g, middle);
          LiveDag(g, middle);
          LiveDag(g, w');
          ImportAnswered(g, w, middle, w', id, token, context, tried, i, r, k, cached, held, Instances(request),
                         request != null);
          if !NotFoundError(r) {
            ChildScope(g, id, token, i);
            FoundedWider(g, Scope(g, child.id, token), Scope(g, id, token), Some(token), Some(token), r);
            k := |tried| + k;
            return;
          }
          tried := tried + Locations(g, child.id, token);
        }
      }
      ghost var middle := w';
      r, k, w' := ResolveGlobal(token, context, host, request, tried, cached, all, g, w, middle);
    }

    /** The last place to look: the global container, if it provides the token itself. */
    method ResolveGlobal(token: Token, context: Option<string>, host: Host, request: RequestContext?,
                         ghost tried: seq<Id>, ghost cached: Option<map<Token, Value>>, ghost all: set<Container>,
                         ghost g: Graph, ghost start: World, ghost w: World)
      returns (r: Outcome, ghost k: nat, ghost w': World)
      requires this in all && Wired(all, g) && Shows(all, host, w)
               && Searching(g, start, w, id, token, context, tried, |g[id].children|)
      requires Dag(g) && Traced(g, start, w, Spans(g, tried, token), cached, Instances(request))
               && Unheld(g, tried, token, cached)
      modifies all`singletons, all`resolving, all`instances, all`builds, all`contexts, host,
               (if request == null then {} else {request})
      ensures Shows(all, host, w') && Live(g, w') && Advance(start, w')
      ensures Explained(g, start, w', request != null, r)
      ensures Founded(g, Scope(g, id, token), Some(token), r)
      ensures Traced(g, start, w', Scope(g, id, token), cached, Instances(request))
      ensures context.None? ==> Inner(start, w')
      ensures Resolved(g, start, w', id, token, context, Instances(request), r, k)
      ensures Reached(g, start, w', id, token, cached, r, k)
      decreases g[id].height, 0, 2
    {
      hide Traced, Reached, Scope, Reach, Requested, Served, Guarded, Tried, Wired, Live, Keeps, Sound, Made,
        Answered, Explained, MissingAt, Free, Requires, Asked, Inner, OwnResolved, Advance, Underway, With, Apart,
        Dag, Matches, Idle, Founded;
      hide Resolved, Split, PassedOver, Searching, Locations, Spans, Unheld, RequestScoped;
      WiredHere(all, g);
      GlobalStep(g, start, w, id, token, context, tried);
      ghost var held := Instances(request);
      TracedFacts(g, start, w, Spans(g, tried, token), cached, held);
      if globalContainer != null && globalContainer != this {
        globalContainer.WiredHere(all, g);
        if token in globalContainer.providers {
          r, k, w' := globalContainer.Resolve(token, context, host, request, all, g, w);
          LiveFacts(g, w', id);
          GlobalAnswer(g, start, w, w', id, token, context, Instances(request), tried, r, k);
          ExplainedWider(g, start, w, w', w', request != null, r);
          SharedScope(g, id, token);
          FoundedWider(g, Scope(g, globalContainer.id, token), Scope(g, id, token), Some(token), Some(token), r);
          GlobalReached(g, start, w, w', id, token, context, Instances(request), tried, r, k, cached, held,
                        Instances(request));
          k := |tried| + k;
          return;
        }
      }
      r, k, w' := Err(TokenNotFound(token)), 0, w;
      AskedIsFounded(g, Scope(g, id, token), token);
      SearchReachedNone(g, start, w, id, token, context, tried, r, cached, held);
    }

    /** Only an error about a missing token lets the search go on. */
    static function NotFoundError(r: Outcome): (b: bool)
      ensures b <==> NotFound(r)
    {
      r.Err? && r.error.TokenNotFound?
    }

    method ResolveWithMode(token: Token, provider: Normalized, context: Option<string>, host: Host,
                           request: RequestContext?, ghost all: set<Container>, ghost g: Graph, ghost w: World)
      returns (r: Outcome, ghost w': World)
      requires this in all && Wired(all, g) && Shows(all, host, w) && Live(g, w) && Idle(g, w, g[id].height)
      requires Requested(w.log, Instances(request))
      requires Asked(g[id].providers, w.cells[id], token) && token !in w.cells[id].resolving
      requires token in g[id].providers && provider == g[id].providers[token]
      modifies all`singletons, all`resolving, all`instances, all`builds, all`contexts, host,
               (if request == null then {} else {request})
      ensures Shows(all, host, w') && Live(g, w') && Advance(w, w')
      ensures Explained(g, w, w', request != null, r)
      ensures Founded(g, Reach(g, id, token), None, r)
      ensures Traced(g, w, w', Reach(g, id, token), old(Instances(request)), Instances(request))
      ensures context.None? ==> Inner(w, w')
      ensures OwnResolved(g, w, w', id, token, context, Instances(request), r)
      ensures g[id].providers[token].mode == Request ==> Served(g, w, w', id, token, old(Instances(request)), r)
      decreases g[id].height, Free(g[id].providers, w.cells[id].resolving), 3
    {
      hide Traced, Reached, Scope, Reach, Requested, Served, Guarded, Tried, Wired, Live, Keeps, Sound, Made,
        Answered, Explained, MissingAt, Free, Requires, Asked, Inner, OwnResolved, Advance, Underway, With, Apart,
        Dag, Matches, Idle, Founded;
      match provider.mode {
        case Singleton =>
          r, w' := ResolveSingleton(token, provider, context, host, request, all, g, w);
          InnerAdvance(w, w');
        case Transient =>
          if context.Some? {
            r, w' := ResolveTransientWithContext(token, provider, context, host, request, all, g, w);
          } else {
            r, w' := ResolveTransient(token, provider, host, request, all, g, w);
            InnerAdvance(w, w');
          }
        case Request =>
          r, w' := ResolveRequest(token, provider, context, host, request, all, g, w);
          InnerAdvance(w, w');
      }
    }

    method ResolveSingleton(token: Token, provider: Normalized, ghost context: Option<string>, host: Host,
                            request: RequestContext?, ghost all: set<Container>, ghost g: Graph, ghost w: World)
      returns (r: Outcome, ghost w': World)
      requires this in all && Wired(all, g) && Shows(all, host, w) && Live(g, w) && Idle(g, w, g[id].height)
      requires Requested(w.log, Instances(request))
      requires Asked(g[id].providers, w.cells[id], token) && token !in w.cells[id].resolving
      requires token in g[id].providers && provider == g[id].providers[token] && provider.mode == Singleton
      modifies all`singletons, all`resolving, all`instances, all`builds, all`contexts, host,
               (if request == null then {} else {request})
      ensures Shows(all, host, w') && Live(g, w') && Inner(w, w')
      ensures Explained(g, w, w', request != null, r)
      ensures Founded(g, Reach(g, id, token), None, r)
      ensures Traced(g, w, w', Reach(g, id, token), old(Instances(request)), Instances(request))
      ensures OwnResolved(g, w, w', id, token, context, Instances(request), r)
      decreases g[id].height, Free(g[id].providers, w.cells[id].resolving), 2
    {
      hide Traced, Reached, Scope, Reach, Requested, Served, Guarded, Tried, Wired, Live, Keeps, Sound, Made,
        Answered, Explained, MissingAt, Free, Requires, Asked, Inner, OwnResolved, Advance, Underway, With, Apart,
        Dag, Matches, Idle, Founded, Shows;
      WiredHere(all, g);
      ShownHere(all, host, w);
      if token in singletons {
        LiveDag(g, w);
        TracedNothing(g, w, w, Reach(g, id, token), Instances(request));
        CachedAnswer(g, w, id, token, context, Instances(request), request != null);
        FoundedAnyway(g, Reach(g, id, token), None, Ok(singletons[token]));
        return Ok(singletons[token]), w;
      }
      Began(g, w, id, token);
      Start(token, host, all, w);
      ghost var built;
      r, built := Build(provider, host, request, all, g, Entered(w, id, token));
      ShownHere(all, host, built);
      WithSame(built, id);
      ghost var cell := built.cells[id];
      if r.Ok? {
        FinishLive(g, w, built, id, token, r.value, context, Instances(request));
        CacheSingleton(token, r.value, host, all, built, cell);
        cell := Cached(cell, token, r.value);
        Remember(r.value, token, host, all, built, cell);
        cell := Noted(cell, token, r.value);
      } else {
        AbandonLive(g, w, built, id, token);
      }
      Finish(token, host, w.cells[id].resolving, all, built, cell);
      w' := With(built, id, Leave(cell, w.cells[id].resolving));
      ExplainedWider(g, w, Entered(w, id, token), built, w', request != null, r);
      TracedEnd(g, w, built, id, token, Leave(cell, w.cells[id].resolving), Reach(g, id, token),
                old(Instances(request)), Instances(request));
      BuiltAnswer(g, w, w', id, token, context, Instances(request), r);
    }

    method ResolveTransient(token: Token, provider: Normalized, host: Host, request: RequestContext?,
                            ghost all: set<Container>, ghost g: Graph, ghost w: World)
      returns (r: Outcome, ghost w': World)
      requires this in all && Wired(all, g) && Shows(all, host, w) && Live(g, w) && Idle(g, w, g[id].height)
      requires Requested(w.log, Instances(request))
      requires Asked(g[id].providers, w.cells[id], token) && token !in w.cells[id].resolving
      requires token in g[id].providers && provider == g[id].providers[token] && provider.mode == Transient
      modifies all`singletons, all`resolving, all`instances, all`builds, all`contexts, host,
               (if request == null then {} else {request})
      ensures Shows(all, host, w') && Live(g, w') && Inner(w, w')
      ensures Explained(g, w, w', request != null, r)
      ensures Founded(g, Reach(g, id, token), None, r)
      ensures Traced(g, w, w', Reach(g, id, token), old(Instances(request)), Instances(request))
      ensures OwnResolved(g, w, w', id, token, None, Instances(request), r)
      decreases g[id].height, Free(g[id].providers, w.cells[id].resolving), 2
    {
      hide Traced, Reached, Scope, Reach, Requested, Served, Guarded, Tried, Wired, Live, Keeps, Sound, Made,
        Answered, Explained, MissingAt, Free, Requires, Asked, Inner, OwnResolved, Advance, Underway, With, Apart,
        Dag, Matches, Idle, Founded;
      WiredHere(all, g);
      NotCached(g, w, id, token);
      Began(g, w, id, token);
      Start(token, host, all, w);
      ghost var built;
      r, built := Build(provider, host, request, all, g, Entered(w, id, token));
      WithSame(built, id);
      ghost var cell := built.cells[id];
      if r.Ok? {
        FinishLive(g, w, built, id, token, r.value, None, Instances(request));
        Remember(r.value, token, host, all, built, cell);
        cell := Noted(cell, token, r.value);
      } else {
        AbandonLive(g, w, built, id, token);
      }
      Finish(token, host, w.cells[id].resolving, all, built, cell);
      w' := With(built, id, Leave(cell, w.cells[id].resolving));
      ExplainedWider(g, w, Entered(w, id, token), built, w', request != null, r);
      TracedEnd(g, w, built, id, token, Leave(cell, w.cells[id].resolving), Reach(g, id, token),
                old(Instances(request)), Instances(request));
      BuiltAnswer(g, w, w', id, token, None, Instances(request), r);
    }

    method ResolveRequest(token: Token, provider: Normalized, ghost context: Option<string>, host: Host,
                          request: RequestContext?, ghost all: set<Container>, ghost g: Graph, ghost w: World)
      returns (r: Outcome, ghost w': World)
      requires this in all && Wired(all, g) && Shows(all, host, w) && Live(g, w) && Idle(g, w, g[id].height)
      requires Requested(w.log, Instances(request))
      requires Asked(g[id].providers, w.cells[id], token) && token !in w.cells[id].resolving
      requires token in g[id].providers && provider == g[id].providers[token] && provider.mode == Request
      modifies all`singletons, all`resolving, all`instances, all`builds, all`contexts, host,
               (if request == null then {} else {request})
      ensures Shows(all, host, w') && Live(g, w') && Inner(w, w')
      ensures Explained(g, w, w', request != null, r)
      ensures Founded(g, Reach(g, id, token), None, r)
      ensures Traced(g, w, w', Reach(g, id, token), old(Instances(request)), Instances(request))
      ensures OwnResolved(g, w, w', id, token, context, Instances(request), r)
      ensures Served(g, w, w', id, token, old(Instances(request)), r)
      decreases g[id].height, Free(g[id].providers, w.cells[id].resolving), 2
    {
      hide Traced, Reached, Scope, Reach, Requested, Served, Guarded, Tried, Wired, Live, Keeps, Sound, Made,
        Answered, Explained, MissingAt, Free, Requires, Asked, Inner, OwnResolved, Advance, Underway, With, Apart,
        Dag, Matches, Idle, Founded, Shows;
      WiredHere(all, g);
      ShownHere(all, host, w);
      NotCached(g, w, id, token);
      w' := w;
      InnerItself(w);
      TracedNothing(g, w, w, Reach(g, id, token), Instances(request));
      if request == null {
        r := Err(NoRequestContext(token));
        RequestIsFounded(g, id, token);
        RequestAnswer(g, w, id, token, context, None, r);
        return;
      }
      if token in request.instances {
        r := Ok(request.instances[token]);
        FoundedAnyway(g, Reach(g, id, token), None, r);
        RequestAnswer(g, w, id, token, context, Some(request.instances), r);
        return;
      }
      Began(g, w, id, token);
      Start(token, host, all, w);
      ghost var built;
      r, built := Build(provider, host, request, all, g, Entered(w, id, token));
      ShownHere(all, host, built);
      WithSame(built, id);
      ghost var noted := built;
      if r.Ok? {
        RequestBuilt(g, w, built, id, token, r.value, context, Reach(g, id, token), old(Instances(request)),
                     Instances(request), true);
        KeepInRequest(token, r.value, host, request, all, built);
        noted := built.(log := built.log + [Provided(id, token, r.value)]);
        WithSame(noted, id);
        w' := Placing(w, built, id, token, r.value);
      } else {
        AbandonLive(g, w, built, id, token);
        w' := With(built, id, Leave(built.cells[id], w.cells[id].resolving));
        TracedEnd(g, w, built, id, token, Leave(built.cells[id], w.cells[id].resolving), Reach(g, id, token),
                  old(Instances(request)), Instances(request));
        RequestFailed(g, w, w', id, token, context, old(Instances(request)), Instances(request), r);
        ExplainedWider(g, w, Entered(w, id, token), built, w', true, r);
      }
      Finish(token, host, w.cells[id].resolving, all, noted, built.cells[id]);
    }

    /** Within one named context the same instance is returned. */
    method ResolveTransientWithContext(token: Token, provider: Normalized, context: Option<string>, host: Host,
                                       request: RequestContext?, ghost all: set<Container>, ghost g: Graph,
                                       ghost w: World)
      returns (r: Outcome, ghost w': World)
      requires this in all && Wired(all, g) && Shows(all, host, w) && Live(g, w) && Idle(g, w, g[id].height)
      requires Requested(w.log, Instances(request))
      requires Asked(g[id].providers, w.cells[id], token) && token !in w.cells[id].resolving
      requires token in g[id].providers && provider == g[id].providers[token] && provider.mode == Transient
               && context.Some?
      modifies all`singletons, all`resolving, all`instances, all`builds, all`contexts, host,
               (if request == null then {} else {request})
      ensures Shows(all, host, w') && Live(g, w') && Advance(w, w')
      ensures Explained(g, w, w', request != null, r)
      ensures Founded(g, Reach(g, id, token), None, r)
      ensures Traced(g, w, w', Reach(g, id, token), old(Instances(request)), Instances(request))
      ensures OwnResolved(g, w, w', id, token, context, Instances(request), r)
      decreases g[id].height, Free(g[id].providers, w.cells[id].resolving), 2
    {
      hide Traced, Reached, Scope, Reach, Requested, Served, Guarded, Tried, Wired, Live, Keeps, Sound, Made,
        Answered, Explained, MissingAt, Free, Requires, Asked, Inner, OwnResolved, Advance, Underway, With, Apart,
        Dag, Matches, Idle, Founded, Shows;
      WiredHere(all, g);
      ShownHere(all, host, w);
      ghost var start := w;
      var key := context.value;
      if key !in contexts {
        OpenContext(key, host, all, w);
        start := Opened(w, id, key);
      }
      ShownHere(all, host, start);
      ContextReady(g, w, start, id, token, key);
      if token in contexts[key] {
        r, w' := Ok(contexts[key][token]), start;
        TracedNothing(g, w, start, Reach(g, id, token), Instances(request));
        ContextAnswer(g, w, start, id, token, key, Instances(request), request != null);
        FoundedAnyway(g, Reach(g, id, token), None, r);
        return;
      }
      r, w' := MakeInContext(token, provider, key, host, request, all, g, start);
      TracedFromContext(g, w, start, w', Reach(g, id, token), old(Instances(request)), Instances(request));
      LiveDag(g, w');
      ContextBuilt(g, w, start, w', id, token, context, Instances(request), request != null, r);
    }

    /** An instance that is cached in the named context, which exists. */
    method MakeInContext(token: Token, provider: Normalized, key: string, host: Host, request: RequestContext?,
                            ghost all: set<Container>, ghost g: Graph, ghost w: World)
      returns (r: Outcome, ghost w': World)
      requires this in all && Wired(all, g) && Shows(all, host, w) && Live(g, w) && Idle(g, w, g[id].height)
      requires Requested(w.log, Instances(request))
      requires Asked(g[id].providers, w.cells[id], token) && token !in w.cells[id].resolving
               && token !in w.cells[id].singletons
      requires token in g[id].providers && provider == g[id].providers[token] && provider.mode == Transient
      requires key in w.cells[id].contexts && token !in w.cells[id].contexts[key]
      modifies all`singletons, all`resolving, all`instances, all`builds, all`contexts, host,
               (if request == null then {} else {request})
      ensures Shows(all, host, w') && Live(g, w') && Advance(w, w')
      ensures Explained(g, w, w', request != null, r)
      ensures Founded(g, Reach(g, id, token), None, r)
      ensures Traced(g, w, w', Reach(g, id, token), old(Instances(request)), Instances(request))
      ensures OwnResolved(g, w, w', id, token, Some(key), Instances(request), r)
      decreases g[id].height, Free(g[id].providers, w.cells[id].resolving), 1
    {
      hide Traced, Reached, Scope, Reach, Requested, Served, Guarded, Tried, Wired, Live, Keeps, Sound, Made,
        Answered, Explained, MissingAt, Free, Requires, Asked, Inner, OwnResolved, Advance, Underway, With, Apart,
        Dag, Matches, Idle, Founded, Shows;
      WiredHere(all, g);
      ShownHere(all, host, w);
      Began(g, w, id, token);
      Start(token, host, all, w);
      ghost var built;
      r, built := Build(provider, host, request, all, g, Entered(w, id, token));
      ShownHere(all, host, built);
      WithSame(built, id);
      ghost var cell := built.cells[id];
      if r.Ok? {
        FinishLive(g, w, built, id, token, r.value, Some(key), Instances(request));
        CacheInContext(key, token, r.value, host, all, built, cell);
        cell := CachedIn(cell, key, token, r.value);
        Remember(r.value, token, host, all, built, cell);
        cell := Noted(cell, token, r.value);
      } else {
        AbandonLive(g, w, built, id, token);
      }
      Finish(token, host, w.cells[id].resolving, all, built, cell);
      w' := With(built, id, Leave(cell, w.cells[id].resolving));
      TracedEnd(g, w, built, id, token, Leave(cell, w.cells[id].resolving), Reach(g, id, token),
                old(Instances(request)), Instances(request));
      ExplainedWider(g, w, Entered(w, id, token), built, w', request != null, r);
      BuiltAnswer(g, w, w', id, token, Some(key), Instances(request), r);
    }

    /** The provider's own resolve function, run while its token is the last one in progress. */
    method Build(provider: Normalized, host: Host, request: RequestContext?,
                            ghost all: set<Container>, ghost g: Graph, ghost w: World)
      returns (r: Outcome, ghost w': World)
      requires this in all && Wired(all, g) && Shows(all, host, w) && Live(g, w) && Idle(g, w, g[id].height)
      requires Requested(w.log, Instances(request))
      requires Underway(g[id], w.cells[id], provider)
      modifies all`singletons, all`resolving, all`instances, all`builds, all`contexts, host,
               (if request == null then {} else {request})
      ensures Shows(all, host, w') && Live(g, w') && Inner(w, w')
      ensures Explained(g, w, w', request != null, r)
      ensures Founded(g, Reach(g, id, provider.token), None, r)
      ensures Traced(g, w, w', Reach(g, id, provider.token), old(Instances(request)), Instances(request))
      ensures NotFound(r) ==> Tried(g, w', id, provider)
      ensures r.Ok? ==> Made(g, w', id, provider, r.value)
      decreases g[id].height, Free(g[id].providers, w.cells[id].resolving), 7
    {
      hide Traced, Reached, Scope, Reach, Requested, Served, Guarded, Tried, Wired, Live, Keeps, Sound, Made,
        Answered, Explained, MissingAt, Free, Requires, Asked, Inner, OwnResolved, Advance, Underway, With, Apart,
        Dag, Matches, Idle, Founded;
      WiredHere(all, g);
      LiveFacts(g, w, id);
      ghost var scope, cached := Reach(g, id, provider.token), Instances(request);
      TracedNothing(g, w, w, scope, cached);
      match provider.recipe {
        case Give(value) =>
          r, w' := Ok(value), w;
          GiveMade(g, w, id, provider, value, request != null);
          FoundedAnyway(g, scope, None, r);
        case Construct(cls, fields) =>
          var reply := host.Invoke(New(cls));
          ghost var made := w.(log := w.log + [Called(New(cls), reply)]);
          CallLive(g, w, New(cls), reply, g[id].height);
          CallEvents(g, w, id, provider);
          InnerKeeps(w, made);
          TracedEvent(g, w, Called(New(cls), reply), scope, cached);
          TracedFacts(g, w, made, scope, cached, cached);
          match reply {
            case Throws(error) =>
              r, w' := Err(Failed(error)), made;
              ThrownExplained(g, w, New(cls), error, request != null);
              FoundedAnyway(g, scope, None, r);
            case Returns(instance) =>
              r, w' := InjectDependencies(instance, provider, fields, host, request, all, g, made);
              InnerKeeps(made, w');
              TracedThen(g, w, made, w', scope, cached, cached, Instances(request));
              ConstructMade(g, w, made, w', id, provider, instance, request != null, r);
          }
        case Call(factory, inject) =>
          var args;
          r, args, w' := ResolveArguments(provider, inject, host, request, all, g, w);
          if r.Ok? {
            var reply := host.Invoke(Factory(factory, args));
            ghost var middle := w';
            w' := middle.(log := middle.log + [Called(Factory(factory, args), reply)]);
            CallLive(g, middle, Factory(factory, args), reply, g[id].height);
            CallEvents(g, w, id, provider);
            InnerKeeps(w, middle);
            TracedThenEvent(g, w, middle, Called(Factory(factory, args), reply), scope, cached, Instances(request));
            r := match reply case Throws(error) => Err(Failed(error)) case Returns(value) => Ok(value);
            CallMade(g, w, middle, w', id, provider, args, reply, request != null, r);
            FoundedAnyway(g, scope, None, r);
          }
        case Alias(target) =>
          ghost var k;
          AsksFor(g, w, id, provider, target, 0);
          r, k, w' := Resolve(target, None, host, request, all, g, w);
          AskedOutcome(g, w, w', id, provider, target, Instances(request), r, k);
          TracedWider(g, w, w', Scope(g, id, target), scope, cached, Instances(request));
          DependencyFounded(g, w, id, provider, target, r);
          AliasMade(g, w', id, provider, target, r);
      }
    }

    /** Factory arguments, resolved in order. */
    method ResolveArguments(provider: Normalized, inject: seq<Token>, host: Host, request: RequestContext?,
                            ghost all: set<Container>, ghost g: Graph, ghost w: World)
      returns (r: Outcome, args: seq<Value>, ghost w': World)
      requires this in all && Wired(all, g) && Shows(all, host, w) && Live(g, w) && Idle(g, w, g[id].height)
      requires Requested(w.log, Instances(request))
      requires Underway(g[id], w.cells[id], provider) && provider.recipe.Call? && provider.recipe.inject == inject
      modifies all`singletons, all`resolving, all`instances, all`builds, all`contexts, host,
               (if request == null then {} else {request})
      ensures Shows(all, host, w') && Live(g, w') && Inner(w, w')
      ensures Explained(g, w, w', request != null, r)
      ensures Founded(g, Reach(g, id, provider.token), None, r)
      ensures Traced(g, w, w', Reach(g, id, provider.token), old(Instances(request)), Instances(request))
      ensures NotFound(r) ==> Tried(g, w', id, provider)
      ensures r.Ok? ==> |args| == |inject| && forall i | 0 <= i < |inject| :: Origin(g, w', id, inject[i], args[i])
      decreases g[id].height, Free(g[id].providers, w.cells[id].resolving), 6
    {
      hide Traced, Reached, Scope, Reach, Requested, Served, Guarded, Tried, Wired, Live, Keeps, Sound, Made,
        Answered, Explained, MissingAt, Free, Requires, Asked, Inner, OwnResolved, Advance, Underway, With, Apart,
        Dag, Matches, Idle, Founded, Shows;
      hide Origin, Resolved, Resuming, Declared;
      WiredHere(all, g);
      ShownHere(all, host, w);
      ResumingBegins(g, w, id, provider);
      args, w' := [], w;
      ghost var scope, cached := Reach(g, id, provider.token), Instances(request);
      TracedNothing(g, w, w, scope, cached);
      for n := 0 to |inject|
        invariant Traced(g, w, w', scope, cached, Instances(request))
        invariant |args| == n && Shows(all, host, w') && Resuming(g, w, w', id, provider) && Dag(g) && id in g
        invariant forall i | 0 <= i < n :: Origin(g, w', id, inject[i], args[i])
      {
        ghost var middle, held := w', Instances(request);
        ghost var k;
        ResumingFacts(g, w, middle, id, provider);
        ArgumentRequired(provider, n);
        TracedFacts(g, w, middle, scope, cached, held);
        AsksFor(g, middle, id, provider, inject[n], n);
        r, k, w' := Resolve(inject[n], None, host, request, all, g, middle);
        TracedWider(g, middle, w', Scope(g, id, inject[n]), scope, held, Instances(request));
        AskedOutcome(g, middle, w', id, provider, inject[n], Instances(request), r, k);
        Resumed(g, w, middle, w', id, provider, scope, cached, held, Instances(request), request != null, r);
        forall i | 0 <= i < n
          ensures Origin(g, w', id, inject[i], args[i])
        {
          OriginGrows(g, middle, w', id, inject[i], args[i]);
        }
        if r.Err? {
          DependencyFounded(g, middle, id, provider, inject[n], r);
          if NotFoundError(r) {
            ArgumentMissing(g, w', id, provider, inject, args, n);
          }
          return;
        }
        args := args + [r.value];
      }
      ResumingFacts(g, w, w', id, provider);
      r := Ok(0);
      NoError(g, w, w', request != null, 0);
      FoundedAnyway(g, scope, None, r);
    }

    /** Assigns each decorated field what its token resolves to. An optional field whose token is
        not found is left alone. */
    method InjectDependencies(instance: Value, provider: Normalized, fields: seq<Dependency>, host: Host,
                              request: RequestContext?, ghost all: set<Container>, ghost g: Graph, ghost w: World)
      returns (r: Outcome, ghost w': World)
      requires this in all && Wired(all, g) && Shows(all, host, w) && Live(g, w) && Idle(g, w, g[id].height)
      requires Requested(w.log, Instances(request))
      requires Underway(g[id], w.cells[id], provider) && provider.recipe.Construct? && provider.recipe.fields == fields
      modifies all`singletons, all`resolving, all`instances, all`builds, all`contexts, host,
               (if request == null then {} else {request})
      ensures Shows(all, host, w') && Live(g, w') && Inner(w, w')
      ensures Explained(g, w, w', request != null, r)
      ensures Founded(g, Reach(g, id, provider.token), None, r)
      ensures Traced(g, w, w', Reach(g, id, provider.token), old(Instances(request)), Instances(request))
      ensures NotFound(r) ==> exists n: nat :: FilledUpTo(g, w', id, fields, instance, n)
      ensures r.Ok? ==> r.value == instance && forall i | 0 <= i < |fields| :: Filled(g, w', id, fields[i], i, instance)
      decreases g[id].height, Free(g[id].providers, w.cells[id].resolving), 6
    {
      hide Traced, Reached, Scope, Reach, Requested, Served, Guarded, Tried, Wired, Live, Keeps, Sound, Made,
        Answered, Explained, MissingAt, Free, Requires, Asked, Inner, OwnResolved, Advance, Underway, With, Apart,
        Dag, Matches, Idle, Founded, Shows;
      hide Filled, Resuming;
      WiredHere(all, g);
      ShownHere(all, host, w);
      ResumingBegins(g, w, id, provider);
      w' := w;
      ghost var scope, cached := Reach(g, id, provider.token), Instances(request);
      TracedNothing(g, w, w, scope, cached);
      for n := 0 to |fields|
        invariant Traced(g, w, w', scope, cached, Instances(request))
        invariant Shows(all, host, w') && Resuming(g, w, w', id, provider) && Dag(g) && id in g
        invariant forall i | 0 <= i < n :: Filled(g, w', id, fields[i], i, instance)
      {
        ghost var middle, held := w', Instances(request);
        TracedFacts(g, w, middle, scope, cached, held);
        ResumingFacts(g, w, middle, id, provider);
        r, w' := InjectField(instance, provider, fields, n, host, request, all, g, middle);
        Resumed(g, w, middle, w', id, provider, scope, cached, held, Instances(request), request != null, r);
        forall i | 0 <= i < n
          ensures Filled(g, w', id, fields[i], i, instance)
        {
          FilledGrows(g, middle, w', id, fields[i], i, instance);
        }
        if r.Err? {
          if NotFoundError(r) {
            assert FilledUpTo(g, w', id, fields, instance, n);
          }
          return;
        }
      }
      ResumingFacts(g, w, w', id, provider);
      r := Ok(instance);
      NoError(g, w, w', request != null, instance);
      FoundedAnyway(g, scope, None, r);
    }

    method InjectField(instance: Value, provider: Normalized, fields: seq<Dependency>, n: nat, host: Host,
                       request: RequestContext?, ghost all: set<Container>, ghost g: Graph, ghost w: World)
      returns (r: Outcome, ghost w': World)
      requires this in all && Wired(all, g) && Shows(all, host, w) && Live(g, w) && Idle(g, w, g[id].height)
      requires Requested(w.log, Instances(request))
      requires Underway(g[id], w.cells[id], provider) && provider.recipe.Construct?
               && provider.recipe.fields == fields && n < |fields|
      modifies all`singletons, all`resolving, all`instances, all`builds, all`contexts, host,
               (if request == null then {} else {request})
      ensures Shows(all, host, w') && Live(g, w') && Inner(w, w')
      ensures Explained(g, w, w', request != null, r)
      ensures Founded(g, Reach(g, id, provider.token), None, r)
      ensures Traced(g, w, w', Reach(g, id, provider.token), old(Instances(request)), Instances(request))
      ensures NotFound(r) ==> !fields[n].optional && Missing(g, id, fields[n].token)
      ensures r.Ok? ==> Filled(g, w', id, fields[n], n, instance)
      decreases g[id].height, Free(g[id].providers, w.cells[id].resolving), 5
    {
      hide Traced, Reached, Scope, Reach, Requested, Served, Guarded, Tried, Wired, Live, Keeps, Sound, Made,
        Answered, Explained, MissingAt, Free, Requires, Asked, Inner, OwnResolved, Advance, Underway, With, Apart,
        Dag, Matches, Idle, Founded, Shows;
      hide Origin, Resolved, Resuming, Declared, Injected, Missing;
      var dep := fields[n];
      ghost var k;
      WiredHere(all, g);
      ShownHere(all, host, w);
      LiveDag(g, w);
      ResumingBegins(g, w, id, provider);
      FieldRequired(provider, n);
      AsksFor(g, w, id, provider, dep.token, n);
      ghost var scope, cached := Reach(g, id, provider.token), Instances(request);
      r, k, w' := Resolve(dep.token, None, host, request, all, g, w);
      TracedWider(g, w, w', Scope(g, id, dep.token), scope, cached, Instances(request));
      InnerKeeps(w, w');
      AskedOutcome(g, w, w', id, provider, dep.token, Instances(request), r, k);
      if r.Err? {
        DependencyFounded(g, w, id, provider, dep.token, r);
        if dep.optional && NotFoundError(r) {
          r := Ok(instance);
          NoError(g, w, w', request != null, instance);
          FoundedAnyway(g, scope, None, r);
        }
        return;
      }
      ghost var resolved, held := w', Instances(request);
      ResumingStays(g, w, resolved, id, provider);
      TracedFacts(g, w, resolved, scope, cached, held);
      r, w' := PutField(instance, provider, fields, n, r.value, host, request, all, g, resolved);
      InnerKeeps(resolved, w');
      InnerTransitive(w, resolved, w');
      TracedThen(g, w, resolved, w', scope, cached, held, held);
      ExplainedWider(g, w, resolved, w', w', request != null, r);
      FoundedAnyway(g, scope, None, r);
    }

    /** Puts what a field's token resolved to through the field's expression, and assigns it. */
    method PutField(instance: Value, provider: Normalized, fields: seq<Dependency>, n: nat, raw: Value, host: Host,
                    ghost request: RequestContext?, ghost all: set<Container>, ghost g: Graph, ghost w: World)
      returns (r: Outcome, ghost w': World)
      requires this in all && Wired(all, g) && Shows(all, host, w) && Live(g, w) && id in g && id in w.cells
      requires Requested(w.log, Instances(request)) && Underway(g[id], w.cells[id], provider)
      requires provider.recipe.Construct? && provider.recipe.fields == fields && n < |fields|
      requires Dag(g) && Origin(g, w, id, fields[n].token, raw)
      modifies host
      ensures Shows(all, host, w') && Live(g, w') && Inner(w, w')
      ensures Explained(g, w, w', request != null, r) && !NotFound(r)
      ensures r.Err? ==> r.error.Failed?
      ensures Traced(g, w, w', Reach(g, id, provider.token), Instances(request), Instances(request))
      ensures r.Ok? ==> Filled(g, w', id, fields[n], n, instance)
    {
      hide Traced, Reach, Requested, Wired, Live, Keeps, Explained, Inner, Underway, Advance, Dag, Origin, Injected,
        Missing, Expected;
      var dep, x := fields[n], raw;
      ghost var scope, held := Reach(g, id, provider.token), Instances(request);
      FieldEvents(g, w, id, provider, n);
      TracedNothing(g, w, w, scope, held);
      InnerItself(w);
      InnerKeeps(w, w);
      w' := w;
      if dep.expression.Some? {
        var reply := host.Invoke(Transform(dep.expression.value, raw));
        w' := w.(log := w.log + [Called(Transform(dep.expression.value, raw), reply)]);
        CallLive(g, w, Transform(dep.expression.value, raw), reply, 0);
        TracedThenEvent(g, w, w, Called(Transform(dep.expression.value, raw), reply), scope, held, held);
        match reply {
          case Throws(error) =>
            r := Err(Failed(error));
            ThrownExplained(g, w, Transform(dep.expression.value, raw), error, request != null);
            return;
          case Returns(value) => x := value;
        }
      }
      host.Assign(instance, n, x);
      ghost var evaluated := w';
      w' := evaluated.(log := evaluated.log + [Assigned(instance, n, x)]);
      AssignLive(g, w, w, evaluated, w', id, dep, n, instance, raw, x);
      TracedThenEvent(g, w, evaluated, Assigned(instance, n, x), scope, held, held);
      r := Ok(instance);
      NoError(g, w, w', request != null, instance);
    }
  }
}
