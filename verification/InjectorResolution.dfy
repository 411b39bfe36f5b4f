/** One resolution as a whole: which location answers, and what it leaves behind. */
module InjectorResolution {
  import opened Basics
  import opened InjectorGraph
  import opened InjectorState

  /** Where the value handed out for `token` is kept, by mode. */
  ghost predicate Delivered(cell: Cell, mode: Mode, token: Token, context: Option<string>,
                            request: Option<map<Token, Value>>, v: Value)
  {
    match mode
    case Singleton => token in cell.singletons && cell.singletons[token] == v
    case Transient =>
      (match context
       case None =>
         && cell.builds != [] && cell.builds[|cell.builds| - 1] == token
         && cell.instances != [] && cell.instances[|cell.instances| - 1] == v
       case Some(key) => key in cell.contexts && token in cell.contexts[key] && cell.contexts[key][token] == v)
    case Request => request.Some? && token in request.value && request.value[token] == v
  }

  /** Container `e` answered with `v`: it holds `v` for `token`, a transient outside a named
      context is a new instance, and a cached singleton is returned without any effect. */
  ghost predicate Answered(g: Graph, before: World, after: World, e: Id, token: Token, context: Option<string>,
                              request: Option<map<Token, Value>>, v: Value)
    requires e in g && token in g[e].providers && e in before.cells && e in after.cells
  {
    && HeldAt(g, after, e, token, v)
    && Delivered(after.cells[e], g[e].providers[token].mode, token, context, request, v)
    && (g[e].providers[token].mode == Transient && context == None ==>
          |before.cells[e].instances| < |after.cells[e].instances|)
  }

  /** Container `e` was passed over: its provider of `token` was not cached, was tried, and gave up for want
      of a required token. */
  ghost predicate PassedOver(g: Graph, before: World, after: World, e: Id, token: Token)
    requires Dag(g)
  {
    && e in before.cells && token !in before.cells[e].singletons
    && e in g && token in g[e].providers && Tried(g, after, e, g[e].providers[token])
  }

  /** What a provider that gave up left behind stays. */
  lemma PassedOverLater(g: Graph, before: World, middle: World, after: World, e: Id, token: Token)
    requires Dag(g) && Keeps(middle, after) && PassedOver(g, before, middle, e, token)
    ensures PassedOver(g, before, after, e, token)
  {
    hide Dag, Keeps, Tried;
    TriedGrows(g, middle, after, e, g[e].providers[token]);
  }

  /** What is passed over later was passed over from the start. */
  lemma PassedOverSooner(g: Graph, before: World, middle: World, after: World, e: Id, token: Token)
    requires Dag(g) && Keeps(before, middle) && PassedOver(g, middle, after, e, token)
    ensures PassedOver(g, before, after, e, token)
  {
    hide Dag, Tried;
    KeepsKeys(before, middle);
  }

  /** The outcome of resolving `token` in `c`. The location with index `k` answered, and every
      location before it was passed over; a token is not found only when all were. */
  ghost predicate Resolved(g: Graph, before: World, after: World, c: Id, token: Token, context: Option<string>,
                              request: Option<map<Token, Value>>, r: Outcome, k: nat)
    requires Dag(g) && c in g && before.cells.Keys == after.cells.Keys == g.Keys
  {
    var locations := Locations(g, c, token);
    && (NotFound(r) ==> forall e | e in locations :: PassedOver(g, before, after, e, token))
    && (!NotFound(r) ==>
          && k < |locations|
          && (forall i | 0 <= i < k :: PassedOver(g, before, after, locations[i], token))
          && locations[k] in g && token in g[locations[k]].providers
          && (r.Ok? ==> Answered(g, before, after, locations[k], token, context, request, r.value))
          && (r.Err? ==> token !in after.cells[locations[k]].singletons))
    && (locations == [] ==> after == before)
    && (locations != [] && locations[0] in before.cells && token in before.cells[locations[0]].singletons ==>
          after == before && k == 0 && r == Ok(before.cells[locations[0]].singletons[token]))
  }

  /** A value was returned, so it has an origin. */
  lemma ResolvedOrigin(g: Graph, before: World, after: World, c: Id, token: Token, context: Option<string>,
                          request: Option<map<Token, Value>>, r: Outcome, k: nat)
    requires Dag(g) && c in g && before.cells.Keys == after.cells.Keys == g.Keys
    requires Resolved(g, before, after, c, token, context, request, r, k)
    ensures r.Ok? ==> Origin(g, after, c, token, r.value)
    ensures NotFound(r) ==> Missing(g, c, token)
  {
    if NotFound(r) {
      forall e | e in Locations(g, c, token)
        ensures MissingAt(g, e, token)
      {
        TriedIsMissing(g, after, e, token);
      }
      MissingEverywhere(g, c, token);
    }
  }

  /** The part of `c`'s locations that its exporting children contribute from index `i` on,
      when those in `tried` came before. */
  ghost predicate Split(g: Graph, c: Id, token: Token, tried: seq<Id>, i: nat)
    requires Dag(g) && c in g && i <= |g[c].children|
  {
    && token !in g[c].providers
    && Locations(g, c, token) ==
       tried + ChildLocations(g, c, token, i) + (if SharedHas(g, c, token) then [g[c].shared.value] else [])
  }

  lemma {:induction false} SplitStep(g: Graph, c: Id, token: Token, tried: seq<Id>, i: nat)
    requires Dag(g) && c in g && i < |g[c].children| && Split(g, c, token, tried, i)
    ensures token !in g[g[c].children[i]].exports ==> Split(g, c, token, tried, i + 1)
    ensures token in g[g[c].children[i]].exports ==>
              Split(g, c, token, tried + Locations(g, g[c].children[i], token), i + 1)
  {
    var shared := if SharedHas(g, c, token) then [g[c].shared.value] else [];
    var d := g[c].children[i];
    var here := if token in g[d].exports then Locations(g, d, token) else [];
    assert ChildLocations(g, c, token, i) == here + ChildLocations(g, c, token, i + 1);
    assert tried + ChildLocations(g, c, token, i) + shared == (tried + here) + ChildLocations(g, c, token, i + 1)
             + shared;
    assert tried + [] == tried;
  }

  /** The answer of one import is the answer of the importer, when all before it were passed over. */
  lemma {:induction false} Climb(g: Graph, before: World, middle: World, after: World, c: Id, d: Id, token: Token,
                                 context: Option<string>, request: Option<map<Token, Value>>, r: Outcome, k: nat,
                                 tried: seq<Id>, rest: seq<Id>)
    requires Dag(g) && c in g && d in g && before.cells.Keys == middle.cells.Keys == after.cells.Keys == g.Keys
    requires Locations(g, c, token) == tried + Locations(g, d, token) + rest
    requires Keeps(before, middle) && Keeps(middle, after) && (tried == [] ==> middle == before)
    requires forall e | e in tried :: PassedOver(g, before, middle, e, token)
    requires Resolved(g, middle, after, d, token, context, request, r, k) && !NotFound(r)
    ensures Resolved(g, before, after, c, token, context, request, r, |tried| + k)
  {
    hide PassedOver, Tried, HeldAt;
    var all := Locations(g, c, token);
    var own := Locations(g, d, token);
    assert all[|tried| + k] == own[k];
    forall i | 0 <= i < |tried| + k
      ensures PassedOver(g, before, after, all[i], token)
    {
      if i < |tried| {
        assert all[i] in tried;
        PassedOverLater(g, before, middle, after, all[i], token);
      } else {
        assert all[i] == own[i - |tried|] && PassedOver(g, middle, after, own[i - |tried|], token);
        PassedOverSooner(g, before, middle, after, all[i], token);
      }
    }
    assert Kept(before.cells[own[k]], middle.cells[own[k]]);
    if tried != [] {
      assert all[0] == tried[0] && PassedOver(g, before, middle, tried[0], token);
      PassedOverUncached(g, before, middle, tried[0], token);
    } else {
      assert all[0] == own[0];
    }
  }

  lemma PassedOverUncached(g: Graph, before: World, after: World, e: Id, token: Token)
    requires Dag(g) && PassedOver(g, before, after, e, token)
    ensures e in before.cells && token !in before.cells[e].singletons
  {
  }

  /** Locations that were passed over one after another were all passed over. */
  lemma PassOverMore(g: Graph, before: World, middle: World, after: World, tried: seq<Id>, more: seq<Id>, token: Token)
    requires Dag(g) && Keeps(before, middle) && Keeps(middle, after)
    requires forall e | e in tried :: PassedOver(g, before, middle, e, token)
    requires forall e | e in more :: PassedOver(g, middle, after, e, token)
    ensures forall e | e in tried + more :: PassedOver(g, before, after, e, token)
  {
    hide PassedOver, Dag, Keeps;
    forall e | e in tried + more
      ensures PassedOver(g, before, after, e, token)
    {
      if e in tried {
        PassedOverLater(g, before, middle, after, e, token);
      } else {
        PassedOverSooner(g, before, middle, after, e, token);
      }
    }
  }

  // ------------------------------------------------------------ one construction

  ghost predicate Inner(v: World, w: World) {
    Advance(v, w) && SameContexts(v, w)
  }

  lemma InnerTransitive(u: World, v: World, w: World)
    requires Inner(u, v) && Inner(v, w)
    ensures Inner(u, w)
  {
    AdvanceTransitive(u, v, w);
  }

  ghost function Entered(w: World, c: Id, token: Token): World
    requires c in w.cells
  {
    With(w, c, Enter(w.cells[c], token))
  }

  ghost function Opened(w: World, c: Id, key: string): World
    requires c in w.cells
  {
    With(w, c, w.cells[c].(contexts := w.cells[c].contexts[key := map[]]))
  }

  lemma OpenSound(providers: map<Token, Normalized>, cell: Cell, key: string)
    requires Sound(providers, cell) && key !in cell.contexts
    ensures Sound(providers, cell.(contexts := cell.contexts[key := map[]]))
    ensures Kept(cell, cell.(contexts := cell.contexts[key := map[]]))
  {
    hide Requires;
    HeldSame(cell, cell.(contexts := cell.contexts[key := map[]]));
  }

  lemma OpenLive(g: Graph, w: World, c: Id, key: string)
    requires Live(g, w) && c in g && key !in w.cells[c].contexts
    ensures Live(g, Opened(w, c, key)) && Advance(w, Opened(w, c, key))
  {
    hide Accounted, Attested, Requires, Kept, Sound;
    var cell := w.cells[c].(contexts := w.cells[c].contexts[key := map[]]);
    OpenSound(g[c].providers, w.cells[c], key);
    WithLive(g, w, c, cell);
  }

  lemma BeginLive(g: Graph, w: World, c: Id, token: Token)
    requires Live(g, w) && c in g && token in g[c].providers
    requires token !in w.cells[c].resolving && token !in w.cells[c].singletons
    requires Asked(g[c].providers, w.cells[c], token)
    ensures Live(g, Entered(w, c, token)) && Keeps(w, Entered(w, c, token))
  {
    hide Accounted, Attested, Requires, Kept, Sound;
    assert Sound(g[c].providers, w.cells[c]);
    EnterSound(g[c].providers, w.cells[c], token);
    WithLive(g, w, c, Enter(w.cells[c], token));
  }

  /** After a construction in `c`, `cell` is all that is different from what it left. */
  lemma Return(g: Graph, start: World, built: World, c: Id, token: Token, cell: Cell)
    requires c in g && start.cells.Keys == built.cells.Keys == g.Keys
    requires Keeps(start, Entered(start, c, token)) && Inner(Entered(start, c, token), built)
    requires Kept(built.cells[c], cell) && cell.resolving == start.cells[c].resolving
    requires Keeps(built, With(built, c, cell))
    ensures var end := With(built, c, cell);
            Advance(start, end) && (cell.contexts == start.cells[c].contexts ==> Inner(start, end))
            && end.log == built.log && end.cells.Keys == g.Keys
  {
    hide Kept;
    KeepsTransitive(start, Entered(start, c, token), built);
    KeepsTransitive(start, built, With(built, c, cell));
    EnteredGuards(start, built, c, token);
    hide Keeps, Guarded;
  }

  /** What is guarded while a token more is in progress is guarded. */
  lemma EnteredGuards(start: World, built: World, c: Id, token: Token)
    requires c in start.cells && Guarded(Entered(start, c, token), built)
    ensures forall end: World | end.log == built.log :: Guarded(start, end)
  {
    forall i | |start.log| <= i < |built.log| && built.log[i].Provided? && built.log[i].maker in start.cells
      ensures built.log[i].token !in start.cells[built.log[i].maker].resolving
    {
      var e := built.log[i];
      assert forall t | t in start.cells[e.maker].resolving :: t in Entered(start, c, token).cells[e.maker].resolving;
    }
  }

  lemma BuiltFacts(start: World, built: World, c: Id, token: Token)
    requires c in start.cells && Keeps(start, Entered(start, c, token)) && Inner(Entered(start, c, token), built)
    ensures start.cells.Keys == built.cells.Keys && Kept(start.cells[c], built.cells[c])
    ensures built.cells[c].resolving == start.cells[c].resolving + [token]
            && built.cells[c].contexts == start.cells[c].contexts
  {
    hide Kept;
    KeptTransitive(start.cells[c], Enter(start.cells[c], token), built.cells[c]);
  }

  /** A construction that returned `v` leaves a lawful world in which `c` holds `v`. */
  lemma FinishLive(g: Graph, start: World, built: World, c: Id, token: Token, v: Value, context: Option<string>,
                      request: Option<map<Token, Value>>)
    requires Live(g, start) && c in g && token in g[c].providers && g[c].providers[token].mode != Request
    requires Keeps(start, Entered(start, c, token)) && Live(g, built) && Inner(Entered(start, c, token), built)
    requires g[c].providers[token].mode == Transient && context.Some? ==> token !in Cache(start.cells[c].contexts,
                 context.value)
    requires Made(g, built, c, g[c].providers[token], v)
    ensures c in start.cells && c in built.cells && built.cells[c].resolving == start.cells[c].resolving + [token]
    ensures built.cells[c].contexts == start.cells[c].contexts
    ensures var end :=
              With(built, c, Record(built.cells[c], start.cells[c].resolving, token, v, g[c].providers[token].mode,
                                    context));
            Live(g, end) && Advance(start, end)
            && (context == None || g[c].providers[token].mode != Transient ==> Inner(start, end))
            && end.log == built.log && end.cells.Keys == start.cells.Keys == g.Keys
            && Answered(g, start, end, c, token, context, request, v)
  {
    hide Made, MissingAt, Sound, Kept, Requires, Origin, Keeps, Inner, Entered;
    var p := g[c].providers[token];
    BuiltFacts(start, built, c, token);
    var rec := Record(built.cells[c], start.cells[c].resolving, token, v, p.mode, context);
    FinishCell(g[c].providers, start.cells[c], built.cells[c], token, v, context);
    RecordLive(g, built, c, rec, token, v);
    Return(g, start, built, c, token, rec);
  }

  lemma RecordLive(g: Graph, built: World, c: Id, rec: Cell, token: Token, v: Value)
    requires Live(g, built) && c in g && token in g[c].providers && Made(g, built, c, g[c].providers[token], v)
    requires Kept(built.cells[c], rec) && Sound(g[c].providers, rec)
    requires rec.builds == built.cells[c].builds + [token] && rec.instances == built.cells[c].instances + [v]
    requires |built.cells[c].builds| == |built.cells[c].instances|
    ensures Live(g, With(built, c, rec)) && Keeps(built, With(built, c, rec))
  {
    hide Made, Sound, Kept, Unstuck;
    MadeIsUnstuck(g, built, c, token, v);
    forall i | |built.cells[c].builds| <= i < |rec.builds|
      ensures Accounted(g, built, c, rec, i)
    {
      assert rec.builds[i] == token && rec.instances[i] == v;
    }
    WithLive(g, built, c, rec);
  }

  lemma FinishCell(providers: map<Token, Normalized>, start: Cell, built: Cell, token: Token, v: Value,
                   context: Option<string>)
    requires Kept(start, built) && Sound(providers, built) && built.resolving == start.resolving + [token]
    requires built.contexts == start.contexts
    requires token in providers && providers[token].mode != Request
    requires providers[token].mode == Transient && context.Some? ==> token !in Cache(start.contexts, context.value)
    ensures var rec := Record(built, start.resolving, token, v, providers[token].mode, context);
            Sound(providers, rec) && Kept(built, rec) && Held(rec, token, v) && rec.resolving == start.resolving
            && (context == None || providers[token].mode != Transient ==> rec.contexts == start.contexts)
            && |start.instances| < |rec.instances|
            && rec.builds == built.builds + [token] && rec.instances == built.instances + [v]
            && |built.builds| == |built.instances|
            && (providers[token].mode != Request ==> Delivered(rec, providers[token].mode, token, context, None, v))
  {
    hide Requires;
    RecordSound(providers, built, start.resolving, token, v, context);
  }

  lemma InProgressUncached(providers: map<Token, Normalized>, cell: Cell, rest: seq<Token>, token: Token)
    requires Sound(providers, cell) && cell.resolving == rest + [token]
    ensures token !in cell.singletons
  {
    hide Requires;
    LeaveProgress(providers, cell, rest, token);
  }

  /** A construction that failed, or whose result is kept by the request, leaves no trace in `c`. */
  lemma AbandonLive(g: Graph, start: World, built: World, c: Id, token: Token)
    requires Live(g, start) && c in g && token in g[c].providers
    requires Keeps(start, Entered(start, c, token)) && Live(g, built) && Inner(Entered(start, c, token), built)
    ensures c in start.cells && c in built.cells && built.cells[c].resolving == start.cells[c].resolving + [token]
    ensures var end := With(built, c, Leave(built.cells[c], start.cells[c].resolving));
            Live(g, end) && Inner(start, end) && Advance(start, end) && token !in end.cells[c].singletons
            && end.log == built.log && end.cells.Keys == start.cells.Keys == g.Keys
            && (Tried(g, built, c, g[c].providers[token]) ==> Tried(g, end, c, g[c].providers[token]))
  {
    hide Live, Requires, Kept, Sound, Tried, Keeps, Inner, Entered;
    LiveDag(g, start);
    LiveDag(g, built);
    LiveFacts(g, built, c);
    BuiltFacts(start, built, c, token);
    var cell := Leave(built.cells[c], start.cells[c].resolving);
    LeaveSound(g[c].providers, built.cells[c], start.cells[c].resolving, token);
    InProgressUncached(g[c].providers, built.cells[c], start.cells[c].resolving, token);
    WithLive(g, built, c, cell);
    Return(g, start, built, c, token, cell);
    if Tried(g, built, c, g[c].providers[token]) {
      TriedGrows(g, built, With(built, c, cell), c, g[c].providers[token]);
    }
  }

  /** Nothing is in progress in the containers below `height`. */
  ghost predicate Idle(g: Graph, w: World, height: nat) {
    forall d | d in g && d in w.cells && g[d].height < height :: w.cells[d].resolving == []
  }

  /** The provider belongs to the last token in progress. */
  ghost predicate Underway(node: Node, cell: Cell, provider: Normalized) {
    && cell.resolving != [] && cell.resolving[|cell.resolving| - 1] in node.providers
    && provider == node.providers[cell.resolving[|cell.resolving| - 1]]
  }

  /** How many of the container's tokens could still start. */
  ghost function Free(providers: map<Token, Normalized>, resolving: seq<Token>): nat {
    |providers.Keys - Elements(resolving)|
  }

  lemma FreeShrinks(providers: map<Token, Normalized>, resolving: seq<Token>, token: Token)
    requires token in providers && token !in resolving
    ensures Free(providers, resolving + [token]) < Free(providers, resolving)
  {
    assert Elements(resolving + [token]) == Elements(resolving) + {token};
    assert providers.Keys - Elements(resolving + [token]) == providers.Keys - Elements(resolving) - {token};
  }

  /** What the container's own provider of `token` answers. */
  ghost predicate OwnResolved(g: Graph, before: World, after: World, c: Id, token: Token, context: Option<string>,
                                     request: Option<map<Token, Value>>, r: Outcome)
    requires Dag(g) && c in g && before.cells.Keys == after.cells.Keys == g.Keys && token in g[c].providers
  {
    && (NotFound(r) ==> PassedOver(g, before, after, c, token))
    && (r.Ok? ==> Answered(g, before, after, c, token, context, request, r.value))
    && (r.Err? ==> token !in after.cells[c].singletons)
    && (token in before.cells[c].singletons ==> after == before && r == Ok(before.cells[c].singletons[token]))
  }

  lemma BuiltAnswer(g: Graph, before: World, after: World, c: Id, token: Token, context: Option<string>,
                           request: Option<map<Token, Value>>, r: Outcome)
    requires Dag(g) && c in g && before.cells.Keys == after.cells.Keys == g.Keys && token in g[c].providers
    requires token !in before.cells[c].singletons
    requires r.Ok? ==> Answered(g, before, after, c, token, context, request, r.value)
    requires NotFound(r) ==> Tried(g, after, c, g[c].providers[token])
    requires r.Err? ==> token !in after.cells[c].singletons
    ensures OwnResolved(g, before, after, c, token, context, request, r)
  {
    hide Tried, Answered;
  }

  /** A cached singleton is the answer, without any effect. */
  lemma CachedAnswer(g: Graph, w: World, c: Id, token: Token, context: Option<string>,
                     request: Option<map<Token, Value>>, inRequest: bool)
    requires Live(g, w) && c in g && token in g[c].providers && token in w.cells[c].singletons
    ensures var r := Ok(w.cells[c].singletons[token]);
            OwnResolved(g, w, w, c, token, context, request, r) && Inner(w, w) && Explained(g, w, w, inRequest, r)
  {
    hide Live, Sound, Held, Keeps;
    LiveFacts(g, w, c);
    CachedIsHeld(g[c].providers, w.cells[c], token);
    InnerItself(w);
  }

  lemma InnerAdvance(v: World, w: World)
    requires Inner(v, w)
    ensures Advance(v, w)
  {
  }

  lemma InnerItself(w: World)
    ensures Inner(w, w)
  {
    KeepsItself(w);
  }

  lemma ProgressIsCycle(g: Graph, w: World, c: Id, token: Token)
    requires Live(g, w) && c in g && c in w.cells && token in w.cells[c].resolving
             && Asked(g[c].providers, w.cells[c], token)
    ensures CycleWitness(g[c].providers, w.cells[c].resolving + [token]) && token in g[c].providers
  {
    hide Accounted, Attested, Requires, Recorded, ContextsHeld, Kept;
    var chain := w.cells[c].resolving + [token];
    assert InProgress(g[c].providers, w.cells[c]);
    ChainAppend(g[c].providers, w.cells[c].resolving, token);
    assert chain[..|chain| - 1] == w.cells[c].resolving;
  }

  lemma CircularIsReal(g: Graph, w: World, c: Id, token: Token, inRequest: bool, r: Outcome)
    requires Live(g, w) && c in g && c in w.cells && token in w.cells[c].resolving
             && Asked(g[c].providers, w.cells[c], token)
    requires r == Err(CircularDependency(w.cells[c].resolving + [token]))
    ensures Explained(g, w, w, inRequest, r) && Inner(w, w) && Advance(w, w)
  {
    hide Live, Asked, CycleWitness;
    InnerItself(w);
    ProgressIsCycle(g, w, c, token);
  }

  lemma CircularIsFounded(g: Graph, w: World, c: Id, token: Token)
    requires Live(g, w) && Dag(g) && c in g && c in w.cells && token in w.cells[c].resolving
             && Asked(g[c].providers, w.cells[c], token)
    ensures Founded(g, Scope(g, c, token), Some(token), Err(CircularDependency(w.cells[c].resolving + [token])))
  {
    hide Live, Asked, Dag, Reach, Scope, CycleWitness;
    ProgressIsCycle(g, w, c, token);
    OwnScope(g, c, token);
    ReachIsLeast(g, c, token);
  }

  lemma RequestIsFounded(g: Graph, c: Id, token: Token)
    requires Dag(g) && RequestScoped(g, c, token)
    ensures Founded(g, Reach(g, c, token), None, Err(NoRequestContext(token)))
  {
    hide Dag, Reach;
    ReachIsLeast(g, c, token);
  }

  /** An error of the dependency that a provider asked for is founded for the provider too. */
  lemma DependencyFounded(g: Graph, w: World, c: Id, p: Normalized, token: Token, r: Outcome)
    requires Dag(g) && c in g && c in w.cells && Underway(g[c], w.cells[c], p) && token in Declared(p)
    requires Founded(g, Scope(g, c, token), Some(token), r) && (NotFound(r) ==> Missing(g, c, token))
    requires Scope(g, c, token) <= Reach(g, c, p.token)
    ensures Founded(g, Reach(g, c, p.token), None, r)
  {
    hide Dag, Missing, Reach, Scope, Locations, CycleWitness;
    UnderwayOwn(g, w, c, p);
    ReachIsLeast(g, c, p.token);
    if NotFound(r) && r.error.token == token {
      assert WantsMissing(g, c, p.token, token);
    }
  }

  /** What the search asks an import, or the global container, is in its own scope. */
  lemma {:induction false} ChildScope(g: Graph, c: Id, token: Token, i: nat)
    requires Dag(g) && c in g && i < |g[c].children| && g[c].children[i] in g
    requires token !in g[c].providers && token in g[g[c].children[i]].exports
    ensures Scope(g, g[c].children[i], token) <= Scope(g, c, token)
  {
    hide Dag, Reach, Spans;
    ChildLocationsHave(g, c, token, 0, i);
    SpansMore(g, Locations(g, g[c].children[i], token), Locations(g, c, token), token);
  }

  lemma {:induction false} ChildLocationsHave(g: Graph, c: Id, token: Token, i: nat, j: nat)
    requires Dag(g) && c in g && i <= j < |g[c].children| && g[c].children[j] in g
    requires token in g[g[c].children[j]].exports
    ensures forall e | e in Locations(g, g[c].children[j], token) :: e in ChildLocations(g, c, token, i)
    decreases j - i
  {
    if i < j {
      ChildLocationsHave(g, c, token, i + 1, j);
    }
  }

  lemma SharedScope(g: Graph, c: Id, token: Token)
    requires Dag(g) && c in g && SharedHas(g, c, token) && token !in g[c].providers && g[c].shared.value in g
    ensures Scope(g, g[c].shared.value, token) <= Scope(g, c, token)
  {
    hide Reach, Spans, ChildLocations;
    LowerShared(g, c, token);
    SpansMore(g, Locations(g, g[c].shared.value, token), Locations(g, c, token), token);
  }

  lemma OwnIsResolved(g: Graph, before: World, after: World, c: Id, token: Token, context: Option<string>,
                             request: Option<map<Token, Value>>, r: Outcome)
    requires Dag(g) && c in g && before.cells.Keys == after.cells.Keys == g.Keys && token in g[c].providers
    requires OwnResolved(g, before, after, c, token, context, request, r)
    ensures Resolved(g, before, after, c, token, context, request, r, 0)
  {
    hide Answered, MissingAt;
    assert Locations(g, c, token) == [c];
  }

  lemma NotCached(g: Graph, w: World, c: Id, token: Token)
    requires Live(g, w) && c in g && c in w.cells && token in g[c].providers && g[c].providers[token].mode != Singleton
    ensures token !in w.cells[c].singletons && Dag(g) && w.cells.Keys == g.Keys
  {
    hide Accounted, Attested, Requires;
    assert Sound(g[c].providers, w.cells[c]);
  }

  /** Answers that need no construction: no request is running, or it has the instance. */
  lemma RequestAnswer(g: Graph, w: World, c: Id, token: Token, context: Option<string>,
                      request: Option<map<Token, Value>>, r: Outcome)
    requires Dag(g) && c in g && w.cells.Keys == g.Keys && token in g[c].providers
             && g[c].providers[token].mode == Request
    requires token !in w.cells[c].singletons && Requested(w.log, request)
    requires if request == None then r == Err(NoRequestContext(token))
             else token in request.value && r == Ok(request.value[token])
    ensures OwnResolved(g, w, w, c, token, context, request, r) && Explained(g, w, w, request != None, r)
    ensures Served(g, w, w, c, token, request, r)
  {
    hide ProvidedFor;
  }

  lemma RequestFailed(g: Graph, before: World, after: World, c: Id, token: Token, context: Option<string>,
                            cached: Option<map<Token, Value>>, request: Option<map<Token, Value>>, r: Outcome)
    requires Dag(g) && c in g && before.cells.Keys == after.cells.Keys == g.Keys && r.Err?
    requires token in g[c].providers && g[c].providers[token].mode == Request && token !in before.cells[c].singletons
    requires NotFound(r) ==> Tried(g, after, c, g[c].providers[token])
    requires token !in after.cells[c].singletons
    requires cached.Some? && token !in cached.value
    ensures Served(g, before, after, c, token, cached, r)
    ensures OwnResolved(g, before, after, c, token, context, request, r)
  {
    hide Tried;
  }

  // ---------------------------------------------------------------- request scope

  /** Whatever the running request holds was provided to it. */
  ghost predicate Requested(log: seq<Event>, a: Option<map<Token, Value>>) {
    a.Some? ==> forall t | t in a.value :: ProvidedFor(log, t, a.value[t])
  }

  /** The instances of a request after what was logged: the last one provided for each token. */
  ghost function Received(held: map<Token, Value>, events: seq<Event>): map<Token, Value> {
    if events == [] then held else
      var before, e := Received(held, events[..|events| - 1]), events[|events| - 1];
      if e.Provided? then before[e.token := e.instance] else before
  }

  ghost predicate NoneOf(tokens: set<Token>, events: seq<Event>) {
    forall i | 0 <= i < |events| && events[i].Provided? :: events[i].token !in tokens
  }

  /** The running request keeps its instances and receives exactly what is provided to it meanwhile, which is
      never for a token that it holds already. */
  ghost predicate RequestKept(before: seq<Event>, after: seq<Event>, a: Option<map<Token, Value>>,
                              b: Option<map<Token, Value>>) {
    && before <= after && a.Some? == b.Some?
    && (a.Some? ==> b.value == Received(a.value, after[|before|..]) && NoneOf(a.value.Keys, after[|before|..]))
    && (a.None? ==> Unserved(after[|before|..]))
  }

  lemma {:induction false} ReceivedJoin(held: map<Token, Value>, a: seq<Event>, b: seq<Event>)
    ensures Received(held, a + b) == Received(Received(held, a), b)
  {
    if b == [] {
      assert a + b == a;
    } else {
      assert (a + b)[..|a + b| - 1] == a + b[..|b| - 1];
      ReceivedJoin(held, a, b[..|b| - 1]);
    }
  }

  lemma {:induction false} ReceivedNothing(held: map<Token, Value>, events: seq<Event>)
    requires Unserved(events)
    ensures Received(held, events) == held
  {
    if events != [] {
      ReceivedNothing(held, events[..|events| - 1]);
    }
  }

  /** Every token provided is among those of the request then. */
  lemma {:induction false} ReceivedHas(held: map<Token, Value>, events: seq<Event>, i: nat)
    requires i < |events| && events[i].Provided?
    ensures events[i].token in Received(held, events)
    decreases |events|
  {
    if i < |events| - 1 {
      ReceivedHas(held, events[..|events| - 1], i);
    }
  }

  lemma {:induction false} ReceivedKeeps(held: map<Token, Value>, events: seq<Event>)
    ensures forall t | t in held :: t in Received(held, events)
    ensures NoneOf(held.Keys, events) ==> Submap(held, Received(held, events))
  {
    if events != [] {
      ReceivedKeeps(held, events[..|events| - 1]);
    }
  }

  /** A token that was not held was provided, and its instance is that of the last time. */
  lemma {:induction false} ReceivedFrom(held: map<Token, Value>, events: seq<Event>, t: Token) returns (i: nat)
    requires t !in held && t in Received(held, events)
    ensures i < |events| && events[i].Provided? && events[i].token == t
            && events[i].instance == Received(held, events)[t]
  {
    var n := |events| - 1;
    if events[n].Provided? && events[n].token == t {
      i := n;
    } else {
      i := ReceivedFrom(held, events[..n], t);
    }
  }

  lemma RequestKeeps(before: seq<Event>, after: seq<Event>, a: Option<map<Token, Value>>, b: Option<map<Token, Value>>)
    requires RequestKept(before, after, a, b)
    ensures a.Some? == b.Some? && (a.Some? ==> Submap(a.value, b.value))
  {
    hide Received;
    if a.Some? {
      ReceivedKeeps(a.value, after[|before|..]);
    }
  }

  lemma {:induction false} RequestSame(log: seq<Event>, more: seq<Event>, a: Option<map<Token, Value>>)
    requires log <= more && Unserved(more[|log|..])
    ensures RequestKept(log, more, a, a)
  {
    if a.Some? {
      ReceivedNothing(a.value, more[|log|..]);
    }
  }

  lemma {:induction false} RequestThen(u: seq<Event>, v: seq<Event>, w: seq<Event>, a: Option<map<Token, Value>>,
                                       b: Option<map<Token, Value>>, c: Option<map<Token, Value>>)
    requires RequestKept(u, v, a, b) && RequestKept(v, w, b, c)
    ensures RequestKept(u, w, a, c)
  {
    hide Received;
    assert w[|u|..] == v[|u|..] + w[|v|..];
    if a.Some? {
      ReceivedKeeps(a.value, v[|u|..]);
      ReceivedJoin(a.value, v[|u|..], w[|v|..]);
    }
  }

  lemma RequestedMore(log: seq<Event>, more: seq<Event>, a: Option<map<Token, Value>>)
    requires Requested(log, a) && log <= more
    ensures Requested(more, a)
  {
    if a.Some? {
      forall t | t in a.value
        ensures ProvidedFor(more, t, a.value[t])
      {
        var maker :| Provided(maker, t, a.value[t]) in log;
        assert Provided(maker, t, a.value[t]) in more;
      }
    }
  }

  /** Container `e` provided nothing for the token since the log had `from` entries. */
  ghost predicate NoneBy(log: seq<Event>, from: nat, e: Id, token: Token) {
    forall i | from <= i < |log| && log[i].Provided? :: !(log[i].maker == e && log[i].token == token)
  }

  /** During the call `e` made `v` from what there was in `built`, and put it among the instances of the
      request; it had not provided the token during the call before. */
  ghost predicate Constructed(g: Graph, before: World, built: World, after: World, e: Id, token: Token, v: Value) {
    && Live(g, built) && e in g && token in g[e].providers && Made(g, built, e, g[e].providers[token], v)
    && before.log <= built.log && after.log == built.log + [Provided(e, token, v)]
    && NoneBy(built.log, |before.log|, e, token)
  }

  /** What container `e` answers for its own request-scoped token. Outside requests that is an error; what the
      request held when it was asked is returned without any effect; and any other value is constructed. */
  ghost predicate Served(g: Graph, before: World, after: World, e: Id, token: Token,
                         cached: Option<map<Token, Value>>, r: Outcome) {
    match cached
    case None => after == before && r == Err(NoRequestContext(token))
    case Some(values) =>
      if token in values then after == before && r == Ok(values[token])
      else r.Ok? ==> exists built :: Constructed(g, before, built, after, e, token, r.value)
  }

  /** The instance made becomes the request's, over one that was provided during its construction. */
  lemma {:induction false} RequestMade(before: seq<Event>, log: seq<Event>, a: Option<map<Token, Value>>,
                                       b: Option<map<Token, Value>>, c: Id, token: Token, v: Value)
    requires a.Some? && token !in a.value && RequestKept(before, log, a, b) && Requested(log, b)
    ensures RequestKept(before, log + [Provided(c, token, v)], a, Some(b.value[token := v]))
    ensures Requested(log + [Provided(c, token, v)], Some(b.value[token := v]))
  {
    var more := log + [Provided(c, token, v)];
    RequestedMore(log, more, b);
    assert more[|log|] == Provided(c, token, v);
    assert ProvidedFor(more, token, v);
    assert more[|before|..] == log[|before|..] + [Provided(c, token, v)];
    assert more[|before|..][..|more[|before|..]| - 1] == log[|before|..];
  }

  // ------------------------------------------------------------------------ footprints

  /** The event comes from the provider of `t` in `d`. */
  ghost predicate Belongs(g: Graph, e: Event, d: Id, t: Token) {
    d in g && t in g[d].providers &&
    var recipe := g[d].providers[t].recipe;
    match e
    case Called(New(cls), _) => recipe.Construct? && recipe.cls == cls
    case Called(Factory(factory, _), _) => recipe.Call? && recipe.factory == factory
    case Called(Transform(x, _), _) => recipe.Construct? && exists i ::
        0 <= i < |recipe.fields| && recipe.fields[i].expression == Some(x)
    case Assigned(_, field, _) => recipe.Construct? && field < |recipe.fields|
    case Provided(maker, token, _) => maker == d && token == t
  }

  ghost predicate Expected(g: Graph, e: Event, s: set<(Id, Token)>) {
    exists d: Id, t: Token :: (d, t) in s && Belongs(g, e, d, t)
  }

  /** Whatever happened, and whatever was recorded, comes from these providers. */
  ghost predicate Stays(g: Graph, v: World, w: World, s: set<(Id, Token)>) {
    && (forall i | |v.log| <= i < |w.log| :: Expected(g, w.log[i], s))
    && (forall c: Id, i | c in v.cells && c in w.cells && |v.cells[c].builds| <= i < |w.cells[c].builds| ::
          (c, w.cells[c].builds[i]) in s)
  }

  lemma StaysThen(g: Graph, u: World, v: World, w: World, s: set<(Id, Token)>)
    requires Stays(g, u, v, s) && Stays(g, v, w, s) && Keeps(u, v) && Keeps(v, w)
    ensures Stays(g, u, w, s)
  {
    hide Expected;
    forall i | |u.log| <= i < |w.log|
      ensures Expected(g, w.log[i], s)
    {
      if i < |v.log| {
        assert w.log[i] == v.log[i];
      }
    }
    forall c: Id, i | c in u.cells && c in w.cells && |u.cells[c].builds| <= i < |w.cells[c].builds|
      ensures (c, w.cells[c].builds[i]) in s
    {
      assert Kept(v.cells[c], w.cells[c]);
      if i < |v.cells[c].builds| {
        assert w.cells[c].builds[i] == v.cells[c].builds[i];
      }
    }
  }

  lemma StaysWider(g: Graph, v: World, w: World, r: set<(Id, Token)>, s: set<(Id, Token)>)
    requires Stays(g, v, w, r) && r <= s
    ensures Stays(g, v, w, s)
  {
    hide Belongs;
    forall i | |v.log| <= i < |w.log|
      ensures Expected(g, w.log[i], s)
    {
      assert Expected(g, w.log[i], r);
    }
  }

  /** What a call did outside the containers' caches: it stayed among these providers, and the running
      request kept its instances and received what they provided. */
  ghost predicate Traced(g: Graph, v: World, w: World, s: set<(Id, Token)>, a: Option<map<Token, Value>>,
                         b: Option<map<Token, Value>>) {
    Stays(g, v, w, s) && RequestKept(v.log, w.log, a, b) && Requested(w.log, b)
  }

  lemma TracedThen(g: Graph, u: World, v: World, w: World, s: set<(Id, Token)>, a: Option<map<Token, Value>>,
                   b: Option<map<Token, Value>>, c: Option<map<Token, Value>>)
    requires Traced(g, u, v, s, a, b) && Traced(g, v, w, s, b, c) && Keeps(u, v) && Keeps(v, w)
    ensures Traced(g, u, w, s, a, c)
  {
    hide Stays, RequestKept, Requested, Keeps;
    StaysThen(g, u, v, w, s);
    RequestThen(u.log, v.log, w.log, a, b, c);
  }

  lemma TracedWider(g: Graph, v: World, w: World, r: set<(Id, Token)>, s: set<(Id, Token)>,
                    a: Option<map<Token, Value>>, b: Option<map<Token, Value>>)
    requires Traced(g, v, w, r, a, b) && r <= s
    ensures Traced(g, v, w, s, a, b)
  {
    hide Stays, RequestKept, Requested;
    StaysWider(g, v, w, r, s);
  }

  lemma TracedFacts(g: Graph, v: World, w: World, s: set<(Id, Token)>, a: Option<map<Token, Value>>,
                    b: Option<map<Token, Value>>)
    requires Traced(g, v, w, s, a, b)
    ensures Requested(w.log, b)
  {
  }

  /** One event more. */
  lemma TracedThenEvent(g: Graph, u: World, w: World, e: Event, s: set<(Id, Token)>, a: Option<map<Token, Value>>,
                        b: Option<map<Token, Value>>)
    requires Traced(g, u, w, s, a, b) && Keeps(u, w) && !e.Provided? && Expected(g, e, s)
    ensures Traced(g, u, w.(log := w.log + [e]), s, a, b) && Keeps(u, w.(log := w.log + [e]))
  {
    hide Traced, Expected, Kept;
    var x := w.(log := w.log + [e]);
    TracedFacts(g, u, w, s, a, b);
    TracedEvent(g, w, e, s, b);
    assert Keeps(w, x) by { KeepsMore(w, x.log); }
    KeepsTransitive(u, w, x);
    TracedThen(g, u, w, x, s, a, b, b);
  }

  lemma KeepsMore(w: World, log: seq<Event>)
    requires w.log <= log
    ensures Keeps(w, w.(log := log))
  {
  }

  /** Opening a named context records nothing. */
  lemma TracedFromContext(g: Graph, w: World, start: World, end: World, s: set<(Id, Token)>,
                          a: Option<map<Token, Value>>, b: Option<map<Token, Value>>)
    requires Traced(g, start, end, s, a, b) && SameRecords(w, start) && start.log == w.log
             && w.cells.Keys == start.cells.Keys
    ensures Traced(g, w, end, s, a, b)
  {
    hide Expected, RequestKept, Requested;
  }

  ghost predicate SameRecords(v: World, w: World) {
    forall c | c in v.cells && c in w.cells :: w.cells[c].builds == v.cells[c].builds
  }

  /** Nothing happened. */
  lemma TracedNothing(g: Graph, v: World, w: World, s: set<(Id, Token)>, a: Option<map<Token, Value>>)
    requires v.log == w.log && SameRecords(v, w) && Requested(w.log, a)
    ensures Traced(g, v, w, s, a, a)
  {
    hide Requested, RequestKept;
    assert w.log[|v.log|..] == [];
    RequestSame(v.log, w.log, a);
  }

  /** A call of application code, or an assignment. */
  lemma TracedEvent(g: Graph, w: World, e: Event, s: set<(Id, Token)>, a: Option<map<Token, Value>>)
    requires !e.Provided? && Expected(g, e, s) && Requested(w.log, a)
    ensures Traced(g, w, w.(log := w.log + [e]), s, a, a)
  {
    hide Requested, RequestKept, Expected;
    var more := w.log + [e];
    assert more[|w.log|..] == [e];
    RequestSame(w.log, more, a);
    RequestedMore(w.log, more, a);
  }

  /** The end of a construction: its token may be recorded now. */
  lemma TracedEnd(g: Graph, start: World, built: World, c: Id, token: Token, cell: Cell, s: set<(Id, Token)>,
                  a: Option<map<Token, Value>>, b: Option<map<Token, Value>>)
    requires c in start.cells && c in built.cells && Traced(g, Entered(start, c, token), built, s, a, b)
             && (c, token) in s
    requires cell.builds == built.cells[c].builds || cell.builds == built.cells[c].builds + [token]
    requires start.log == Entered(start, c, token).log
    ensures Traced(g, start, With(built, c, cell), s, a, b)
  {
    hide RequestKept, Requested, Expected;
    var end := With(built, c, cell);
    forall d: Id, i | d in start.cells && d in end.cells && |start.cells[d].builds| <= i < |end.cells[d].builds|
      ensures (d, end.cells[d].builds[i]) in s
    {
      assert Entered(start, c, token).cells[d].builds == start.cells[d].builds;
      if i < |built.cells[d].builds| {
        assert end.cells[d].builds[i] == built.cells[d].builds[i];
      }
    }
  }

  lemma TracedProvided(g: Graph, start: World, end: World, c: Id, token: Token, v: Value, s: set<(Id, Token)>,
                       a: Option<map<Token, Value>>, b: Option<map<Token, Value>>)
    requires Traced(g, start, end, s, a, b) && (c, token) in s && c in g && token in g[c].providers
    requires a.Some? && token !in a.value && b.Some?
    ensures Traced(g, start, end.(log := end.log + [Provided(c, token, v)]), s, a, Some(b.value[token := v]))
  {
    hide RequestKept, Requested;
    RequestMade(start.log, end.log, a, b, c, token, v);
    var done := end.(log := end.log + [Provided(c, token, v)]);
    forall i | |start.log| <= i < |done.log|
      ensures Expected(g, done.log[i], s)
    {
      if i < |end.log| {
        assert done.log[i] == end.log[i];
      } else {
        assert Belongs(g, done.log[i], c, token);
      }
    }
  }

  // ------------------------------------------------------------------ who serves a request

  /** The search passed over the containers in `tried`, which left `middle` and the instances `held`, and then
      `e` served the token from them. */
  ghost predicate ServedFrom(g: Graph, before: World, middle: World, after: World, tried: seq<Id>, e: Id, token: Token,
                             cached: Option<map<Token, Value>>, held: Option<map<Token, Value>>, r: Outcome)
    requires Dag(g)
  {
    && Live(g, middle) && Advance(before, middle) && Traced(g, before, middle, Spans(g, tried, token), cached, held)
    && (tried == [] ==> middle == before && held == cached)
    && (forall d | d in tried :: PassedOver(g, before, middle, d, token))
    && Served(g, middle, after, e, token, held, r)
  }

  /** A request is running and has no instance of the token, when the first of these containers is to make it
      for requests. */
  ghost predicate Unheld(g: Graph, es: seq<Id>, token: Token, cached: Option<map<Token, Value>>) {
    es != [] && RequestScoped(g, es[0], token) ==> cached.Some? && token !in cached.value
  }

  /** Who answers for a request-scoped token, and from what. The first container searched serves it at once from
      the instances of the request, or fails outside requests; any other answer comes after those passed over. */
  ghost predicate Reached(g: Graph, before: World, after: World, c: Id, token: Token,
                          cached: Option<map<Token, Value>>, r: Outcome, k: nat)
    requires Dag(g) && c in g
  {
    var ls := Locations(g, c, token);
    && (!Unheld(g, ls, token, cached) ==> Served(g, before, after, ls[0], token, cached, r))
    && (!NotFound(r) && k < |ls| && RequestScoped(g, ls[k], token) ==>
          exists middle, held :: ServedFrom(g, before, middle, after, ls[..k], ls[k], token, cached, held, r))
  }

  /** The first container's answer. */
  lemma {:induction false} ServedAtFirst(g: Graph, before: World, after: World, c: Id, token: Token,
                                         cached: Option<map<Token, Value>>, r: Outcome, k: nat)
    requires Dag(g) && c in g && Reached(g, before, after, c, token, cached, r, k)
    requires Locations(g, c, token) != [] && RequestScoped(g, Locations(g, c, token)[0], token)
    requires k == 0 || r.Err? || !Unheld(g, Locations(g, c, token), token, cached)
    ensures Served(g, before, after, Locations(g, c, token)[0], token, cached, r)
  {
    hide Dag, Locations, Constructed;
    if Unheld(g, Locations(g, c, token), token, cached) && r.Ok? {
      var middle, held :| ServedFrom(g, before, middle, after, Locations(g, c, token)[..k],
                                     Locations(g, c, token)[k], token, cached, held, r);
    }
  }

  lemma NoneUnheld(g: Graph, token: Token, cached: Option<map<Token, Value>>)
    ensures Unheld(g, [], token, cached)
  {
  }

  /** What was not found was not held. */
  lemma {:induction false} NotFoundUnheld(g: Graph, before: World, after: World, c: Id, token: Token,
                                          cached: Option<map<Token, Value>>, r: Outcome, k: nat)
    requires Dag(g) && c in g && Reached(g, before, after, c, token, cached, r, k) && NotFound(r)
    ensures Unheld(g, Locations(g, c, token), token, cached)
  {
    hide Dag, Locations;
  }

  lemma {:induction false} OwnReached(g: Graph, before: World, after: World, c: Id, token: Token,
                                      cached: Option<map<Token, Value>>, r: Outcome)
    requires Live(g, before) && Dag(g) && c in g && token in g[c].providers && Requested(before.log, cached)
    requires g[c].providers[token].mode == Request ==> Served(g, before, after, c, token, cached, r)
    ensures Reached(g, before, after, c, token, cached, r, 0)
  {
    hide Live, Dag, Served, PassedOver, Traced, Advance, Spans;
    assert Locations(g, c, token) == [c];
    TracedNothing(g, before, before, Spans(g, [], token), cached);
    InnerItself(before);
    InnerAdvance(before, before);
    assert Locations(g, c, token)[..0] == [];
    if RequestScoped(g, c, token) {
      assert ServedFrom(g, before, before, after, [], c, token, cached, cached, r);
    }
  }

  /** Nothing was located. */
  lemma {:induction false} NoneReached(g: Graph, before: World, after: World, c: Id, token: Token,
                                       cached: Option<map<Token, Value>>, r: Outcome, k: nat)
    requires Dag(g) && c in g && NotFound(r) && Unheld(g, Locations(g, c, token), token, cached)
    ensures Reached(g, before, after, c, token, cached, r, k)
  {
    hide Dag, Locations;
  }

  /** A later part of the search stays among what the whole search may come to. */
  lemma {:induction false} TracedOn(g: Graph, start: World, middle: World, w: World, tried: seq<Id>, more: seq<Id>,
                                    all: seq<Id>, token: Token, a: Option<map<Token, Value>>,
                                    b: Option<map<Token, Value>>, c: Option<map<Token, Value>>)
    requires Dag(g) && Keeps(start, middle) && Keeps(middle, w)
    requires Traced(g, start, middle, Spans(g, tried, token), a, b) && Traced(g, middle, w, Spans(g, more, token), b, c)
    requires (forall e | e in tried :: e in all) && (forall e | e in more :: e in all)
    ensures Traced(g, start, w, Spans(g, all, token), a, c)
  {
    hide Dag, Keeps, Traced, Spans;
    SpansMore(g, tried, all, token);
    SpansMore(g, more, all, token);
    TracedWider(g, start, middle, Spans(g, tried, token), Spans(g, all, token), a, b);
    TracedWider(g, middle, w, Spans(g, more, token), Spans(g, all, token), b, c);
    TracedThen(g, start, middle, w, Spans(g, all, token), a, b, c);
  }

  /** Who answered an import answered the importer, after all that was passed over before. */
  lemma {:induction false} ClimbReached(g: Graph, before: World, middle: World, after: World, c: Id, d: Id,
                                        token: Token, a: Option<map<Token, Value>>, b: Option<map<Token, Value>>,
                                        r: Outcome, k: nat, tried: seq<Id>, rest: seq<Id>)
    requires Dag(g) && c in g && d in g && Locations(g, c, token) == tried + Locations(g, d, token) + rest
    requires Live(g, middle) && Advance(before, middle) && (tried == [] ==> middle == before)
    requires Traced(g, before, middle, Spans(g, tried, token), a, b)
    requires forall e | e in tried :: PassedOver(g, before, middle, e, token)
    requires Reached(g, middle, after, d, token, b, r, k) && k < |Locations(g, d, token)| && Unheld(g, tried, token, a)
    ensures Reached(g, before, after, c, token, a, r, |tried| + k)
  {
    hide Live, Dag, Served, PassedOver, Traced, Advance, Spans, Locations;
    var all, own := Locations(g, c, token), Locations(g, d, token);
    if tried == [] {
      NothingReceived(g, before, Spans(g, tried, token), a, b);
      assert all[0] == own[0];
    } else {
      assert all[0] == tried[0];
    }
    if !NotFound(r) && RequestScoped(g, all[|tried| + k], token) {
      assert all[|tried| + k] == own[k];
      var late, held :| ServedFrom(g, middle, late, after, own[..k], own[k], token, b, held, r);
      assert all[..|tried| + k] == tried + own[..k];
      if tried == [] {
        assert tried + own[..k] == own[..k];
        assert ServedFrom(g, before, late, after, tried + own[..k], own[k], token, a, held, r);
      } else {
        AdvanceTransitive(before, middle, late);
        AdvanceKeeps(before, middle);
        AdvanceKeeps(middle, late);
        TracedOn(g, before, middle, late, tried, own[..k], tried + own[..k], token, a, b, held);
        PassOverMore(g, before, middle, late, tried, own[..k], token);
        assert ServedFrom(g, before, late, after, tried + own[..k], own[k], token, a, held, r);
      }
    }
  }

  lemma AdvanceKeeps(v: World, w: World)
    requires Advance(v, w)
    ensures Keeps(v, w)
  {
  }

  lemma {:induction false} NothingReceived(g: Graph, w: World, s: set<(Id, Token)>, a: Option<map<Token, Value>>,
                                           b: Option<map<Token, Value>>)
    requires Traced(g, w, w, s, a, b)
    ensures a == b
  {
    hide Stays;
    assert w.log[|w.log|..] == [];
  }

  /** Putting the finished instance among those of the request. */
  lemma ProvideLive(g: Graph, start: World, built: World, end: World, c: Id, token: Token, v: Value,
                    context: Option<string>, request: Option<map<Token, Value>>)
    requires Live(g, start) && Live(g, built) && Live(g, end) && Dag(g) && c in g && token in g[c].providers
             && g[c].providers[token].mode == Request
    requires c in start.cells && token !in start.cells[c].resolving && token !in start.cells[c].singletons
    requires start.log == Entered(start, c, token).log && Inner(Entered(start, c, token), built) && Inner(start, end)
    requires end.log == built.log && Made(g, built, c, g[c].providers[token], v) && Keeps(built, end)
    requires request.Some? && token in request.value && request.value[token] == v
    ensures var done := end.(log := end.log + [Provided(c, token, v)]);
            && Live(g, done) && Inner(start, done) && done.cells.Keys == start.cells.Keys == g.Keys
            && Constructed(g, start, built, done, c, token, v)
            && OwnResolved(g, start, done, c, token, context, request, Ok(v))
  {
    hide Live, Made, Dag, Sound, Kept, Unstuck;
    LiveDag(g, start);
    var e := Provided(c, token, v);
    var done := end.(log := end.log + [e]);
    MadeIsUnstuck(g, built, c, token, v);
    MadeGrows(g, built, end, c, g[c].providers[token], v);
    LogLive(g, end, done.log);
    GuardOne(start, end, done, c, token, v);
    NoneWhileMaking(start, built, c, token);
    assert done.log[|end.log|] == e;
    assert ProvidedFor(done.log, token, v);
  }

  /** A construction that returned `v`, put among the instances of the request and no longer in progress. */
  ghost function Placing(start: World, built: World, c: Id, token: Token, v: Value): World
    requires c in start.cells && c in built.cells
  {
    With(built.(log := built.log + [Provided(c, token, v)]), c, Leave(built.cells[c], start.cells[c].resolving))
  }

  lemma RequestBuilt(g: Graph, start: World, built: World, c: Id, token: Token, v: Value, context: Option<string>,
                     s: set<(Id, Token)>, a: Option<map<Token, Value>>, b: Option<map<Token, Value>>, inRequest: bool)
    requires Live(g, start) && Live(g, built) && Dag(g) && c in g && token in g[c].providers
             && g[c].providers[token].mode == Request
    requires c in start.cells && token !in start.cells[c].resolving && token !in start.cells[c].singletons
    requires start.log == Entered(start, c, token).log && Keeps(start, Entered(start, c, token))
             && Inner(Entered(start, c, token), built)
    requires Made(g, built, c, g[c].providers[token], v) && a.Some? && token !in a.value && b.Some?
    requires Traced(g, Entered(start, c, token), built, s, a, b) && (c, token) in s
    ensures c in built.cells && start.cells.Keys == g.Keys && built.cells[c].resolving == start.cells[c].resolving
              + [token]
    ensures var done, request := Placing(start, built, c, token, v), Some(b.value[token := v]);
            && Live(g, done) && Inner(start, done) && done.cells.Keys == g.Keys
            && Served(g, start, done, c, token, a, Ok(v)) && Explained(g, start, done, inRequest, Ok(v))
            && OwnResolved(g, start, done, c, token, context, request, Ok(v))
            && Traced(g, start, done, s, a, request)
  {
    hide Live, Made, Dag, Kept, Inner, Constructed, OwnResolved, Traced, Keeps, Entered, Tried;
    AbandonLive(g, start, built, c, token);
    LiveDag(g, built);
    var end := With(built, c, Leave(built.cells[c], start.cells[c].resolving));
    assert Keeps(built, end) by { KeptEach(built, c, start.cells[c].resolving); }
    TracedEnd(g, start, built, c, token, end.cells[c], s, a, b);
    TracedProvided(g, start, end, c, token, v, s, a, b);
    ProvideLive(g, start, built, end, c, token, v, context, Some(b.value[token := v]));
    assert end.(log := end.log + [Provided(c, token, v)]) == Placing(start, built, c, token, v);
  }

  lemma KeptEach(built: World, c: Id, rest: seq<Token>)
    requires c in built.cells
    ensures Keeps(built, With(built, c, Leave(built.cells[c], rest)))
  {
    var end := With(built, c, Leave(built.cells[c], rest));
    forall d | d in built.cells
      ensures Kept(built.cells[d], end.cells[d])
    {
      KeptItself(built.cells[d]);
    }
  }

  lemma GuardOne(start: World, end: World, done: World, c: Id, token: Token, v: Value)
    requires Inner(start, end) && done == end.(log := end.log + [Provided(c, token, v)])
    requires c in start.cells && token !in start.cells[c].resolving && Keeps(end, done)
    ensures Inner(start, done)
  {
    KeepsTransitive(start, end, done);
    hide Keeps;
  }

  lemma NoneWhileMaking(start: World, built: World, c: Id, token: Token)
    requires c in start.cells && Inner(Entered(start, c, token), built)
    ensures start.log <= built.log && NoneBy(built.log, |start.log|, c, token)
  {
    var entered := Entered(start, c, token);
    KeepsKeys(entered, built);
    assert token in entered.cells[c].resolving by { assert entered.cells[c].resolving[|start.cells[c].resolving|] ==
                                                     token; }
  }

  /** A provider's construction may begin. */
  lemma Began(g: Graph, w: World, c: Id, token: Token)
    requires Live(g, w) && c in g && token in g[c].providers && Idle(g, w, g[c].height)
    requires c in w.cells && token !in w.cells[c].resolving && token !in w.cells[c].singletons
    requires Asked(g[c].providers, w.cells[c], token)
    ensures var x := Entered(w, c, token);
            Live(g, x) && Keeps(w, x) && Dag(g) && g[c].providers[token].token == token && Idle(g, x, g[c].height)
              && Underway(g[c], x.cells[c], g[c].providers[token])
            && w.cells.Keys == x.cells.Keys == g.Keys && x.log == w.log
            && x.cells[c].resolving == w.cells[c].resolving + [token]
            && Free(g[c].providers, x.cells[c].resolving) < Free(g[c].providers, w.cells[c].resolving)
            && (c, token) in Reach(g, c, token)
  {
    hide Live, Keeps, Sound, Free, Asked, Reach, Enclosed;
    LiveFacts(g, w, c);
    BeginLive(g, w, c, token);
    ReachIsLeast(g, c, token);
    FreeShrinks(g[c].providers, w.cells[c].resolving, token);
  }

  // ------------------------------------------------- the search through imports

  /** The search for `token` from `c` has passed over the locations in `tried`, and imports
      from index `i` on are still to be asked. */
  ghost predicate Searching(g: Graph, start: World, w: World, c: Id, token: Token, context: Option<string>,
                            tried: seq<Id>, i: nat) {
    && Live(g, start) && Live(g, w) && c in g && i <= |g[c].children|
    && Advance(start, w) && (context.None? ==> Inner(start, w))
    && Idle(g, w, g[c].height)
    && Split(g, c, token, tried, i)
    && (tried == [] ==> w == start)
    && forall e | e in tried :: PassedOver(g, start, w, e, token)
  }

  lemma SearchBegins(g: Graph, w: World, c: Id, token: Token, context: Option<string>)
    requires Live(g, w) && c in g && token !in g[c].providers && Idle(g, w, g[c].height)
    ensures Searching(g, w, w, c, token, context, [], 0)
  {
    hide Sound, Accounted, Attested, MissingAt;
    InnerItself(w);
    assert [] + ChildLocations(g, c, token, 0) == ChildLocations(g, c, token, 0);
  }

  /** An import may be asked, and one that does not export the token is skipped. */
  lemma SearchStep(g: Graph, start: World, w: World, c: Id, token: Token, context: Option<string>, tried: seq<Id>,
                   i: nat)
    requires Searching(g, start, w, c, token, context, tried, i) && i < |g[c].children|
    ensures var d := g[c].children[i];
            && Dag(g) && d in g && d in w.cells && g[d].height < g[c].height && w.cells[d].resolving == []
            && Asked(g[d].providers, w.cells[d], token) && Idle(g, w, g[d].height) && Live(g, w)
            && (token !in g[d].exports ==> Searching(g, start, w, c, token, context, tried, i + 1))
  {
    hide Sound, Accounted, Attested, PassedOver, Inner, Advance, Split;
    SplitStep(g, c, token, tried, i);
  }

  lemma {:induction false} SearchAnswer(g: Graph, start: World, middle: World, w: World, c: Id, token: Token,
                                        context: Option<string>, request: Option<map<Token, Value>>, tried: seq<Id>,
                                        i: nat, r: Outcome, k: nat)
    requires Searching(g, start, middle, c, token, context, tried, i) && i < |g[c].children|
    requires Dag(g) && g[c].children[i] in g && token in g[g[c].children[i]].exports
    requires Live(g, w) && Advance(middle, w) && (context.None? ==> Inner(middle, w))
    requires middle.cells.Keys == w.cells.Keys == g.Keys
    requires Resolved(g, middle, w, g[c].children[i], token, context, request, r, k)
    ensures NotFound(r) ==> Searching(g, start, w, c, token, context, tried + Locations(g, g[c].children[i], token),
                                      i + 1)
    ensures start.cells.Keys == g.Keys
    ensures start.log <= middle.log
    ensures !NotFound(r) ==>
              && Resolved(g, start, w, c, token, context, request, r, |tried| + k)
              && Advance(start, w) && (context.None? ==> Inner(start, w))
  {
    hide Sound, Accounted, Attested, PassedOver, Answered, Locations, ChildLocations, Inner, Resolved, Split, Kept,
      Idle;
    SearchOn(g, start, middle, w, context);
    var d := g[c].children[i];
    SplitStep(g, c, token, tried, i);
    if NotFound(r) {
      NotFoundPasses(g, middle, w, d, token, context, request, r, k);
      PassOverMore(g, start, middle, w, tried, Locations(g, d, token), token);
      IdleStays(g, middle, w, g[c].height);
    } else {
      var rest := ChildLocations(g, c, token, i + 1) + (if SharedHas(g, c, token) then [g[c].shared.value] else []);
      assert Locations(g, c, token) == tried + Locations(g, d, token) + rest by { SplitFacts(g, c, token, tried, i); }
      Climb(g, start, middle, w, c, d, token, context, request, r, k, tried, rest);
    }
  }

  lemma {:induction false} SplitFacts(g: Graph, c: Id, token: Token, tried: seq<Id>, i: nat)
    requires Dag(g) && c in g && i < |g[c].children| && Split(g, c, token, tried, i)
             && token in g[g[c].children[i]].exports
    ensures Locations(g, c, token) == tried + Locations(g, g[c].children[i], token)
              + (ChildLocations(g, c, token, i + 1) + (if SharedHas(g, c, token) then [g[c].shared.value] else []))
  {
  }

  lemma SearchOn(g: Graph, start: World, middle: World, w: World, context: Option<string>)
    requires Advance(start, middle) && (context.None? ==> Inner(start, middle))
    requires Advance(middle, w) && (context.None? ==> Inner(middle, w))
    ensures Advance(start, w) && (context.None? ==> Inner(start, w))
    ensures start.cells.Keys == middle.cells.Keys && start.log <= middle.log && Keeps(start, middle)
  {
    AdvanceTransitive(start, middle, w);
    if context.None? {
      InnerTransitive(start, middle, w);
    }
    KeepsKeys(start, middle);
  }

  lemma IdleStays(g: Graph, v: World, w: World, height: nat)
    requires Advance(v, w) && Idle(g, v, height) && v.cells.Keys == g.Keys
    ensures Idle(g, w, height)
  {
    hide Keeps;
  }

  /** After a search that found nothing, all its locations are passed over, and none means no change. */
  lemma {:induction false} NotFoundPasses(g: Graph, before: World, after: World, c: Id, token: Token,
                                          context: Option<string>, request: Option<map<Token, Value>>, r: Outcome,
                                          k: nat)
    requires Dag(g) && c in g && before.cells.Keys == after.cells.Keys == g.Keys && NotFound(r)
    requires Resolved(g, before, after, c, token, context, request, r, k)
    ensures forall e | e in Locations(g, c, token) :: PassedOver(g, before, after, e, token)
    ensures Locations(g, c, token) == [] ==> after == before
  {
    hide PassedOver, Answered;
  }

  lemma {:induction false} SplitEnd(g: Graph, c: Id, token: Token, tried: seq<Id>)
    requires Dag(g) && c in g && Split(g, c, token, tried, |g[c].children|)
    ensures token !in g[c].providers
    ensures Locations(g, c, token) == if SharedHas(g, c, token) then tried + [g[c].shared.value] else tried
  {
    assert ChildLocations(g, c, token, |g[c].children|) == [];
    assert tried + [] == tried;
  }

  /** The global container may be asked when it provides the token. */
  lemma GlobalStep(g: Graph, start: World, w: World, c: Id, token: Token, context: Option<string>, tried: seq<Id>)
    requires c in g && Searching(g, start, w, c, token, context, tried, |g[c].children|)
    ensures Dag(g) && Live(g, w) && w.cells.Keys == start.cells.Keys == g.Keys
    ensures SharedHas(g, c, token) ==>
              var d := g[c].shared.value;
              && d in g && d in w.cells && g[d].height < g[c].height && w.cells[d].resolving == []
              && Asked(g[d].providers, w.cells[d], token) && Idle(g, w, g[d].height)
    ensures !SharedHas(g, c, token) ==>
              forall request :: Resolved(g, start, w, c, token, context, request, Err(TokenNotFound(token)), 0)
    ensures forall inRequest :: Explained(g, start, w, inRequest, Err(TokenNotFound(token)))
    ensures Advance(start, w) && (context.None? ==> Inner(start, w)) && start.log <= w.log
    ensures token !in g[c].providers
  {
    hide Sound, Accounted, Attested, PassedOver, SameContexts, Locations, Split, Kept, Made;
    KeepsKeys(start, w);
    SplitEnd(g, c, token, tried);
    assert tried != [] ==> tried[0] in tried;
    assert tried != [] && !SharedHas(g, c, token) ==> token !in start.cells[tried[0]].singletons by {
      if tried != [] { PassedOverUncached(g, start, w, tried[0], token); }
    }
  }

  lemma GlobalAnswer(g: Graph, start: World, middle: World, w: World, c: Id, token: Token, context: Option<string>,
                     request: Option<map<Token, Value>>, tried: seq<Id>, r: Outcome, k: nat)
    requires c in g && Searching(g, start, middle, c, token, context, tried, |g[c].children|)
    requires Dag(g) && SharedHas(g, c, token)
    requires Live(g, w) && Advance(middle, w) && (context.None? ==> Inner(middle, w))
    requires middle.cells.Keys == w.cells.Keys == g.Keys
    requires Resolved(g, middle, w, g[c].shared.value, token, context, request, r, k)
    ensures start.cells.Keys == g.Keys
    ensures Resolved(g, start, w, c, token, context, request, r, |tried| + k)
    ensures Advance(start, w) && (context.None? ==> Inner(start, w))
  {
    hide Sound, Accounted, Attested, PassedOver, SameContexts, Answered, ChildLocations, Split, Kept, Idle;
    var d := g[c].shared.value;
    AdvanceTransitive(start, middle, w);
    if context.None? {
      InnerTransitive(start, middle, w);
    }
    KeepsKeys(start, middle);
    SplitEnd(g, c, token, tried);
    assert Locations(g, d, token) == [d];
    assert tried + [d] == tried + [d] + [];
    if NotFound(r) {
      PassOverMore(g, start, middle, w, tried, [d], token);
      GlobalNotFound(g, start, middle, w, c, token, tried, r, k, context, request);
    } else {
      Climb(g, start, middle, w, c, d, token, context, request, r, k, tried, []);
    }
  }

  lemma {:induction false} GlobalNotFound(g: Graph, start: World, middle: World, w: World, c: Id, token: Token,
                                          tried: seq<Id>, r: Outcome, k: nat, context: Option<string>,
                                          request: Option<map<Token, Value>>)
    requires Dag(g) && c in g && start.cells.Keys == w.cells.Keys == g.Keys && NotFound(r)
    requires Locations(g, c, token) != [] && forall e | e in Locations(g, c, token) :: PassedOver(g, start, w, e, token)
    ensures Resolved(g, start, w, c, token, context, request, r, |tried| + k)
  {
    assert Locations(g, c, token)[0] in Locations(g, c, token);
  }

  /** An import answered: who it was. */
  lemma {:induction false} SearchReached(g: Graph, start: World, middle: World, w: World, c: Id, token: Token,
                                         context: Option<string>, request: Option<map<Token, Value>>, tried: seq<Id>,
                                         i: nat, r: Outcome, k: nat, a: Option<map<Token, Value>>,
                                         b: Option<map<Token, Value>>, e: Option<map<Token, Value>>)
    requires Searching(g, start, middle, c, token, context, tried, i) && i < |g[c].children| && Live(g, w)
             && Advance(middle, w)
    requires Dag(g) && g[c].children[i] in g && token in g[g[c].children[i]].exports && !NotFound(r)
    requires middle.cells.Keys == w.cells.Keys == g.Keys && Resolved(g, middle, w, g[c].children[i], token, context,
                 request, r, k)
    requires Traced(g, start, middle, Spans(g, tried, token), a, b) && Unheld(g, tried, token, a)
    requires Traced(g, middle, w, Scope(g, g[c].children[i], token), b, e)
             && Reached(g, middle, w, g[c].children[i], token, b, r, k)
    ensures Traced(g, start, w, Scope(g, c, token), a, e) && Reached(g, start, w, c, token, a, r, |tried| + k)
  {
    hide Live, Dag, Locations, Split, Inner, Traced, Reached, Spans, PassedOver, Answered, Keeps, Unheld, Idle;
    var d := g[c].children[i];
    var rest := ChildLocations(g, c, token, i + 1) + (if SharedHas(g, c, token) then [g[c].shared.value] else []);
    SplitFacts(g, c, token, tried, i);
    AdvanceKeeps(start, middle);
    AdvanceKeeps(middle, w);
    assert Locations(g, c, token) == tried + Locations(g, d, token) + rest;
    TracedOn(g, start, middle, w, tried, Locations(g, d, token), Locations(g, c, token), token, a, b, e);
    ClimbReached(g, start, middle, w, c, d, token, a, b, r, k, tried, rest);
  }

  /** An import had nothing: the search goes on. */
  lemma {:induction false} SearchOnward(g: Graph, start: World, middle: World, w: World, c: Id, token: Token,
                                        context: Option<string>, tried: seq<Id>, i: nat, r: Outcome, k: nat,
                                        a: Option<map<Token, Value>>, b: Option<map<Token, Value>>,
                                        e: Option<map<Token, Value>>)
    requires Searching(g, start, middle, c, token, context, tried, i) && i < |g[c].children| && Advance(middle, w)
    requires Dag(g) && g[c].children[i] in g && NotFound(r)
    requires Traced(g, start, middle, Spans(g, tried, token), a, b) && Unheld(g, tried, token, a)
    requires Traced(g, middle, w, Scope(g, g[c].children[i], token), b, e)
             && Reached(g, middle, w, g[c].children[i], token, b, r, k)
    ensures Traced(g, start, w, Spans(g, tried + Locations(g, g[c].children[i], token), token), a, e)
    ensures Unheld(g, tried + Locations(g, g[c].children[i], token), token, a)
  {
    hide Live, Dag, Locations, Split, Inner, Traced, Reached, Spans, PassedOver, Keeps, Idle;
    var d := g[c].children[i];
    AdvanceKeeps(start, middle);
    AdvanceKeeps(middle, w);
    TracedOn(g, start, middle, w, tried, Locations(g, d, token), tried + Locations(g, d, token), token, a, b, e);
    NotFoundUnheld(g, middle, w, d, token, b, r, k);
    if tried == [] {
      NothingReceived(g, start, Spans(g, tried, token), a, b);
      assert tried + Locations(g, d, token) == Locations(g, d, token);
    }
  }

  /** What the answer of an import means for the search. */
  lemma {:induction false} ImportAnswered(g: Graph, start: World, middle: World, w: World, c: Id, token: Token,
                                          context: Option<string>, tried: seq<Id>, i: nat, r: Outcome, k: nat,
                                          a: Option<map<Token, Value>>, b: Option<map<Token, Value>>,
                                          e: Option<map<Token, Value>>, inRequest: bool)
    requires Searching(g, start, middle, c, token, context, tried, i) && i < |g[c].children| && Live(g, middle)
             && Live(g, w)
    requires Dag(g) && g[c].children[i] in g && token in g[g[c].children[i]].exports
             && middle.cells.Keys == w.cells.Keys == g.Keys
    requires Advance(middle, w) && (context.None? ==> Inner(middle, w)) && Explained(g, middle, w, inRequest, r)
    requires Resolved(g, middle, w, g[c].children[i], token, context, e, r, k)
    requires Traced(g, start, middle, Spans(g, tried, token), a, b) && Unheld(g, tried, token, a)
    requires Traced(g, middle, w, Scope(g, g[c].children[i], token), b, e)
             && Reached(g, middle, w, g[c].children[i], token, b, r, k)
    ensures start.cells.Keys == g.Keys
    ensures NotFound(r) ==>
              var more := tried + Locations(g, g[c].children[i], token);
              && Searching(g, start, w, c, token, context, more, i + 1) && Unheld(g, more, token, a)
              && Traced(g, start, w, Spans(g, more, token), a, e)
    ensures !NotFound(r) ==>
              && Resolved(g, start, w, c, token, context, e, r, |tried| + k) && Advance(start, w)
              && (context.None? ==> Inner(start, w))
              && Explained(g, start, w, inRequest, r)
              && Traced(g, start, w, Scope(g, c, token), a, e) && Reached(g, start, w, c, token, a, r, |tried| + k)
  {
    hide Live, Dag, Locations, Inner, Traced, Reached, Spans, Keeps, Unheld, Searching, Resolved, Explained, Advance,
      Scope;
    SearchAnswer(g, start, middle, w, c, token, context, e, tried, i, r, k);
    if NotFound(r) {
      SearchOnward(g, start, middle, w, c, token, context, tried, i, r, k, a, b, e);
    } else {
      ExplainedWider(g, start, middle, w, w, inRequest, r);
      SearchReached(g, start, middle, w, c, token, context, e, tried, i, r, k, a, b, e);
    }
  }

  lemma {:induction false} GlobalReached(g: Graph, start: World, middle: World, w: World, c: Id, token: Token,
                                         context: Option<string>, request: Option<map<Token, Value>>, tried: seq<Id>,
                                         r: Outcome, k: nat, a: Option<map<Token, Value>>,
                                         b: Option<map<Token, Value>>, e: Option<map<Token, Value>>)
    requires c in g && Searching(g, start, middle, c, token, context, tried, |g[c].children|) && Live(g, w)
             && Advance(middle, w)
    requires Dag(g) && SharedHas(g, c, token) && middle.cells.Keys == w.cells.Keys == g.Keys
    requires Resolved(g, middle, w, g[c].shared.value, token, context, request, r, k)
    requires Traced(g, start, middle, Spans(g, tried, token), a, b) && Unheld(g, tried, token, a)
    requires Traced(g, middle, w, Scope(g, g[c].shared.value, token), b, e)
             && Reached(g, middle, w, g[c].shared.value, token, b, r, k)
    ensures Traced(g, start, w, Scope(g, c, token), a, e) && Reached(g, start, w, c, token, a, r, |tried| + k)
  {
    hide Live, Dag, Split, Inner, Traced, Reached, Spans, PassedOver, Answered, Keeps, Unheld, ChildLocations, Idle;
    var d := g[c].shared.value;
    LowerShared(g, c, token);
    SplitEnd(g, c, token, tried);
    AdvanceKeeps(start, middle);
    AdvanceKeeps(middle, w);
    assert Locations(g, d, token) == [d];
    hide Locations;
    assert Locations(g, c, token) == tried + Locations(g, d, token) + [];
    TracedOn(g, start, middle, w, tried, [d], Locations(g, c, token), token, a, b, e);
    if NotFound(r) {
      NotFoundUnheld(g, middle, w, d, token, b, r, k);
      GlobalUnheld(g, start, middle, c, token, tried, a, b, d);
      NoneReached(g, start, w, c, token, a, r, |tried| + k);
    } else {
      ClimbReached(g, start, middle, w, c, d, token, a, b, r, k, tried, []);
    }
  }

  lemma {:induction false} GlobalUnheld(g: Graph, start: World, middle: World, c: Id, token: Token, tried: seq<Id>,
                                        a: Option<map<Token, Value>>, b: Option<map<Token, Value>>, d: Id)
    requires Dag(g) && c in g && Locations(g, c, token) == tried + [d] && (tried == [] ==> middle == start)
    requires Traced(g, start, middle, Spans(g, tried, token), a, b) && Unheld(g, tried, token, a)
             && Unheld(g, [d], token, b)
    ensures Unheld(g, Locations(g, c, token), token, a)
  {
    hide Dag, Locations, Traced, Spans;
    if tried == [] {
      NothingReceived(g, start, Spans(g, tried, token), a, b);
    }
  }

  /** Nothing was found anywhere. */
  lemma {:induction false} SearchReachedNone(g: Graph, start: World, w: World, c: Id, token: Token,
                                             context: Option<string>, tried: seq<Id>, r: Outcome,
                                             a: Option<map<Token, Value>>, b: Option<map<Token, Value>>)
    requires c in g && Searching(g, start, w, c, token, context, tried, |g[c].children|) && Dag(g)
             && !SharedHas(g, c, token) && NotFound(r)
    requires Traced(g, start, w, Spans(g, tried, token), a, b) && Unheld(g, tried, token, a)
    ensures Traced(g, start, w, Scope(g, c, token), a, b) && Reached(g, start, w, c, token, a, r, 0)
  {
    hide Live, Dag, Split, Inner, Traced, Reached, Spans, PassedOver, Locations, Unheld, Idle, Advance;
    SplitEnd(g, c, token, tried);
    NoneReached(g, start, w, c, token, a, r, 0);
  }

  // ------------------------------------------------------------- named contexts

  /** The context exists now, and nothing else is different. */
  lemma ContextReady(g: Graph, w: World, start: World, c: Id, token: Token, key: string)
    requires Live(g, w) && c in g && c in w.cells && Idle(g, w, g[c].height) && Asked(g[c].providers, w.cells[c], token)
    requires token in g[c].providers && g[c].providers[token].mode == Transient && token !in w.cells[c].resolving
    requires start == if key in w.cells[c].contexts then w else Opened(w, c, key)
    ensures Live(g, start) && Advance(w, start) && Idle(g, start, g[c].height) && c in start.cells && Dag(g)
    ensures start.cells.Keys == w.cells.Keys == g.Keys && start.log == w.log && key in start.cells[c].contexts
    ensures start.cells[c].resolving == w.cells[c].resolving && token !in start.cells[c].singletons
    ensures start.cells[c].singletons == w.cells[c].singletons && |w.cells[c].instances| == |start.cells[c].instances|
    ensures SameRecords(w, start)
    ensures Asked(g[c].providers, start.cells[c], token)
  {
    hide Live, Requires, Kept, Guarded, SameRecords;
    LiveDag(g, w);
    if key !in w.cells[c].contexts {
      OpenLive(g, w, c, key);
      assert SameRecords(w, start) by { OpenedSame(w, c, key); }
    } else {
      InnerItself(w);
      assert SameRecords(w, start) by { SameItself(w); }
    }
    NotCached(g, start, c, token);
  }

  lemma OpenedSame(w: World, c: Id, key: string)
    requires c in w.cells
    ensures SameRecords(w, Opened(w, c, key))
  {
  }

  lemma SameItself(w: World)
    ensures SameRecords(w, w)
  {
  }

  /** The instance already cached in the context. */
  lemma ContextAnswer(g: Graph, w: World, start: World, c: Id, token: Token, key: string,
                      request: Option<map<Token, Value>>, inRequest: bool)
    requires Live(g, start) && c in g && c in start.cells && key in start.cells[c].contexts
             && token in start.cells[c].contexts[key]
    requires token in g[c].providers && w.cells.Keys == start.cells.Keys == g.Keys && Dag(g)
    requires token !in w.cells[c].singletons
    ensures var r := Ok(start.cells[c].contexts[key][token]);
            OwnResolved(g, w, start, c, token, Some(key), request, r) && Explained(g, w, start, inRequest, r)
  {
    hide Live, Requires, Dag, InProgress, Recorded, Held;
    LiveFacts(g, start, c);
  }

  lemma ContextBuilt(g: Graph, w: World, start: World, end: World, c: Id, token: Token, context: Option<string>,
                     request: Option<map<Token, Value>>, inRequest: bool, r: Outcome)
    requires Dag(g) && c in g && w.cells.Keys == start.cells.Keys == end.cells.Keys == g.Keys && token in g[c].providers
    requires Advance(w, start) && Advance(start, end) && context.Some? && w.log == start.log
    requires token !in start.cells[c].singletons && start.cells[c].singletons == w.cells[c].singletons
    requires |w.cells[c].instances| == |start.cells[c].instances|
    requires Explained(g, start, end, inRequest, r) && OwnResolved(g, start, end, c, token, context, request, r)
    ensures OwnResolved(g, w, end, c, token, context, request, r) && Explained(g, w, end, inRequest, r)
            && Advance(w, end)
  {
    hide Tried, Delivered, HeldAt, Keeps;
    AdvanceTransitive(w, start, end);
    ExplainedWider(g, w, start, end, end, inRequest, r);
  }

  // ---------------------------------------------------------- during a construction

  /** Calls to application code keep everything in place. */
  lemma CallLive(g: Graph, w: World, call: Foreign, reply: Reply, height: nat)
    requires Live(g, w)
    ensures var x := w.(log := w.log + [Called(call, reply)]);
            Live(g, x) && Inner(w, x) && (Idle(g, w, height) ==> Idle(g, x, height))
              && x.log[|w.log|] == Called(call, reply)
  {
    hide Sound, Accounted, Attested;
    EventLive(g, w, Called(call, reply));
  }

  /** The field's value is recorded as assigned. */
  lemma AssignLive(g: Graph, start: World, resolved: World, evaluated: World, end: World, c: Id, dep: Dependency,
                   field: nat, v: Value, raw: Value, x: Value)
    requires Live(g, evaluated) && c in g && Dag(g) && Inner(start, evaluated) && Origin(g, resolved, c, dep.token, raw)
    requires end == evaluated.(log := evaluated.log + [Assigned(v, field, x)])
    requires if dep.expression.Some?
             then Inner(resolved, evaluated)
               && Called(Transform(dep.expression.value, raw), Returns(x)) in evaluated.log
             else evaluated == resolved && x == raw
    ensures Live(g, end) && Inner(start, end) && Injected(g, end, c, dep, field, v)
  {
    hide Sound, Accounted, Attested, Origin, Kept, Dag;
    EventLive(g, evaluated, Assigned(v, field, x));
    InnerTransitive(start, evaluated, end);
    OriginThrough(g, resolved, evaluated, end, c, dep.token, raw);
    assert end.log[|evaluated.log|] == Assigned(v, field, x);
    if dep.expression.Some? {
      var i :| 0 <= i < |evaluated.log| && evaluated.log[i] == Called(Transform(dep.expression.value, raw), Returns(x));
      assert end.log[i] == evaluated.log[i];
    }
  }

  lemma OriginThrough(g: Graph, resolved: World, evaluated: World, end: World, c: Id, token: Token, raw: Value)
    requires Dag(g) && c in g && Origin(g, resolved, c, token, raw)
    requires resolved == evaluated || Inner(resolved, evaluated)
    requires Inner(evaluated, end)
    ensures Origin(g, end, c, token, raw)
  {
    hide Origin, Dag;
    if resolved != evaluated {
      OriginGrows(g, resolved, evaluated, c, token, raw);
    }
    OriginGrows(g, evaluated, end, c, token, raw);
  }

  lemma ThrownExplained(g: Graph, w: World, call: Foreign, error: int, inRequest: bool)
    ensures Explained(g, w, w.(log := w.log + [Called(call, Throws(error))]), inRequest, Err(Failed(error)))
  {
    var x := w.(log := w.log + [Called(call, Throws(error))]);
    assert x.log[|w.log|] == Called(call, Throws(error));
  }

  lemma NoError(g: Graph, v: World, w: World, inRequest: bool, x: Value)
    ensures Explained(g, v, w, inRequest, Ok(x)) && !NotFound(Ok(x))
  {
  }

  lemma GiveMade(g: Graph, w: World, c: Id, p: Normalized, v: Value, inRequest: bool)
    requires Dag(g) && c in g && p.recipe == Give(v)
    ensures Made(g, w, c, p, v) && Inner(w, w) && Explained(g, w, w, inRequest, Ok(v))
  {
    InnerItself(w);
  }

  lemma ConstructMade(g: Graph, w: World, made: World, end: World, c: Id, p: Normalized, v: Value, inRequest: bool,
                      r: Outcome)
    requires Dag(g) && c in g && p.recipe.Construct? && Inner(w, made) && Inner(made, end)
    requires made.log == w.log + [Called(New(p.recipe.cls), Returns(v))]
    requires Explained(g, made, end, inRequest, r)
    requires r.Ok? ==> r.value == v && forall i | 0 <= i < |p.recipe.fields| ::
               Filled(g, end, c, p.recipe.fields[i], i, v)
    requires NotFound(r) ==> exists n: nat :: FilledUpTo(g, end, c, p.recipe.fields, v, n)
    ensures Inner(w, end) && Explained(g, w, end, inRequest, r) && (r.Ok? ==> Made(g, end, c, p, r.value))
    ensures NotFound(r) ==> Tried(g, end, c, p)
  {
    hide Filled, FilledUpTo, Kept, Dag;
    InnerTransitive(w, made, end);
    KeepsKeys(made, end);
    ExplainedWider(g, w, made, end, end, inRequest, r);
    assert end.log[|w.log|] == made.log[|w.log|] == Called(New(p.recipe.cls), Returns(v));
    if NotFound(r) {
      var n: nat :| FilledUpTo(g, end, c, p.recipe.fields, v, n);
      assert StoppedAtField(g, end, c, p.recipe.cls, p.recipe.fields, v, n);
    }
  }

  lemma CallMade(g: Graph, w: World, middle: World, end: World, c: Id, p: Normalized, args: seq<Value>, reply: Reply,
                 inRequest: bool, r: Outcome)
    requires Dag(g) && c in g && p.recipe.Call? && Inner(w, middle) && Inner(middle, end)
    requires end.log == middle.log + [Called(Factory(p.recipe.factory, args), reply)]
    requires |args| == |p.recipe.inject| && forall i | 0 <= i < |args| ::
               Origin(g, middle, c, p.recipe.inject[i], args[i])
    requires r == match reply case Throws(error) => Err(Failed(error)) case Returns(value) => Ok(value)
    ensures Inner(w, end) && Explained(g, w, end, inRequest, r) && !NotFound(r)
            && (r.Ok? ==> Made(g, end, c, p, r.value))
  {
    hide Origin, Kept, Dag;
    InnerTransitive(w, middle, end);
    KeepsKeys(w, middle);
    assert end.log[|middle.log|] == Called(Factory(p.recipe.factory, args), reply);
    forall i | 0 <= i < |args|
      ensures Origin(g, end, c, p.recipe.inject[i], args[i])
    {
      OriginGrows(g, middle, end, c, p.recipe.inject[i], args[i]);
    }
    if r.Ok? {
      assert CalledWith(g, end, c, p.recipe.factory, p.recipe.inject, args, r.value);
    }
  }

  lemma AliasMade(g: Graph, w: World, c: Id, p: Normalized, target: Token, r: Outcome)
    requires Dag(g) && c in g && p.recipe == Alias(target)
    requires r.Ok? ==> Origin(g, w, c, target, r.value)
    requires NotFound(r) ==> Missing(g, c, target)
    ensures r.Ok? ==> Made(g, w, c, p, r.value)
    ensures NotFound(r) ==> Tried(g, w, c, p)
  {
    hide Origin, Missing;
  }

  /** The provider in progress asks for a token it declares. */
  lemma {:induction false} AsksFor(g: Graph, w: World, c: Id, p: Normalized, token: Token, n: nat)
    requires Dag(g) && c in g && c in w.cells && Underway(g[c], w.cells[c], p)
    requires n < |Declared(p)| && Declared(p)[n] == token
    ensures Asked(g[c].providers, w.cells[c], token) && Scope(g, c, token) <= Reach(g, c, p.token)
  {
    hide Scope, Reach, Locations;
    UnderwayOwn(g, w, c, p);
    DeclaredInReach(g, c, p.token, token);
  }

  lemma UnderwayOwn(g: Graph, w: World, c: Id, p: Normalized)
    requires Dag(g) && c in g && c in w.cells && Underway(g[c], w.cells[c], p)
    ensures p.token in g[c].providers && g[c].providers[p.token] == p
  {
  }

  lemma FieldEvents(g: Graph, w: World, c: Id, p: Normalized, n: nat)
    requires Dag(g) && c in g && c in w.cells && Underway(g[c], w.cells[c], p) && p.recipe.Construct?
             && n < |p.recipe.fields|
    ensures forall v, x :: Expected(g, Assigned(v, n, x), Reach(g, c, p.token))
    ensures forall x, input, reply | p.recipe.fields[n].expression == Some(x) ::
              Expected(g, Called(Transform(x, input), reply), Reach(g, c, p.token))
  {
    hide Reach, Expected;
    UnderwayOwn(g, w, c, p);
    forall v, x
      ensures Expected(g, Assigned(v, n, x), Reach(g, c, p.token))
    {
      OwnEvent(g, w, c, p, Assigned(v, n, x));
    }
    forall x, input, reply | p.recipe.fields[n].expression == Some(x)
      ensures Expected(g, Called(Transform(x, input), reply), Reach(g, c, p.token))
    {
      OwnEvent(g, w, c, p, Called(Transform(x, input), reply));
    }
  }

  /** What the provider in progress calls is within its reach. */
  lemma CallEvents(g: Graph, w: World, c: Id, p: Normalized)
    requires Dag(g) && c in g && c in w.cells && Underway(g[c], w.cells[c], p)
    ensures p.recipe.Construct? ==> forall reply :: Expected(g, Called(New(p.recipe.cls), reply), Reach(g, c, p.token))
    ensures p.recipe.Call? ==> forall args, reply :: Expected(g, Called(Factory(p.recipe.factory, args), reply),
                Reach(g, c, p.token))
  {
    hide Reach, Expected;
    UnderwayOwn(g, w, c, p);
    if p.recipe.Construct? {
      forall reply
        ensures Expected(g, Called(New(p.recipe.cls), reply), Reach(g, c, p.token))
      {
        OwnEvent(g, w, c, p, Called(New(p.recipe.cls), reply));
      }
    }
    if p.recipe.Call? {
      forall args, reply
        ensures Expected(g, Called(Factory(p.recipe.factory, args), reply), Reach(g, c, p.token))
      {
        OwnEvent(g, w, c, p, Called(Factory(p.recipe.factory, args), reply));
      }
    }
  }

  /** What the provider in progress does itself is within its reach. */
  lemma {:induction false} OwnEvent(g: Graph, w: World, c: Id, p: Normalized, e: Event)
    requires Dag(g) && c in g && c in w.cells && Underway(g[c], w.cells[c], p) && Belongs(g, e, c, p.token)
    ensures Expected(g, e, Reach(g, c, p.token))
  {
    hide Reach, Belongs, Locations, Enclosed;
    UnderwayOwn(g, w, c, p);
    ReachIsLeast(g, c, p.token);
  }

  /** What resolving a declared token tells about the provider that asked for it. */
  lemma AskedOutcome(g: Graph, before: World, after: World, c: Id, p: Normalized, token: Token,
                     request: Option<map<Token, Value>>, r: Outcome, k: nat)
    requires Live(g, before) && Live(g, after) && c in g && Underway(g[c], before.cells[c], p)
    requires token !in before.cells[c].resolving ==> Resolved(g, before, after, c, token, None, request, r, k)
    requires token in before.cells[c].resolving ==> r == Err(CircularDependency(before.cells[c].resolving + [token]))
    ensures Dag(g) && (r.Ok? ==> Origin(g, after, c, token, r.value))
    ensures NotFound(r) ==> Missing(g, c, token)
  {
    hide Sound, Accounted, Attested, Locations, Answered;
    if token !in before.cells[c].resolving {
      ResolvedOrigin(g, before, after, c, token, None, request, r, k);
    }
  }

  /** Between the dependencies of one provider. */
  ghost predicate Resuming(g: Graph, start: World, w: World, c: Id, p: Normalized) {
    && Live(g, w) && c in g && start.cells.Keys == w.cells.Keys == g.Keys && Inner(start, w)
    && Idle(g, w, g[c].height) && Underway(g[c], w.cells[c], p)
    && w.cells[c].resolving == start.cells[c].resolving
  }

  lemma ResumingFacts(g: Graph, start: World, w: World, c: Id, p: Normalized)
    requires Resuming(g, start, w, c, p)
    ensures Dag(g) && Live(g, w) && c in g && start.cells.Keys == w.cells.Keys == g.Keys && Inner(start, w)
    ensures Idle(g, w, g[c].height) && Underway(g[c], w.cells[c], p) && w.cells[c].resolving == start.cells[c].resolving
  {
  }

  /** A call within leaves the provider in progress. */
  lemma ResumingStays(g: Graph, v: World, w: World, c: Id, p: Normalized)
    requires Inner(v, w) && c in g && c in v.cells && Underway(g[c], v.cells[c], p)
    ensures c in w.cells && Underway(g[c], w.cells[c], p) && v.log <= w.log
  {
    KeepsKeys(v, w);
  }

  lemma ResumingBegins(g: Graph, w: World, c: Id, p: Normalized)
    requires Live(g, w) && c in g && Idle(g, w, g[c].height) && c in w.cells && Underway(g[c], w.cells[c], p)
    ensures Resuming(g, w, w, c, p) && Dag(g)
  {
    InnerItself(w);
  }

  lemma ArgumentRequired(p: Normalized, n: nat)
    requires p.recipe.Call? && n < |p.recipe.inject|
    ensures Requires(p, p.recipe.inject[n]) && |Declared(p)| == |p.recipe.inject|
            && Declared(p)[n] == p.recipe.inject[n]
  {
  }

  lemma ArgumentMissing(g: Graph, w: World, c: Id, p: Normalized, inject: seq<Token>, args: seq<Value>, n: nat)
    requires Dag(g) && c in g && p.recipe.Call? && p.recipe.inject == inject && n == |args| < |inject|
             && Missing(g, c, inject[n])
    requires forall i | 0 <= i < n :: Origin(g, w, c, inject[i], args[i])
    ensures Tried(g, w, c, p)
  {
    hide Dag, Origin, Missing;
    forall i | 0 <= i < n
      ensures HasOrigin(g, w, c, inject[i])
    {
      assert Origin(g, w, c, inject[i], args[i]);
    }
    assert StoppedAtArgument(g, w, c, inject, n);
  }

  lemma FieldRequired(p: Normalized, n: nat)
    requires p.recipe.Construct? && n < |p.recipe.fields|
    ensures |Declared(p)| == |p.recipe.fields| && Declared(p)[n] == p.recipe.fields[n].token
    ensures !p.recipe.fields[n].optional ==> Requires(p, p.recipe.fields[n].token)
  {
  }

  lemma Resumed(g: Graph, start: World, middle: World, w: World, c: Id, p: Normalized, s: set<(Id, Token)>,
                a: Option<map<Token, Value>>, b: Option<map<Token, Value>>, e: Option<map<Token, Value>>,
                inRequest: bool, r: Outcome)
    requires Resuming(g, start, middle, c, p) && Live(g, w) && Inner(middle, w) && Explained(g, middle, w, inRequest, r)
    requires Traced(g, start, middle, s, a, b) && Traced(g, middle, w, s, b, e)
    ensures Resuming(g, start, w, c, p) && Explained(g, start, w, inRequest, r) && Traced(g, start, w, s, a, e)
    ensures Keeps(middle, w) && Inner(start, w) && w.cells.Keys == g.Keys
  {
    hide Live, Kept, Guarded, Traced, Idle;
    InnerTransitive(start, middle, w);
    ExplainedWider(g, start, middle, w, w, inRequest, r);
    TracedThen(g, start, middle, w, s, a, b, e);
    assert Idle(g, w, g[c].height) by { IdleStays(g, middle, w, g[c].height); }
  }

  lemma InnerKeeps(v: World, w: World)
    requires Inner(v, w)
    ensures Keeps(v, w) && v.log <= w.log
  {
  }
}
