/** What changes while the injector resolves tokens, as values: one `Cell` per container
    and the log of calls into application code. */
module InjectorState {
  import opened Basics
  import opened InjectorGraph

  /** `builds[i]` is the token whose provider made `instances[i]`. */
  datatype Cell = Cell(
    singletons: map<Token, Value>,
    resolving: seq<Token>,
    instances: seq<Value>,
    builds: seq<Token>,
    contexts: map<string, map<Token, Value>>)

  /** A call into application code: a constructor, a factory, or a field's expression. */
  datatype Foreign = New(cls: nat) | Factory(factory: nat, args: seq<Value>) | Transform(expression: nat, input: Value)

  datatype Reply = Returns(value: Value) | Throws(error: int)

  /** What happens outside the containers: calls into application code, fields assigned, and instances
      that a container put among those of the running request. */
  datatype Event =
    | Called(call: Foreign, reply: Reply)
    | Assigned(instance: Value, field: nat, value: Value)
    | Provided(maker: Id, token: Token, instance: Value)

  datatype World = World(cells: map<Id, Cell>, log: seq<Event>)

  datatype Error =
    | TokenNotFound(token: Token)
    | CircularDependency(chain: seq<Token>)
    | NoRequestContext(token: Token)
    | Failed(error: int)

  datatype Outcome = Ok(value: Value) | Err(error: Error)

  ghost predicate NotFound(r: Outcome) {
    r.Err? && r.error.TokenNotFound?
  }

  // ------------------------------------------------------------------ progress

  ghost predicate Submap<K, V>(m: map<K, V>, n: map<K, V>) {
    forall k | k in m :: k in n && n[k] == m[k]
  }

  /** Nothing cached or recorded is lost or replaced. */
  ghost predicate Kept(a: Cell, b: Cell) {
    && Submap(a.singletons, b.singletons)
    && a.instances <= b.instances
    && a.builds <= b.builds
    && forall k | k in a.contexts :: k in b.contexts && Submap(a.contexts[k], b.contexts[k])
  }

  ghost predicate Keeps(v: World, w: World) {
    && v.cells.Keys == w.cells.Keys
    && (forall c | c in v.cells :: Kept(v.cells[c], w.cells[c]))
    && v.log <= w.log
  }

  /** What a finished call leaves behind: everything is kept, the tokens in progress are those that
      were in progress before it, and none of them was provided to the request meanwhile. */
  ghost predicate Advance(v: World, w: World) {
    && Keeps(v, w) && Guarded(v, w)
    && forall c | c in v.cells :: w.cells[c].resolving == v.cells[c].resolving
  }

  /** No container provides a token to the request while it is making it. */
  ghost predicate Guarded(v: World, w: World) {
    forall i | |v.log| <= i < |w.log| && w.log[i].Provided? ::
      w.log[i].maker in v.cells ==> w.log[i].token !in v.cells[w.log[i].maker].resolving
  }

  ghost predicate SameContexts(v: World, w: World) {
    forall c | c in v.cells && c in w.cells :: w.cells[c].contexts == v.cells[c].contexts
  }

  lemma KeptTransitive(a: Cell, b: Cell, c: Cell)
    requires Kept(a, b) && Kept(b, c)
    ensures Kept(a, c)
  {
  }

  lemma KeepsTransitive(u: World, v: World, w: World)
    requires Keeps(u, v) && Keeps(v, w)
    ensures Keeps(u, w)
  {
    hide Kept;
    forall c | c in u.cells
      ensures Kept(u.cells[c], w.cells[c])
    {
      KeptTransitive(u.cells[c], v.cells[c], w.cells[c]);
    }
  }

  lemma KeepsItself(w: World)
    ensures Keeps(w, w)
  {
  }

  lemma AdvanceTransitive(u: World, v: World, w: World)
    requires Advance(u, v) && Advance(v, w)
    ensures Advance(u, w)
  {
    hide Keeps;
    KeepsTransitive(u, v, w);
    KeepsKeys(u, v);
    KeepsKeys(v, w);
    hide Kept;
    GuardedTransitive(u, v, w);
  }

  lemma GuardedTransitive(u: World, v: World, w: World)
    requires Guarded(u, v) && Guarded(v, w) && u.log <= v.log && v.log <= w.log
    requires forall c | c in u.cells :: c in v.cells && v.cells[c].resolving == u.cells[c].resolving
    ensures Guarded(u, w)
  {
    forall i | |u.log| <= i < |w.log| && w.log[i].Provided?
      ensures w.log[i].maker in u.cells ==> w.log[i].token !in u.cells[w.log[i].maker].resolving
    {
      if i < |v.log| {
        assert w.log[i] == v.log[i];
      }
    }
  }

  lemma KeepsKeys(v: World, w: World)
    requires Keeps(v, w)
    ensures v.cells.Keys == w.cells.Keys && v.log <= w.log
    ensures forall c | c in v.cells :: Kept(v.cells[c], w.cells[c])
  {
  }

  // ----------------------------------------------------------------- invariants

  /** The bookkeeping of one container. */
  ghost predicate Sound(providers: map<Token, Normalized>, cell: Cell) {
    && InProgress(providers, cell)
    && Recorded(providers, cell.builds, cell.instances, cell.singletons)
    && ContextsHeld(providers, cell)
  }

  /** The tokens in progress, oldest first, each ask for the next and have no instance yet. */
  ghost predicate InProgress(providers: map<Token, Normalized>, cell: Cell) {
    && Distinct(cell.resolving)
    && Chain(providers, cell.resolving)
    && (forall t | t in cell.resolving :: t !in cell.singletons)
  }

  /** The cached singletons are exactly the recorded ones, each recorded once. */
  ghost predicate Recorded(providers: map<Token, Normalized>, builds: seq<Token>, instances: seq<Value>,
                           singletons: map<Token, Value>) {
    && |builds| == |instances|
    && (forall t | t in builds :: t in providers && providers[t].mode != Request)
    && (forall t | t in singletons :: t in builds && providers[t].mode == Singleton)
    && (forall i | 0 <= i < |builds| && providers[builds[i]].mode == Singleton ::
          builds[i] in singletons && singletons[builds[i]] == instances[i])
    && (forall i, j | 0 <= i < j < |builds| && builds[i] == builds[j] :: providers[builds[i]].mode != Singleton)
  }

  /** What a named context caches is a recorded instance of a transient provider. */
  ghost predicate ContextsHeld(providers: map<Token, Normalized>, cell: Cell) {
    forall k, t | k in cell.contexts && t in cell.contexts[k] ::
      t in providers && providers[t].mode == Transient && Held(cell, t, cell.contexts[k][t])
  }

  /** The container recorded `v` as an instance made for `t`. */
  ghost predicate Held(cell: Cell, t: Token, v: Value) {
    exists i :: 0 <= i < |cell.builds| && i < |cell.instances| && cell.builds[i] == t && cell.instances[i] == v
  }

  /** Some container provided `v` for `t` to a request. */
  ghost predicate ProvidedFor(log: seq<Event>, t: Token, v: Value) {
    exists maker :: Provided(maker, t, v) in log
  }

  /** `v` is what location `e` gives for `t`: an instance it recorded, or for a request-scoped
      provider one that was provided to the request. */
  ghost predicate HeldAt(g: Graph, w: World, e: Id, t: Token, v: Value) {
    && e in g && e in w.cells && t in g[e].providers
    && if g[e].providers[t].mode == Request then ProvidedFor(w.log, t, v) else Held(w.cells[e], t, v)
  }

  ghost predicate Origin(g: Graph, w: World, c: Id, t: Token, v: Value)
    requires Dag(g) && c in g
  {
    exists e :: e in Locations(g, c, t) && HeldAt(g, w, e, t, v)
  }

  /** The field was assigned what its token resolved to, put through its expression if it has one. */
  ghost predicate Injected(g: Graph, w: World, c: Id, dep: Dependency, field: nat, v: Value)
    requires Dag(g) && c in g
  {
    exists raw, x ::
      && Origin(g, w, c, dep.token, raw)
      && Assigned(v, field, x) in w.log
      && (if dep.expression.Some? then Called(Transform(dep.expression.value, raw), Returns(x)) in w.log else x == raw)
  }

  /** An optional field is left alone when its token is missing; any other is assigned. */
  ghost predicate Filled(g: Graph, w: World, c: Id, dep: Dependency, field: nat, v: Value)
    requires Dag(g) && c in g
  {
    Injected(g, w, c, dep, field, v) || (dep.optional && Missing(g, c, dep.token))
  }

  ghost predicate CalledWith(g: Graph, w: World, c: Id, factory: nat, inject: seq<Token>, args: seq<Value>, v: Value)
    requires Dag(g) && c in g
  {
    && |args| == |inject|
    && Called(Factory(factory, args), Returns(v)) in w.log
    && forall i | 0 <= i < |inject| :: Origin(g, w, c, inject[i], args[i])
  }

  /** `v` was made by provider `p` of container `c`, from what its dependencies resolved to. */
  ghost predicate Made(g: Graph, w: World, c: Id, p: Normalized, v: Value)
    requires Dag(g) && c in g
  {
    match p.recipe
    case Give(value) => v == value
    case Construct(cls, fields) =>
      && Called(New(cls), Returns(v)) in w.log
      && forall i | 0 <= i < |fields| :: Filled(g, w, c, fields[i], i, v)
    case Call(factory, inject) => exists args :: CalledWith(g, w, c, factory, inject, args, v)
    case Alias(target) => Origin(g, w, c, target, v)
  }

  /** The provider was started and gave up for want of a required token: what came before that was resolved
      and, for a class, the instance was made and its earlier fields were filled. */
  ghost predicate Tried(g: Graph, w: World, c: Id, p: Normalized)
    requires Dag(g) && c in g
  {
    match p.recipe
    case Give(_) => false
    case Construct(cls, fields) => exists v, n: nat :: StoppedAtField(g, w, c, cls, fields, v, n)
    case Call(_, inject) => exists n: nat :: StoppedAtArgument(g, w, c, inject, n)
    case Alias(target) => Missing(g, c, target)
  }

  ghost predicate StoppedAtField(g: Graph, w: World, c: Id, cls: nat, fields: seq<Dependency>, v: Value, n: nat)
    requires Dag(g) && c in g
  {
    Called(New(cls), Returns(v)) in w.log && FilledUpTo(g, w, c, fields, v, n)
  }

  /** The fields before this one are filled, and the token that it requires is missing. */
  ghost predicate FilledUpTo(g: Graph, w: World, c: Id, fields: seq<Dependency>, v: Value, n: nat)
    requires Dag(g) && c in g
  {
    n < |fields| && !fields[n].optional && Missing(g, c, fields[n].token) && forall i | 0 <= i < n ::
        Filled(g, w, c, fields[i], i, v)
  }

  ghost predicate HasOrigin(g: Graph, w: World, c: Id, t: Token)
    requires Dag(g) && c in g
  {
    exists x :: Origin(g, w, c, t, x)
  }

  ghost predicate StoppedAtArgument(g: Graph, w: World, c: Id, inject: seq<Token>, n: nat)
    requires Dag(g) && c in g
  {
    n < |inject| && Missing(g, c, inject[n]) && forall i | 0 <= i < n :: HasOrigin(g, w, c, inject[i])
  }

  ghost predicate Live(g: Graph, w: World) {
    && Dag(g)
    && w.cells.Keys == g.Keys
    && (forall c | c in g :: Sound(g[c].providers, w.cells[c]))
    && (forall c, i | c in g && 0 <= i < |w.cells[c].builds| :: Accounted(g, w, c, w.cells[c], i))
    && (forall i | 0 <= i < |w.log| && w.log[i].Provided? :: Attested(g, w, w.log[i]))
  }

  /** Record `i` of `cell` pairs a token of container `c` with a value made by its provider. */
  ghost predicate Accounted(g: Graph, w: World, c: Id, cell: Cell, i: nat)
    requires Dag(g) && c in g
  {
    && i < |cell.builds| && i < |cell.instances| && cell.builds[i] in g[c].providers
    && Made(g, w, c, g[c].providers[cell.builds[i]], cell.instances[i]) && Unstuck(g, c, cell.builds[i])
  }

  /** What a container provided to a request was made by its own request-scoped provider. */
  ghost predicate Attested(g: Graph, w: World, e: Event)
    requires Dag(g) && e.Provided?
  {
    && e.maker in g && e.token in g[e.maker].providers && g[e.maker].providers[e.token].mode == Request
    && Made(g, w, e.maker, g[e.maker].providers[e.token], e.instance) && Unstuck(g, e.maker, e.token)
  }

  /** No request has been given an instance yet. */
  ghost predicate Unserved(log: seq<Event>) {
    forall i | 0 <= i < |log| :: !log[i].Provided?
  }

  lemma AccountedGrows(g: Graph, v: World, w: World, c: Id, a: Cell, b: Cell, i: nat)
    requires Dag(g) && c in g && Keeps(v, w) && Kept(a, b) && Accounted(g, v, c, a, i)
    ensures Accounted(g, w, c, b, i)
  {
    hide Made, Keeps, Unstuck;
    assert b.builds[i] == a.builds[i] && b.instances[i] == a.instances[i];
    MadeGrows(g, v, w, c, g[c].providers[a.builds[i]], a.instances[i]);
  }

  lemma AttestedGrows(g: Graph, v: World, w: World, e: Event)
    requires Dag(g) && Keeps(v, w) && e.Provided? && Attested(g, v, e)
    ensures Attested(g, w, e)
  {
    hide Made, Keeps, Unstuck;
    MadeGrows(g, v, w, e.maker, g[e.maker].providers[e.token], e.instance);
  }

  lemma AttestedAt(g: Graph, w: World, e: Event)
    requires Live(g, w) && e in w.log && e.Provided?
    ensures Attested(g, w, e)
  {
  }

  lemma LiveFacts(g: Graph, w: World, c: Id)
    requires Live(g, w) && c in g
    ensures Dag(g) && w.cells.Keys == g.Keys && Sound(g[c].providers, w.cells[c])
  {
  }

  // --------------------------------------------------------------- monotonicity

  lemma OriginGrows(g: Graph, v: World, w: World, c: Id, t: Token, x: Value)
    requires Dag(g) && c in g && Keeps(v, w) && Origin(g, v, c, t, x)
    ensures Origin(g, w, c, t, x)
  {
    var e :| e in Locations(g, c, t) && HeldAt(g, v, e, t, x);
    assert Kept(v.cells[e], w.cells[e]);
    if g[e].providers[t].mode == Request {
      var maker :| Provided(maker, t, x) in v.log;
      assert Provided(maker, t, x) in w.log;
    } else {
      var i :| 0 <= i < |v.cells[e].builds| && i < |v.cells[e].instances| && v.cells[e].builds[i] == t
        && v.cells[e].instances[i] == x;
      assert w.cells[e].builds[i] == t && w.cells[e].instances[i] == x;
    }
    assert HeldAt(g, w, e, t, x);
  }

  lemma InjectedGrows(g: Graph, v: World, w: World, c: Id, dep: Dependency, field: nat, x: Value)
    requires Dag(g) && c in g && Keeps(v, w) && Injected(g, v, c, dep, field, x)
    ensures Injected(g, w, c, dep, field, x)
  {
    hide Origin;
    var raw, y :|
      && Origin(g, v, c, dep.token, raw)
      && Assigned(x, field, y) in v.log
      && (if dep.expression.Some? then Called(Transform(dep.expression.value, raw), Returns(y)) in v.log else y == raw);
    OriginGrows(g, v, w, c, dep.token, raw);
  }

  lemma FilledGrows(g: Graph, v: World, w: World, c: Id, dep: Dependency, field: nat, x: Value)
    requires Dag(g) && c in g && Keeps(v, w) && Filled(g, v, c, dep, field, x)
    ensures Filled(g, w, c, dep, field, x)
  {
    hide Injected;
    if Injected(g, v, c, dep, field, x) {
      InjectedGrows(g, v, w, c, dep, field, x);
    }
  }

  lemma MadeGrows(g: Graph, v: World, w: World, c: Id, p: Normalized, x: Value)
    requires Dag(g) && c in g && Keeps(v, w) && Made(g, v, c, p, x)
    ensures Made(g, w, c, p, x)
  {
    match p.recipe
    case Give(_) =>
    case Construct(cls, fields) =>
      forall i | 0 <= i < |fields|
        ensures Filled(g, w, c, fields[i], i, x)
      {
        FilledGrows(g, v, w, c, fields[i], i, x);
      }
    case Call(factory, inject) =>
      var args :| CalledWith(g, v, c, factory, inject, args, x);
      forall i | 0 <= i < |inject|
        ensures Origin(g, w, c, inject[i], args[i])
      {
        OriginGrows(g, v, w, c, inject[i], args[i]);
      }
      assert CalledWith(g, w, c, factory, inject, args, x);
    case Alias(target) => OriginGrows(g, v, w, c, target, x);
  }

  lemma TriedGrows(g: Graph, v: World, w: World, c: Id, p: Normalized)
    requires Dag(g) && c in g && Keeps(v, w) && Tried(g, v, c, p)
    ensures Tried(g, w, c, p)
  {
    hide Dag, Missing, Origin, Filled, Keeps;
    match p.recipe
    case Give(_) =>
    case Construct(cls, fields) =>
      var x, n: nat :| StoppedAtField(g, v, c, cls, fields, x, n);
      forall i | 0 <= i < n
        ensures Filled(g, w, c, fields[i], i, x)
      {
        FilledGrows(g, v, w, c, fields[i], i, x);
      }
      KeepsKeys(v, w);
      assert StoppedAtField(g, w, c, cls, fields, x, n);
    case Call(_, inject) =>
      var n: nat :| StoppedAtArgument(g, v, c, inject, n);
      forall i | 0 <= i < n
        ensures HasOrigin(g, w, c, inject[i])
      {
        var x :| Origin(g, v, c, inject[i], x);
        OriginGrows(g, v, w, c, inject[i], x);
      }
      assert StoppedAtArgument(g, w, c, inject, n);
    case Alias(_) =>
  }

  /** A provider that gave up lacks something. */
  lemma TriedIsMissing(g: Graph, w: World, c: Id, t: Token)
    requires Dag(g) && c in g && t in g[c].providers && Tried(g, w, c, g[c].providers[t])
    ensures MissingAt(g, c, t)
  {
    hide Dag, Missing, Origin, Filled;
  }

  lemma RequiredOrigin(g: Graph, w: World, c: Id, p: Normalized, v: Value, u: Token) returns (x: Value)
    requires Dag(g) && c in g && Made(g, w, c, p, v) && Requires(p, u)
    ensures Origin(g, w, c, u, x)
  {
    match p.recipe
    case Construct(cls, fields) =>
      var i :| 0 <= i < |fields| && fields[i].token == u && !fields[i].optional;
      assert Filled(g, w, c, fields[i], i, v);
      x :| Origin(g, w, c, u, x);
    case Call(factory, inject) =>
      var args :| CalledWith(g, w, c, factory, inject, args, v);
      var i :| 0 <= i < |inject| && inject[i] == u;
      x := args[i];
    case Alias(_) => x := v;
  }

  // --------------------------------------------------------- what providers are for

  /** The mode of a registered provider: that of its class, or of the factory, or of the class that a factory stands
      for, and singleton when nothing is said. */
  lemma ModeOfProvider(p: Provider)
    ensures match p
            case Shorthand(cls) => HasMode(p, cls.mode)
            case ClassProvider(_, cls) => HasMode(p, cls.mode)
            case FactoryProvider(t, _, _, mode, tokenMode) =>
              HasMode(p, if mode.Some? then mode else if t.ClassToken? then tokenMode else None)
            case ValueProvider(_, _) => HasMode(p, None)
            case ExistingProvider(_, _) => HasMode(p, None)
  {
  }

  ghost predicate HasMode(p: Provider, mode: Option<Mode>) {
    && (mode.Some? ==> Normalize(p).mode == mode.value)
    && (mode.None? ==> Normalize(p).mode == Singleton)
  }

  /** What is made for a registered provider: the value given; an instance of the class, with its fields filled; what
      the factory returned for its arguments; or what the other token resolves to. */
  lemma ProviderMakes(g: Graph, w: World, c: Id, p: Provider, v: Value)
    requires Dag(g) && c in g
    ensures Made(g, w, c, Normalize(p), v) <==>
              match p
              case ValueProvider(_, value) => v == value
              case Shorthand(cls) => Instantiated(g, w, c, cls, v)
              case ClassProvider(_, cls) => Instantiated(g, w, c, cls, v)
              case FactoryProvider(_, factory, inject, _, _) =>
                exists args :: CalledWith(g, w, c, factory, inject, args, v)
              case ExistingProvider(_, target) => Origin(g, w, c, target, v)
  {
    hide Dag, Origin, Filled;
  }

  ghost predicate Instantiated(g: Graph, w: World, c: Id, cls: ClassInfo, v: Value)
    requires Dag(g) && c in g
  {
    && Called(New(cls.id), Returns(v)) in w.log
    && forall i | 0 <= i < |cls.fields| :: Filled(g, w, c, cls.fields[i], i, v)
  }

  /** The container gave out a value for the token that its own provider made. */
  ghost predicate Yielded(w: World, c: Id, t: Token) {
    (c in w.cells && t in w.cells[c].builds) || exists v :: Provided(c, t, v) in w.log
  }

  /** What a container yields, its provider made. */
  lemma YieldedIsMade(g: Graph, w: World, c: Id, t: Token) returns (v: Value)
    requires Live(g, w) && Yielded(w, c, t)
    ensures c in g && t in g[c].providers && Made(g, w, c, g[c].providers[t], v) && Unstuck(g, c, t)
  {
    hide Sound, Made, Unstuck;
    if x :| Provided(c, t, x) in w.log {
      v := x;
      AttestedAt(g, w, Provided(c, t, x));
    } else {
      var i :| 0 <= i < |w.cells[c].builds| && w.cells[c].builds[i] == t;
      assert Accounted(g, w, c, w.cells[c], i);
      v := w.cells[c].instances[i];
    }
  }

  lemma LiveDag(g: Graph, w: World)
    requires Live(g, w)
    ensures Dag(g) && w.cells.Keys == g.Keys
  {
  }

  /** A provider that made a value is in no set of providers that all wait for each other. */
  lemma {:induction false} MadeIsUnstuck(g: Graph, w: World, c: Id, t: Token, v: Value)
    requires Live(g, w) && Dag(g) && c in g && t in g[c].providers && Made(g, w, c, g[c].providers[t], v)
    ensures Unstuck(g, c, t)
  {
    hide Live, Made, Unstuck, Dag, Locations, HeldAt, Barred, Requires;
    if !Unstuck(g, c, t) {
      var s := StuckWith(g, c, t);
      var u :| Needs(g, s, c, t, u);
      var x := RequiredOrigin(g, w, c, g[c].providers[t], v, u);
      var e :| e in Locations(g, c, u) && HeldAt(g, w, e, u, x);
      HeldIsUnbarred(g, w, e, u, x, s);
    }
  }

  lemma HeldIsUnbarred(g: Graph, w: World, e: Id, u: Token, x: Value, s: set<(Id, Token)>)
    requires Live(g, w) && Dag(g) && HeldAt(g, w, e, u, x) && Stuck(g, s)
    ensures !Barred(g, s, e, u)
  {
    hide Live, Made, Dag, Stuck;
    var d := HeldIsYielded(g, w, e, u, x);
    var v := YieldedIsMade(g, w, d, u);
  }

  /** What a location gives for a token was yielded by itself, or when it is request-scoped by a request-scoped
      provider of the token. */
  lemma HeldIsYielded(g: Graph, w: World, e: Id, t: Token, v: Value) returns (d: Id)
    requires Live(g, w) && Dag(g) && HeldAt(g, w, e, t, v)
    ensures Yielded(w, d, t) && if RequestScoped(g, e, t) then RequestScoped(g, d, t) else d == e
  {
    hide Live, Made, Unstuck, Dag;
    d := e;
    if RequestScoped(g, e, t) {
      d :| Provided(d, t, v) in w.log;
      AttestedAt(g, w, Provided(d, t, v));
    }
  }

  /** No location gives a value for a token that is lost there. */
  lemma HeldIsNotLost(g: Graph, w: World, e: Id, t: Token, v: Value)
    requires Live(g, w) && Dag(g) && HeldAt(g, w, e, t, v)
    ensures !Lost(g, e, t)
  {
    hide Live, Made, Unstuck, Dag;
    var d := HeldIsYielded(g, w, e, t, v);
    var x := YieldedIsMade(g, w, d, t);
  }

  /** Every error names something that happened: a real cycle, a missing request context, or
      an exception thrown by application code during the call. */
  ghost predicate Explained(g: Graph, v: World, w: World, inRequest: bool, r: Outcome) {
    r.Err? ==>
      match r.error
      case TokenNotFound(_) => true
      case CircularDependency(chain) => exists d :: d in g && CycleWitness(g[d].providers, chain)
      case NoRequestContext(_) => !inRequest
      case Failed(error) => exists i, call :: |v.log| <= i < |w.log| && w.log[i] == Called(call, Throws(error))
  }

  /** And it names something that the call can come to: a missing token that is declared there, or the one asked for; a
      token there that reaches itself; or a request-scoped provider there. */
  ghost predicate Founded(g: Graph, s: set<(Id, Token)>, asked: Option<Token>, r: Outcome)
    requires Dag(g)
  {
    r.Err? ==>
      match r.error
      case TokenNotFound(u) => asked == Some(u) || Wanting(g, s, u)
      case CircularDependency(chain) => chain != [] && Circular(g, s, chain)
      case NoRequestContext(u) => exists d: Id :: (d, u) in s && RequestScoped(g, d, u)
      case Failed(_) => true
  }

  /** A provider there declares the token, which is missing for it. */
  ghost predicate Wanting(g: Graph, s: set<(Id, Token)>, u: Token)
    requires Dag(g)
  {
    exists d: Id, t: Token :: (d, t) in s && WantsMissing(g, d, t, u)
  }

  ghost predicate WantsMissing(g: Graph, d: Id, t: Token, u: Token)
    requires Dag(g)
  {
    d in g && t in g[d].providers && u in Declared(g[d].providers[t]) && Missing(g, d, u)
  }

  ghost predicate Circular(g: Graph, s: set<(Id, Token)>, chain: seq<Token>)
    requires chain != []
  {
    exists d: Id :: (d, chain[|chain| - 1]) in s && d in g && CycleWitness(g[d].providers, chain)
  }

  lemma FoundedWider(g: Graph, r: set<(Id, Token)>, s: set<(Id, Token)>, a: Option<Token>, b: Option<Token>, x: Outcome)
    requires Dag(g) && Founded(g, r, a, x) && r <= s && (a == None || a == b)
    ensures Founded(g, s, b, x)
  {
    hide Dag, Missing, WantsMissing, CycleWitness;
  }

  /** Values, and what application code throws. */
  lemma FoundedAnyway(g: Graph, s: set<(Id, Token)>, a: Option<Token>, r: Outcome)
    requires Dag(g) && (r.Err? ==> r.error.Failed?)
    ensures Founded(g, s, a, r)
  {
  }

  lemma AskedIsFounded(g: Graph, s: set<(Id, Token)>, token: Token)
    requires Dag(g)
    ensures Founded(g, s, Some(token), Err(TokenNotFound(token)))
  {
  }

  lemma ExplainedWider(g: Graph, u: World, v: World, w: World, x: World, inRequest: bool, r: Outcome)
    requires Explained(g, v, w, inRequest, r) && u.log <= v.log && w.log <= x.log
    ensures Explained(g, u, x, inRequest, r)
  {
    if r.Err? && r.error.Failed? {
      var i, call :| |v.log| <= i < |w.log| && w.log[i] == Called(call, Throws(r.error.error));
      assert x.log[i] == w.log[i];
    }
  }

  // ---------------------------------------------------------------- transitions

  ghost function With(w: World, c: Id, cell: Cell): World {
    w.(cells := w.cells[c := cell])
  }

  ghost function Enter(cell: Cell, t: Token): Cell {
    cell.(resolving := cell.resolving + [t])
  }

  /** The token is no longer in progress; `rest` are those that still are. */
  ghost function Leave(cell: Cell, rest: seq<Token>): Cell {
    cell.(resolving := rest)
  }

  function Cache(contexts: map<string, map<Token, Value>>, k: string): map<Token, Value> {
    if k in contexts then contexts[k] else map[]
  }

  /** A finished construction: recorded, cached as the mode says, and no longer in progress. */
  ghost function Record(cell: Cell, rest: seq<Token>, t: Token, v: Value, mode: Mode, context: Option<string>): Cell {
    Leave(Noted(if mode == Singleton then Cached(cell, t, v)
                else if mode == Transient && context.Some? then CachedIn(cell, context.value, t, v)
                    else cell, t, v), rest)
  }

  ghost function Cached(cell: Cell, t: Token, v: Value): Cell {
    cell.(singletons := cell.singletons[t := v])
  }

  ghost function CachedIn(cell: Cell, key: string, t: Token, v: Value): Cell {
    cell.(contexts := cell.contexts[key := Cache(cell.contexts, key)[t := v]])
  }

  ghost function Noted(cell: Cell, t: Token, v: Value): Cell {
    cell.(instances := cell.instances + [v], builds := cell.builds + [t])
  }

  lemma WithSame(w: World, c: Id)
    requires c in w.cells
    ensures With(w, c, w.cells[c]) == w
  {
    assert w.cells[c := w.cells[c]] == w.cells;
  }

  /** A new cell keeping its old one's content keeps every value accounted for. */
  lemma WithLive(g: Graph, w: World, c: Id, cell: Cell)
    requires Live(g, w) && c in g && Kept(w.cells[c], cell) && Sound(g[c].providers, cell)
    requires forall i | |w.cells[c].builds| <= i < |cell.builds| :: Accounted(g, w, c, cell, i)
    ensures Live(g, With(w, c, cell)) && Keeps(w, With(w, c, cell))
  {
    hide Sound, Accounted, Attested;
    var x := With(w, c, cell);
    assert Keeps(w, x);
    forall d, i | d in g && 0 <= i < |x.cells[d].builds|
      ensures Accounted(g, x, d, x.cells[d], i)
    {
      KeptItself(x.cells[d]);
      if i < |w.cells[d].builds| {
        assert Accounted(g, w, d, w.cells[d], i);
        AccountedGrows(g, w, x, d, w.cells[d], x.cells[d], i);
      } else {
        AccountedGrows(g, w, x, d, cell, cell, i);
      }
    }
    AllAttested(g, w, x);
  }

  /** What was provided to requests stays attested. */
  lemma AllAttested(g: Graph, w: World, x: World)
    requires Live(g, w) && Keeps(w, x)
    ensures forall i | 0 <= i < |w.log| && w.log[i].Provided? :: x.log[i] == w.log[i] && Attested(g, x, x.log[i])
  {
    hide Sound, Accounted, Attested, Kept;
    forall i | 0 <= i < |w.log| && w.log[i].Provided?
      ensures x.log[i] == w.log[i] && Attested(g, x, x.log[i])
    {
      AttestedAt(g, w, w.log[i]);
      AttestedGrows(g, w, x, w.log[i]);
    }
  }

  lemma KeptItself(a: Cell)
    ensures Kept(a, a)
  {
  }

  /** More log keeps every value accounted for, when what is newly provided is attested. */
  lemma LogLive(g: Graph, w: World, log: seq<Event>)
    requires Live(g, w) && w.log <= log
    requires forall i | |w.log| <= i < |log| && log[i].Provided? :: Attested(g, w, log[i])
    ensures Live(g, w.(log := log)) && Keeps(w, w.(log := log))
  {
    hide Sound, Accounted, Attested;
    var x := w.(log := log);
    assert Keeps(w, x);
    forall d, i | d in g && 0 <= i < |x.cells[d].builds|
      ensures Accounted(g, x, d, x.cells[d], i)
    {
      KeptItself(x.cells[d]);
      assert Accounted(g, w, d, w.cells[d], i);
      AccountedGrows(g, w, x, d, w.cells[d], x.cells[d], i);
    }
    AllAttested(g, w, x);
    forall i | |w.log| <= i < |log| && log[i].Provided?
      ensures Attested(g, x, log[i])
    {
      AttestedGrows(g, w, x, log[i]);
    }
  }

  /** One event more, of application code. */
  lemma EventLive(g: Graph, w: World, e: Event)
    requires Live(g, w) && !e.Provided?
    ensures Live(g, w.(log := w.log + [e])) && Advance(w, w.(log := w.log + [e]))
  {
    hide Live;
    LogLive(g, w, w.log + [e]);
  }

  ghost predicate Asked(providers: map<Token, Normalized>, cell: Cell, t: Token) {
    cell.resolving != [] ==>
      cell.resolving[|cell.resolving| - 1] in providers
      && t in Declared(providers[cell.resolving[|cell.resolving| - 1]])
  }

  lemma EnterSound(providers: map<Token, Normalized>, cell: Cell, t: Token)
    requires Sound(providers, cell) && t in providers && t !in cell.resolving && t !in cell.singletons
    requires Asked(providers, cell, t)
    ensures Sound(providers, Enter(cell, t)) && Kept(cell, Enter(cell, t))
  {
    hide Requires;
    ChainAppend(providers, cell.resolving, t);
    HeldSame(cell, Enter(cell, t));
  }

  lemma LeaveSound(providers: map<Token, Normalized>, cell: Cell, rest: seq<Token>, t: Token)
    requires Sound(providers, cell) && cell.resolving == rest + [t]
    ensures Sound(providers, Leave(cell, rest)) && Kept(cell, Leave(cell, rest))
  {
    hide Requires;
    LeaveProgress(providers, cell, rest, t);
    HeldSame(cell, Leave(cell, rest));
  }

  lemma LeaveProgress(providers: map<Token, Normalized>, cell: Cell, rest: seq<Token>, t: Token)
    requires InProgress(providers, cell) && cell.resolving == rest + [t]
    ensures Chain(providers, rest) && Distinct(rest) && t !in rest && t !in cell.singletons
    ensures forall u | u in rest :: u !in cell.singletons
  {
    ChainTake(providers, cell.resolving, |rest|);
    assert cell.resolving[..|rest|] == rest;
    assert cell.resolving[|rest|] == t;
    assert forall i | 0 <= i < |rest| :: rest[i] == cell.resolving[i];
  }

  lemma HeldSame(a: Cell, b: Cell)
    requires a.builds <= b.builds && a.instances <= b.instances
    ensures forall t, v | Held(a, t, v) :: Held(b, t, v)
  {
    forall t, v | Held(a, t, v)
      ensures Held(b, t, v)
    {
      var i :| 0 <= i < |a.builds| && i < |a.instances| && a.builds[i] == t && a.instances[i] == v;
      assert b.builds[i] == t && b.instances[i] == v;
    }
  }

  lemma RecordSound(providers: map<Token, Normalized>, cell: Cell, rest: seq<Token>, t: Token, v: Value,
                    context: Option<string>)
    requires Sound(providers, cell) && cell.resolving == rest + [t]
    requires t in providers && providers[t].mode != Request
    requires providers[t].mode == Transient && context.Some? ==> t !in Cache(cell.contexts, context.value)
    ensures var r := Record(cell, rest, t, v, providers[t].mode, context);
            Sound(providers, r) && Kept(cell, r) && Held(r, t, v)
  {
    hide Requires, Chain, Distinct, Recorded, ContextsHeld, Held, InProgress;
    var r := Record(cell, rest, t, v, providers[t].mode, context);
    LeaveProgress(providers, cell, rest, t);
    RecordedAppend(providers, cell.builds, cell.instances, cell.singletons, t, v);
    RecordedLength(providers, cell.builds, cell.instances, cell.singletons);
    RecordContexts(providers, cell, rest, t, v, context);
    assert InProgress(providers, r) by { LeftProgress(providers, r); }
  }

  lemma RecordedLength(providers: map<Token, Normalized>, builds: seq<Token>, instances: seq<Value>,
                       singletons: map<Token, Value>)
    requires Recorded(providers, builds, instances, singletons)
    ensures |builds| == |instances|
  {
  }

  lemma LeftProgress(providers: map<Token, Normalized>, r: Cell)
    requires Chain(providers, r.resolving) && Distinct(r.resolving) && forall t | t in r.resolving :: t !in r.singletons
    ensures InProgress(providers, r)
  {
  }

  lemma RecordContexts(providers: map<Token, Normalized>, cell: Cell, rest: seq<Token>, t: Token, v: Value,
                       context: Option<string>)
    requires ContextsHeld(providers, cell) && |cell.builds| == |cell.instances| && t in providers
    requires providers[t].mode == Transient && context.Some? ==> t !in Cache(cell.contexts, context.value)
    ensures var r := Record(cell, rest, t, v, providers[t].mode, context);
            ContextsHeld(providers, r) && Held(r, t, v)
            && forall k | k in cell.contexts :: k in r.contexts && Submap(cell.contexts[k], r.contexts[k])
  {
    var r := Record(cell, rest, t, v, providers[t].mode, context);
    HeldSame(cell, r);
    assert r.builds[|cell.builds|] == t && r.instances[|cell.builds|] == v;
    assert Held(r, t, v);
    HeldThen(providers, cell, r, t, v);
  }

  /** Contexts that hold what was held before, and the new instance, hold recorded instances. */
  lemma HeldThen(providers: map<Token, Normalized>, cell: Cell, r: Cell, t: Token, v: Value)
    requires ContextsHeld(providers, cell) && forall u, x | Held(cell, u, x) :: Held(r, u, x)
    requires t in providers && Held(r, t, v)
    requires forall k, u | k in r.contexts && u in r.contexts[k] ::
               (k in cell.contexts && u in cell.contexts[k] && r.contexts[k][u] == cell.contexts[k][u])
               || (u == t && r.contexts[k][u] == v && providers[t].mode == Transient)
    ensures ContextsHeld(providers, r)
  {
    hide Held;
  }

  lemma RecordedAppend(providers: map<Token, Normalized>, builds: seq<Token>, instances: seq<Value>,
                       singletons: map<Token, Value>, t: Token, v: Value)
    requires Recorded(providers, builds, instances, singletons) && t in providers && providers[t].mode != Request
    requires t !in singletons
    ensures Recorded(providers, builds + [t], instances + [v],
                     if providers[t].mode == Singleton then singletons[t := v] else singletons)
  {
    var all := builds + [t];
    assert forall u | u in all :: u in builds || u == t;
    assert all[|builds|] == t;
    assert forall u | u in builds :: u in all;
    if providers[t].mode == Singleton {
      assert t !in builds;
    }
  }

  // -------------------------------------------------------------------- results

  /** Singleton identity: the recorded instance is the cached one, and it is recorded once. */
  lemma HeldSingleton(providers: map<Token, Normalized>, cell: Cell, t: Token, v: Value)
    requires Sound(providers, cell) && t in providers && providers[t].mode == Singleton
    ensures Held(cell, t, v) <==> t in cell.singletons && cell.singletons[t] == v
    ensures forall i, j | 0 <= i < j < |cell.builds| :: !(cell.builds[i] == t && cell.builds[j] == t)
  {
    if t in cell.singletons {
      var i :| 0 <= i < |cell.builds| && cell.builds[i] == t;
      assert cell.instances[i] == cell.singletons[t];
    }
  }

  lemma CachedIsHeld(providers: map<Token, Normalized>, cell: Cell, t: Token)
    requires Sound(providers, cell) && t in cell.singletons
    ensures t in providers && providers[t].mode == Singleton && Held(cell, t, cell.singletons[t])
  {
    HeldSingleton(providers, cell, t, cell.singletons[t]);
  }

  /** A container neither records nor provides to a request an instance of a token on a circle of its own
      required tokens, and never gives a value for it. */
  lemma {:induction false} CyclicIsNeverBuilt(g: Graph, w: World, c: Id, ts: seq<Token>, i: nat)
    requires Live(g, w) && Dag(g) && Circle(g, c, ts) && i < |ts|
    ensures !Yielded(w, c, ts[i]) && forall v :: !HeldAt(g, w, c, ts[i], v)
  {
    hide Live, Dag, Circle, Yielded, HeldAt, Unstuck, Made;
    CircleIsLost(g, c, ts, i);
    if Yielded(w, c, ts[i]) {
      var v := YieldedIsMade(g, w, c, ts[i]);
    }
    if v :| HeldAt(g, w, c, ts[i], v) {
      HeldIsNotLost(g, w, c, ts[i], v);
    }
  }

  // ------------------------------------------------------------- all instances

  /** The instances recorded in `c` and in everything it imports, each once, in the order in
      which they are first met. */
  ghost function AllInstances(g: Graph, w: World, c: Id): seq<Value>
    requires Dag(g) && c in g
    decreases g[c].height, |g[c].children| + 1
  {
    Unique(OwnInstances(w, c) + ChildInstances(g, w, c, |g[c].children|))
  }

  ghost function OwnInstances(w: World, c: Id): seq<Value> {
    if c in w.cells then w.cells[c].instances else []
  }

  ghost function ChildInstances(g: Graph, w: World, c: Id, n: nat): seq<Value>
    requires Dag(g) && c in g && n <= |g[c].children|
    decreases g[c].height, n
  {
    if n == 0 then [] else ChildInstances(g, w, c, n - 1) + AllInstances(g, w, g[c].children[n - 1])
  }

  /** What a container gives out as its instances, alone or with everything it imports. */
  ghost function InstancesOf(g: Graph, w: World, c: Id, recursive: bool): seq<Value>
    requires Dag(g) && c in g
  {
    if recursive then AllInstances(g, w, c) else OwnInstances(w, c)
  }

  /** `d` is `c` or is imported by it, directly or not. */
  ghost predicate Below(g: Graph, c: Id, d: Id)
    requires Dag(g) && c in g
    decreases g[c].height
  {
    c == d || exists i :: 0 <= i < |g[c].children| && Below(g, g[c].children[i], d)
  }

  /** However often a container is shared between importers, each recorded instance of each
      reachable container occurs exactly once. */
  lemma {:induction false} EachInstanceOnce(g: Graph, w: World, c: Id)
    requires Dag(g) && c in g
    ensures Distinct(AllInstances(g, w, c))
    ensures forall v :: v in AllInstances(g, w, c) <==> exists d :: Below(g, c, d) && v in OwnInstances(w, d)
    decreases g[c].height, |g[c].children| + 1
  {
    UniqueIsSet(OwnInstances(w, c) + ChildInstances(g, w, c, |g[c].children|));
    ChildInstancesMet(g, w, c, |g[c].children|);
  }

  /** A container's own instances come before those of what it imports, in the order in which they were recorded. */
  lemma {:induction false} OwnInstancesFirst(g: Graph, w: World, c: Id)
    requires Dag(g) && c in g
    ensures Unique(OwnInstances(w, c)) <= AllInstances(g, w, c)
  {
    hide Dag, Unique, OwnInstances;
    UniqueGrows(OwnInstances(w, c), ChildInstances(g, w, c, |g[c].children|));
  }

  lemma {:induction false} ChildInstancesMet(g: Graph, w: World, c: Id, n: nat)
    requires Dag(g) && c in g && n <= |g[c].children|
    ensures forall v :: v in ChildInstances(g, w, c, n) <==>
              exists i, d :: 0 <= i < n && Below(g, g[c].children[i], d) && v in OwnInstances(w, d)
    decreases g[c].height, n
  {
    hide Dag, AllInstances, Below, OwnInstances;
    if n > 0 {
      LowerChild(g, c, n - 1);
      ChildInstancesMet(g, w, c, n - 1);
      EachInstanceOnce(g, w, g[c].children[n - 1]);
    }
  }
}
