/** What is fixed while the injector resolves tokens: the providers, exports and
    imports of every container, and what they say about a token before any
    provider runs. A container is named by its identity. */
module InjectorGraph {
  import opened Basics

  datatype Token = ClassToken(id: nat) | NameToken(name: string) | SymbolToken(id: nat)

  datatype Mode = Singleton | Transient | Request

  /** A field decorated for injection; `expression` transforms the resolved value. */
  datatype Dependency = Dependency(token: Token, optional: bool, expression: Option<nat>)

  /** A class with its `@Injectable` mode and its decorated fields, in order. */
  datatype ClassInfo = ClassInfo(id: nat, mode: Option<Mode>, fields: seq<Dependency>)

  /** References to objects are modelled by their identity. */
  type Value = int

  /** A provider as an application writes it. `tokenMode` is the `@Injectable` mode
      of the provided token when that token is a class. */
  datatype Provider =
    | Shorthand(cls: ClassInfo)
    | ValueProvider(provide: Token, value: Value)
    | FactoryProvider(provide: Token, factory: nat, inject: seq<Token>, mode: Option<Mode>, tokenMode: Option<Mode>)
    | ClassProvider(provide: Token, useClass: ClassInfo)
    | ExistingProvider(provide: Token, useExisting: Token)

  datatype Recipe =
    | Construct(cls: nat, fields: seq<Dependency>)
    | Give(value: Value)
    | Call(factory: nat, inject: seq<Token>)
    | Alias(target: Token)

  datatype Normalized = Normalized(token: Token, mode: Mode, recipe: Recipe)

  function ProviderToken(p: Provider): Token {
    match p
    case Shorthand(cls) => ClassToken(cls.id)
    case _ => p.provide
  }

  function ModeOr(m: Option<Mode>, default: Mode): Mode {
    if m.Some? then m.value else default
  }

  function Normalize(p: Provider): (n: Normalized)
    ensures n.token == ProviderToken(p)
  {
    match p
    case Shorthand(cls) => Normalized(ClassToken(cls.id), ModeOr(cls.mode, Singleton), Construct(cls.id, cls.fields))
    case ValueProvider(t, v) => Normalized(t, Singleton, Give(v))
    case FactoryProvider(t, f, inject, mode, tokenMode) =>
      Normalized(t, if mode.Some? then mode.value else if t.ClassToken? then ModeOr(tokenMode, Singleton)
                   else Singleton,
                 Call(f, inject))
    case ClassProvider(t, cls) => Normalized(t, ModeOr(cls.mode, Singleton), Construct(cls.id, cls.fields))
    case ExistingProvider(t, target) => Normalized(t, Singleton, Alias(target))
  }

  /** The tokens a provider asks its container for, in order. */
  function Declared(p: Normalized): seq<Token> {
    match p.recipe
    case Construct(_, fields) => seq(|fields|, i requires 0 <= i < |fields| => fields[i].token)
    case Give(_) => []
    case Call(_, inject) => inject
    case Alias(target) => [target]
  }

  /** The declared tokens that must resolve for the provider to succeed. */
  ghost predicate Requires(p: Normalized, u: Token) {
    match p.recipe
    case Construct(_, fields) => exists i :: 0 <= i < |fields| && fields[i].token == u && !fields[i].optional
    case Give(_) => false
    case Call(_, inject) => u in inject
    case Alias(target) => u == target
  }

  // ---------------------------------------------------------------- containers

  type Id = nat

  /** The fixed part of a container. `height` ranks containers above what they use. */
  datatype Node = Node(
    providers: map<Token, Normalized>,
    children: seq<Id>,
    exports: set<Token>,
    shared: Option<Id>,
    height: nat)

  type Graph = map<Id, Node>

  /** Imports go strictly down in height, and the global container, at height 0, is a
      leaf: it imports nothing and has no global container of its own. */
  ghost predicate Dag(g: Graph) {
    && (forall c, d | c in g && d in g[c].children :: d in g && g[d].height < g[c].height)
    && (forall c {:trigger g[c].shared} | c in g && g[c].shared.Some? ::
          g[c].height > 0 && g[c].shared.value in g && g[g[c].shared.value].height == 0)
    && (forall c, t | c in g && t in g[c].providers :: g[c].providers[t].token == t)
  }

  ghost predicate SharedHas(g: Graph, c: Id, t: Token)
    requires Dag(g) && c in g
  {
    g[c].shared.Some? && t in g[g[c].shared.value].providers
  }

  /** The containers that `c` tries for `t`, in the order it tries them: itself, then
      what each exporting child tries, then the global container. */
  ghost function Locations(g: Graph, c: Id, t: Token): seq<Id>
    requires Dag(g) && c in g
    decreases g[c].height, |g[c].children| + 1
  {
    if t in g[c].providers then [c]
    else ChildLocations(g, c, t, 0) + (if SharedHas(g, c, t) then [g[c].shared.value] else [])
  }

  ghost function ChildLocations(g: Graph, c: Id, t: Token, i: nat): seq<Id>
    requires Dag(g) && c in g && i <= |g[c].children|
    decreases g[c].height, |g[c].children| - i
  {
    if i == |g[c].children| then []
    else
      (if t in g[g[c].children[i]].exports then Locations(g, g[c].children[i], t) else [])
      + ChildLocations(g, c, t, i + 1)
  }

  /** What is searched for an import comes after what is searched for the imports listed before it, and the global
      container after all imports. */
  lemma {:induction false} ImportsInTurn(g: Graph, c: Id, t: Token, i: nat, j: nat)
    returns (before: seq<Id>, between: seq<Id>, behind: seq<Id>)
    requires Dag(g) && c in g && t !in g[c].providers && i < j < |g[c].children|
    requires t in g[g[c].children[i]].exports && t in g[g[c].children[j]].exports
    ensures Locations(g, c, t) == before + Locations(g, g[c].children[i], t) + between
                                  + Locations(g, g[c].children[j], t) + behind
    ensures SharedHas(g, c, t) ==> behind != [] && behind[|behind| - 1] == g[c].shared.value
  {
    hide Dag, Locations, ChildLocations;
    var rest, last, global;
    before, rest := ChildSplit(g, c, t, 0, i);
    between, last := ChildSplit(g, c, t, i + 1, j);
    global := if SharedHas(g, c, t) then [g[c].shared.value] else [];
    behind := last + global;
    LocationsJoin(g, c, t);
    var one, two := Locations(g, g[c].children[i], t), Locations(g, g[c].children[j], t);
    assert rest == between + (two + last);
    assert before + (one + (between + (two + last))) + global == before + one + between + two + (last + global);
  }

  lemma {:induction false} LocationsJoin(g: Graph, c: Id, t: Token)
    requires Dag(g) && c in g && t !in g[c].providers
    ensures Locations(g, c, t)
         == ChildLocations(g, c, t, 0) + if SharedHas(g, c, t) then [g[c].shared.value] else []
  {
    hide Dag, SharedHas;
  }

  lemma {:induction false} ChildSplit(g: Graph, c: Id, t: Token, i: nat, j: nat)
    returns (before: seq<Id>, rest: seq<Id>)
    requires Dag(g) && c in g && i <= j < |g[c].children| && t in g[g[c].children[j]].exports
    ensures g[c].children[j] in g && rest == ChildLocations(g, c, t, j + 1)
    ensures ChildLocations(g, c, t, i) == before + (Locations(g, g[c].children[j], t) + rest)
    decreases j - i
  {
    hide Locations;
    if i == j {
      before, rest := [], ChildLocations(g, c, t, j + 1);
    } else {
      var more;
      more, rest := ChildSplit(g, c, t, i + 1, j);
      before := (if t in g[g[c].children[i]].exports then Locations(g, g[c].children[i], t) else []) + more;
    }
  }

  /** Every location provides the token itself and is not above the container asked. */
  lemma {:induction false} LocationsProvide(g: Graph, c: Id, t: Token)
    requires Dag(g) && c in g
    ensures forall e | e in Locations(g, c, t) ::
              e in g && t in g[e].providers && g[e].height <= g[c].height && Locations(g, e, t) == [e]
    decreases g[c].height, |g[c].children| + 1
  {
    if t !in g[c].providers {
      ChildLocationsProvide(g, c, t, 0);
    }
  }

  lemma {:induction false} ChildLocationsProvide(g: Graph, c: Id, t: Token, i: nat)
    requires Dag(g) && c in g && i <= |g[c].children|
    ensures forall e | e in ChildLocations(g, c, t, i) ::
              e in g && t in g[e].providers && g[e].height <= g[c].height && Locations(g, e, t) == [e]
    decreases g[c].height, |g[c].children| - i
  {
    if i < |g[c].children| {
      LocationsProvide(g, g[c].children[i], t);
      ChildLocationsProvide(g, c, t, i + 1);
    }
  }

  /** The mode of the provider tried first for `t`. */
  ghost function FirstMode(g: Graph, c: Id, t: Token): Option<Mode>
    requires Dag(g) && c in g
  {
    LocationsProvide(g, c, t);
    if Locations(g, c, t) == [] then None else Some(g[Locations(g, c, t)[0]].providers[t].mode)
  }

  /** The first child from index `i` on whose search finds something decides where a search
      that finds nothing before it begins. */
  lemma ChildrenSkip(g: Graph, c: Id, t: Token, i: nat)
    requires Dag(g) && c in g && i < |g[c].children|
    ensures var d := g[c].children[i];
            var own := if t in g[d].exports then Locations(g, d, t) else [];
            && (own == [] ==> ChildLocations(g, c, t, i) == ChildLocations(g, c, t, i + 1))
            && (own != [] ==> ChildLocations(g, c, t, i) != [] && ChildLocations(g, c, t, i)[0] == own[0])
  {
    assert [] + ChildLocations(g, c, t, i + 1) == ChildLocations(g, c, t, i + 1);
  }

  lemma LowerChild(g: Graph, c: Id, i: nat)
    requires Dag(g) && c in g && i < |g[c].children|
    ensures g[c].children[i] in g && g[g[c].children[i]].height < g[c].height
  {
  }

  /** The global container looks for a token only among its own providers. */
  lemma {:induction false} LowerShared(g: Graph, c: Id, t: Token)
    requires Dag(g) && c in g && g[c].shared.Some?
    ensures g[c].shared.value in g && g[g[c].shared.value].height < g[c].height
    ensures SharedHas(g, c, t) ==> Locations(g, g[c].shared.value, t) == [g[c].shared.value]
    ensures !SharedHas(g, c, t) ==> Locations(g, g[c].shared.value, t) == []
  {
    var d := g[c].shared.value;
    if g[d].children != [] {
      LowerChild(g, d, 0);
    }
  }

  /** The providers of a container after registering `ps` one after another. */
  function Registered(m: map<Token, Normalized>, ps: seq<Provider>): map<Token, Normalized>
    decreases ps
  {
    if ps == [] then m else Registered(m[ProviderToken(ps[0]) := Normalize(ps[0])], ps[1..])
  }

  /** For each token the last of its providers is registered. */
  lemma {:induction false} LastRegistered(m: map<Token, Normalized>, ps: seq<Provider>, t: Token)
    ensures var r := Registered(m, ps);
            && (t in r <==> t in m || exists i :: 0 <= i < |ps| && ProviderToken(ps[i]) == t)
            && (forall i | 0 <= i < |ps| && ProviderToken(ps[i]) == t
                  && (forall j | i < j < |ps| :: ProviderToken(ps[j]) != t) :: t in r && r[t] == Normalize(ps[i]))
            && ((forall i | 0 <= i < |ps| :: ProviderToken(ps[i]) != t) && t in m ==> t in r && r[t] == m[t])
    decreases ps
  {
    if ps != [] {
      var rest := ps[1..];
      assert forall i | 0 < i < |ps| :: ps[i] == rest[i - 1];
      LastRegistered(m[ProviderToken(ps[0]) := Normalize(ps[0])], rest, t);
    }
  }

  // ---------------------------------------------------------------- visibility

  ghost predicate ImportsAt(g: Graph, path: seq<Id>, i: nat, t: Token)
    requires Dag(g) && i < |path| - 1 && forall j | 0 <= j < |path| :: path[j] in g
  {
    path[i + 1] in g[path[i]].children && t in g[path[i + 1]].exports
  }

  /** A chain of imports down from its first container, each exporting `t`, to a container
      that provides `t` or sees it in the global container. */
  ghost predicate Sees(g: Graph, path: seq<Id>, t: Token)
    requires Dag(g)
  {
    && |path| > 0
    && (forall i | 0 <= i < |path| :: path[i] in g)
    && (forall i | 0 <= i < |path| - 1 :: ImportsAt(g, path, i, t))
    && (t in g[path[|path| - 1]].providers || SharedHas(g, path[|path| - 1], t))
  }

  ghost predicate Visible(g: Graph, c: Id, t: Token)
    requires Dag(g)
  {
    exists path :: Sees(g, path, t) && path[0] == c
  }

  lemma {:induction false} SeenIsLocated(g: Graph, path: seq<Id>, t: Token)
    requires Dag(g) && Sees(g, path, t)
    ensures Locations(g, path[0], t) != []
    decreases |path|
  {
    if |path| > 1 && t !in g[path[0]].providers {
      var rest := path[1..];
      assert ImportsAt(g, path, 0, t);
      forall i | 0 <= i < |rest| - 1
        ensures ImportsAt(g, rest, i, t)
      {
        assert ImportsAt(g, path, i + 1, t);
      }
      SeenIsLocated(g, rest, t);
      var i :| 0 <= i < |g[path[0]].children| && g[path[0]].children[i] == path[1];
      ChildIsLocated(g, path[0], t, 0, i);
    }
  }

  lemma {:induction false} ChildIsLocated(g: Graph, c: Id, t: Token, i: nat, j: nat)
    requires Dag(g) && c in g && i <= j < |g[c].children|
    requires t in g[g[c].children[j]].exports && Locations(g, g[c].children[j], t) != []
    ensures ChildLocations(g, c, t, i) != []
    decreases j - i
  {
    if i < j {
      ChildIsLocated(g, c, t, i + 1, j);
    }
  }

  lemma SeesThroughImport(g: Graph, c: Id, d: Id, rest: seq<Id>, t: Token) returns (path: seq<Id>)
    requires Dag(g) && c in g && d in g[c].children && t in g[d].exports
    requires Sees(g, rest, t) && rest[0] == d
    ensures Sees(g, path, t) && path[0] == c
  {
    hide Dag, SharedHas;
    path := [c] + rest;
    forall i | 0 <= i < |path| - 1
      ensures ImportsAt(g, path, i, t)
    {
      if i > 0 {
        assert ImportsAt(g, rest, i - 1, t);
      }
    }
  }

  lemma {:induction false} LocatedIsSeen(g: Graph, c: Id, t: Token) returns (path: seq<Id>)
    requires Dag(g) && c in g && Locations(g, c, t) != []
    ensures Sees(g, path, t) && path[0] == c
    decreases g[c].height, |g[c].children| + 1
  {
    if t in g[c].providers || SharedHas(g, c, t) {
      path := [c];
    } else {
      path := ChildLocatedIsSeen(g, c, t, 0);
    }
  }

  lemma {:induction false} ChildLocatedIsSeen(g: Graph, c: Id, t: Token, i: nat) returns (path: seq<Id>)
    requires Dag(g) && c in g && i <= |g[c].children| && ChildLocations(g, c, t, i) != []
    ensures Sees(g, path, t) && path[0] == c
    decreases g[c].height, |g[c].children| - i
  {
    var d := g[c].children[i];
    if t in g[d].exports && Locations(g, d, t) != [] {
      path := LocatedIsSeen(g, d, t);
      path := SeesThroughImport(g, c, d, path, t);
    } else {
      path := ChildLocatedIsSeen(g, c, t, i + 1);
    }
  }

  /** The order-free reading of the search: something is tried for `t` exactly when a chain
      of exporting imports leads to a provider. */
  lemma {:induction false} VisibleIffLocated(g: Graph, c: Id, t: Token)
    requires Dag(g) && c in g
    ensures Visible(g, c, t) <==> Locations(g, c, t) != []
  {
    if Locations(g, c, t) != [] {
      var path := LocatedIsSeen(g, c, t);
    }
    forall path | Sees(g, path, t) && path[0] == c
      ensures Locations(g, c, t) != []
    {
      SeenIsLocated(g, path, t);
    }
  }

  // ------------------------------------------------------------ missing tokens

  /** Within `n` steps, every location of `t` seen from `c` requires a token that is itself
      lacking. With no location at all, `t` is lacking at once. */
  ghost predicate Lacks(g: Graph, n: nat, c: Id, t: Token)
    requires Dag(g) && c in g
    decreases n, 1
  {
    n > 0 && forall e | e in Locations(g, c, t) :: LacksAt(g, n, e, t)
  }

  ghost predicate LacksAt(g: Graph, n: nat, e: Id, t: Token)
    requires Dag(g)
    decreases n, 0
  {
    n > 0 && e in g && t in g[e].providers &&
    exists u :: Requires(g[e].providers[t], u) && Lacks(g, n - 1, e, u)
  }

  ghost predicate Missing(g: Graph, c: Id, t: Token)
    requires Dag(g) && c in g
  {
    exists n: nat :: Lacks(g, n, c, t)
  }

  /** The provider of `t` in `e` cannot be built because a token it requires is missing. */
  ghost predicate MissingAt(g: Graph, e: Id, t: Token)
    requires Dag(g)
  {
    e in g && t in g[e].providers && exists u :: Requires(g[e].providers[t], u) && Missing(g, e, u)
  }

  lemma {:induction false} LacksMonotone(g: Graph, m: nat, n: nat, c: Id, t: Token)
    requires Dag(g) && c in g && m <= n && Lacks(g, m, c, t)
    ensures Lacks(g, n, c, t)
    decreases m, 1
  {
    forall e | e in Locations(g, c, t)
      ensures LacksAt(g, n, e, t)
    {
      LacksAtMonotone(g, m, n, e, t);
    }
  }

  lemma {:induction false} LacksAtMonotone(g: Graph, m: nat, n: nat, e: Id, t: Token)
    requires Dag(g) && m <= n && LacksAt(g, m, e, t)
    ensures LacksAt(g, n, e, t)
    decreases m, 0
  {
    var u :| Requires(g[e].providers[t], u) && Lacks(g, m - 1, e, u);
    LacksMonotone(g, m - 1, n - 1, e, u);
  }

  /** A token is missing exactly when it is missing at every one of its locations. */
  lemma {:induction false} MissingEverywhere(g: Graph, c: Id, t: Token)
    requires Dag(g) && c in g
    ensures Missing(g, c, t) <==> forall e | e in Locations(g, c, t) :: MissingAt(g, e, t)
  {
    if Missing(g, c, t) {
      var n: nat :| Lacks(g, n, c, t);
      forall e | e in Locations(g, c, t)
        ensures MissingAt(g, e, t)
      {
        assert LacksAt(g, n, e, t);
      }
    }
    if forall e | e in Locations(g, c, t) :: MissingAt(g, e, t) {
      var n := LacksBound(g, Locations(g, c, t), t);
      assert Lacks(g, n, c, t);
    }
  }

  lemma {:induction false} LacksBound(g: Graph, es: seq<Id>, t: Token) returns (n: nat)
    requires Dag(g) && forall e | e in es :: MissingAt(g, e, t)
    ensures n > 0 && forall e | e in es :: LacksAt(g, n, e, t)
  {
    if es == [] {
      n := 1;
    } else {
      var m := LacksBound(g, es[1..], t);
      assert es[0] in es;
      var u :| Requires(g[es[0]].providers[t], u) && Missing(g, es[0], u);
      var k: nat :| Lacks(g, k, es[0], u);
      n := m + k + 1;
      LacksMonotone(g, k, n - 1, es[0], u);
      forall e | e in es
        ensures LacksAt(g, n, e, t)
      {
        if e in es[1..] {
          LacksAtMonotone(g, m, n, e, t);
        } else {
          assert e == es[0];
        }
      }
    }
  }

  /** Every required token of every provider can be seen from the provider's container. */
  ghost predicate Complete(g: Graph)
    requires Dag(g)
  {
    forall e, t, u | e in g && t in g[e].providers && Requires(g[e].providers[t], u) :: Visible(g, e, u)
  }

  lemma {:induction false} CompleteLacks(g: Graph, n: nat, c: Id, t: Token)
    requires Dag(g) && c in g && Complete(g) && Lacks(g, n, c, t)
    ensures !Visible(g, c, t)
    decreases n
  {
    VisibleIffLocated(g, c, t);
    if Locations(g, c, t) != [] {
      var e := Locations(g, c, t)[0];
      assert LacksAt(g, n, e, t);
      var u :| Requires(g[e].providers[t], u) && Lacks(g, n - 1, e, u);
      CompleteLacks(g, n - 1, e, u);
    }
  }

  /** In a complete graph only invisible tokens are missing. */
  lemma CompleteMissing(g: Graph, c: Id, t: Token)
    requires Dag(g) && c in g && Complete(g)
    ensures Missing(g, c, t) <==> !Visible(g, c, t)
  {
    VisibleIffLocated(g, c, t);
    MissingEverywhere(g, c, t);
    if Missing(g, c, t) {
      var n: nat :| Lacks(g, n, c, t);
      CompleteLacks(g, n, c, t);
    }
  }

  // ------------------------------------------------------- dependency cycles

  ghost predicate AsksAt(providers: map<Token, Normalized>, ts: seq<Token>, i: nat)
    requires i < |ts| - 1 && forall t | t in ts :: t in providers
  {
    ts[i + 1] in Declared(providers[ts[i]])
  }

  /** Each token is provided here and asks for the next one. */
  ghost predicate Chain(providers: map<Token, Normalized>, ts: seq<Token>) {
    && (forall t | t in ts :: t in providers)
    && (forall i | 0 <= i < |ts| - 1 :: AsksAt(providers, ts, i))
  }

  lemma ChainDrop(providers: map<Token, Normalized>, ts: seq<Token>, k: nat)
    requires Chain(providers, ts) && k <= |ts|
    ensures Chain(providers, ts[k..])
  {
    forall i | 0 <= i < |ts[k..]| - 1
      ensures AsksAt(providers, ts[k..], i)
    {
      assert AsksAt(providers, ts, k + i);
    }
  }

  lemma ChainTake(providers: map<Token, Normalized>, ts: seq<Token>, k: nat)
    requires Chain(providers, ts) && k <= |ts|
    ensures Chain(providers, ts[..k])
  {
    forall i | 0 <= i < |ts[..k]| - 1
      ensures AsksAt(providers, ts[..k], i)
    {
      assert AsksAt(providers, ts, i);
    }
  }

  lemma ChainAppend(providers: map<Token, Normalized>, ts: seq<Token>, t: Token)
    requires Chain(providers, ts) && t in providers
    requires ts != [] ==> t in Declared(providers[ts[|ts| - 1]])
    ensures Chain(providers, ts + [t])
  {
    forall i | 0 <= i < |ts + [t]| - 1
      ensures AsksAt(providers, ts + [t], i)
    {
      if i < |ts| - 1 {
        assert AsksAt(providers, ts, i);
      }
    }
  }

  /** A chain that comes back to a token it has already passed. */
  ghost predicate CycleWitness(providers: map<Token, Normalized>, ts: seq<Token>) {
    |ts| >= 2 && Chain(providers, ts) && ts[|ts| - 1] in ts[..|ts| - 1]
  }

  /** `t` asks for itself, directly or through tokens of the same container. */
  ghost predicate ReachesItself(providers: map<Token, Normalized>, t: Token) {
    exists ts :: |ts| >= 2 && Chain(providers, ts) && ts[0] == t && ts[|ts| - 1] == t
  }

  lemma CycleReachesItself(providers: map<Token, Normalized>, ts: seq<Token>)
    requires CycleWitness(providers, ts)
    ensures ReachesItself(providers, ts[|ts| - 1])
  {
    var i :| 0 <= i < |ts| - 1 && ts[i] == ts[|ts| - 1];
    ChainDrop(providers, ts, i);
    assert ts[i..][|ts[i..]| - 1] == ts[|ts| - 1];
  }

  /** The dependencies among the container's own tokens go strictly down in rank. */
  ghost predicate Ranked(providers: map<Token, Normalized>, rank: Token -> nat) {
    forall t, u | t in providers && u in providers && u in Declared(providers[t]) :: rank(u) < rank(t)
  }

  lemma {:induction false} ChainDescends(providers: map<Token, Normalized>, rank: Token -> nat, ts: seq<Token>)
    requires Ranked(providers, rank) && Chain(providers, ts) && |ts| >= 2
    ensures rank(ts[|ts| - 1]) < rank(ts[0])
  {
    assert AsksAt(providers, ts, 0);
    if |ts| > 2 {
      ChainDrop(providers, ts, 1);
      ChainDescends(providers, rank, ts[1..]);
    }
  }

  /** No token of an acyclic container reaches itself. */
  lemma RankedHasNoCycle(providers: map<Token, Normalized>, rank: Token -> nat, t: Token)
    requires Ranked(providers, rank)
    ensures !ReachesItself(providers, t)
  {
    forall ts | |ts| >= 2 && Chain(providers, ts) && ts[0] == t
      ensures ts[|ts| - 1] != t
    {
      ChainDescends(providers, rank, ts);
    }
  }

  // ------------------------------------------------------- providers that never make anything

  ghost predicate RequestScoped(g: Graph, d: Id, t: Token) {
    d in g && t in g[d].providers && g[d].providers[t].mode == Request
  }

  /** Each of these providers requires a token whose every location is one of them. Where that location is
      request-scoped, so are all request-scoped providers of the token, since a request hands out the
      instances of any of them. */
  ghost predicate Stuck(g: Graph, s: set<(Id, Token)>)
    requires Dag(g)
  {
    forall c, t | (c, t) in s :: c in g && t in g[c].providers && exists u :: Needs(g, s, c, t, u)
  }

  ghost predicate Needs(g: Graph, s: set<(Id, Token)>, c: Id, t: Token, u: Token)
    requires Dag(g) && c in g && t in g[c].providers
  {
    Requires(g[c].providers[t], u) && forall e | e in Locations(g, c, u) :: Barred(g, s, e, u)
  }

  ghost predicate Barred(g: Graph, s: set<(Id, Token)>, e: Id, u: Token) {
    (e, u) in s && (RequestScoped(g, e, u) ==> forall d: Id | RequestScoped(g, d, u) :: (d, u) in s)
  }

  ghost predicate Unstuck(g: Graph, c: Id, t: Token)
    requires Dag(g)
  {
    forall s | Stuck(g, s) :: (c, t) !in s
  }

  /** Nothing that location `e` could give for the token can ever be made. */
  ghost predicate Lost(g: Graph, e: Id, t: Token)
    requires Dag(g)
  {
    !Unstuck(g, e, t) && (RequestScoped(g, e, t) ==> forall d | RequestScoped(g, d, t) :: !Unstuck(g, d, t))
  }

  /** Where the search from `c` finds providers of the token that lack something, before any that does not, the
      token is lost: no other container's provider can supply it, or what it lacks, to a request. */
  ghost predicate Settled(g: Graph, c: Id, t: Token)
    requires Dag(g) && c in g
  {
    forall i | 0 <= i < |Locations(g, c, t)| && AllLack(g, c, t, i) :: Lost(g, Locations(g, c, t)[i], t)
  }

  ghost predicate AllLack(g: Graph, c: Id, t: Token, i: nat)
    requires Dag(g) && c in g && i < |Locations(g, c, t)|
  {
    forall j | 0 <= j <= i :: MissingAt(g, Locations(g, c, t)[j], t)
  }

  /** The request-scoped providers of one token all lack something, or none does. */
  ghost predicate Uniform(g: Graph)
    requires Dag(g)
  {
    forall t, c, d | RequestScoped(g, c, t) && RequestScoped(g, d, t) :: MissingAt(g, c, t) <==> MissingAt(g, d, t)
  }

  lemma NeedsMore(g: Graph, s: set<(Id, Token)>, r: set<(Id, Token)>, c: Id, t: Token, u: Token)
    requires Dag(g) && c in g && t in g[c].providers && Needs(g, s, c, t, u) && s <= r
    ensures Needs(g, r, c, t, u)
  {
    hide Dag, Locations, Requires, RequestScoped;
    forall e | e in Locations(g, c, u)
      ensures Barred(g, r, e, u)
    {
      assert Barred(g, s, e, u);
    }
  }

  /** All providers that are in some such set. */
  ghost function StuckPairs(g: Graph): (s: set<(Id, Token)>)
    requires Dag(g)
    ensures forall c: Id, t: Token :: (c, t) in s <==> !Unstuck(g, c, t)
  {
    var s := set c, t | c in g && t in g[c].providers && !Unstuck(g, c, t) :: (c, t);
    assert forall c, t | !Unstuck(g, c, t) :: c in g && t in g[c].providers;
    s
  }

  /** Providers that could be added to them are among them. */
  lemma StuckTogether(g: Graph, s: set<(Id, Token)>)
    requires Dag(g)
    requires forall c, t | (c, t) in s :: c in g && t in g[c].providers && exists u ::
               Needs(g, s + StuckPairs(g), c, t, u)
    ensures forall c, t | (c, t) in s :: !Unstuck(g, c, t)
  {
    hide Dag, Needs, Unstuck;
    var r := s + StuckPairs(g);
    forall c, t | (c, t) in r
      ensures c in g && t in g[c].providers && exists u :: Needs(g, r, c, t, u)
    {
      if (c, t) !in s {
        var q := StuckWith(g, c, t);
        assert q <= StuckPairs(g) by { AllStuck(g, q); }
        var u :| Needs(g, q, c, t, u);
        NeedsMore(g, q, r, c, t, u);
      }
    }
    assert Stuck(g, r);
    AllStuck(g, r);
  }

  lemma StuckWith(g: Graph, c: Id, t: Token) returns (s: set<(Id, Token)>)
    requires Dag(g) && !Unstuck(g, c, t)
    ensures Stuck(g, s) && (c, t) in s
  {
    hide Stuck;
    s :| Stuck(g, s) && (c, t) in s;
  }

  lemma AllStuck(g: Graph, s: set<(Id, Token)>)
    requires Dag(g) && Stuck(g, s)
    ensures s <= StuckPairs(g) && forall c, t | (c, t) in s :: !Unstuck(g, c, t)
  {
    hide Stuck;
    forall x | x in s
      ensures x in StuckPairs(g)
    {
      assert (x.0, x.1) in s;
    }
  }

  /** What lacks something is lost, unless requests can get it from elsewhere. */
  lemma UniformIsSettled(g: Graph, c: Id, t: Token)
    requires Dag(g) && c in g && Uniform(g)
    ensures Settled(g, c, t)
  {
    hide Dag, Locations, MissingAt, Unstuck, Stuck;
    var s := set e, u | e in g && u in g[e].providers && MissingAt(g, e, u) :: (e, u);
    LackingIsStuck(g, s);
    AllStuck(g, s);
    LocationsProvide(g, c, t);
    forall i | 0 <= i < |Locations(g, c, t)| && AllLack(g, c, t, i)
      ensures Lost(g, Locations(g, c, t)[i], t)
    {
      assert (Locations(g, c, t)[i], t) in s;
    }
  }

  /** Where every required token can be seen nothing is missing. */
  lemma CompleteIsSettled(g: Graph, c: Id, t: Token)
    requires Dag(g) && c in g && Complete(g)
    ensures Settled(g, c, t)
  {
    hide Dag, Locations, Missing, Unstuck, Visible, Requires;
    forall i | 0 <= i < |Locations(g, c, t)|
      ensures !AllLack(g, c, t, i)
    {
      var e := Locations(g, c, t)[i];
      if MissingAt(g, e, t) {
        var u :| Requires(g[e].providers[t], u) && Missing(g, e, u);
        CompleteMissing(g, e, u);
      }
    }
  }

  lemma LackingIsStuck(g: Graph, s: set<(Id, Token)>)
    requires Dag(g) && Uniform(g) && s == set e, u | e in g && u in g[e].providers && MissingAt(g, e, u) :: (e, u)
    ensures Stuck(g, s)
  {
    hide Dag, Locations, Missing, Requires, Uniform;
    forall c, t | (c, t) in s
      ensures exists u :: Needs(g, s, c, t, u)
    {
      var u :| Requires(g[c].providers[t], u) && Missing(g, c, u);
      LackingBars(g, s, c, u);
      assert Needs(g, s, c, t, u);
    }
  }

  lemma {:induction false} LackingBars(g: Graph, s: set<(Id, Token)>, c: Id, u: Token)
    requires Dag(g) && c in g && Uniform(g) && s == set e, u | e in g && u in g[e].providers && MissingAt(g, e, u) ::
               (e, u)
    requires Missing(g, c, u)
    ensures forall e | e in Locations(g, c, u) :: Barred(g, s, e, u)
  {
    hide Dag, Locations, Missing, MissingAt;
    MissingEverywhere(g, c, u);
    LocationsProvide(g, c, u);
  }

  // ------------------------------------------------------------------ cycles of requirements

  ghost predicate RequiresNext(providers: map<Token, Normalized>, ts: seq<Token>, k: nat)
    requires k < |ts| - 1 && forall t | t in ts :: t in providers
  {
    Requires(providers[ts[k]], ts[k + 1])
  }

  /** The tokens of a container require each other in a circle. Where another container provides one of
      them to requests too, that provider can make nothing either. */
  ghost predicate Circle(g: Graph, c: Id, ts: seq<Token>)
    requires Dag(g)
  {
    && c in g && |ts| >= 2 && ts[0] == ts[|ts| - 1] && (forall t | t in ts :: t in g[c].providers)
    && (forall k | 0 <= k < |ts| - 1 :: RequiresNext(g[c].providers, ts, k))
    && (forall t, d | t in ts && RequestScoped(g, c, t) && RequestScoped(g, d, t) && d != c :: !Unstuck(g, d, t))
  }

  lemma CircleIsLost(g: Graph, c: Id, ts: seq<Token>, i: nat)
    requires Dag(g) && Circle(g, c, ts) && i < |ts|
    ensures Lost(g, c, ts[i])
  {
    hide Dag, Unstuck, Needs, RequiresNext;
    var s := set t | t in ts :: (c, t);
    forall d, t | (d, t) in s
      ensures d in g && t in g[d].providers && exists u :: Needs(g, s + StuckPairs(g), d, t, u)
    {
      var k :| 0 <= k < |ts| && ts[k] == t;
      NextOnCircle(g, c, ts, s, k);
    }
    StuckTogether(g, s);
    assert (c, ts[i]) in s;
  }

  lemma {:induction false} NextOnCircle(g: Graph, c: Id, ts: seq<Token>, s: set<(Id, Token)>, k: nat)
    requires Dag(g) && Circle(g, c, ts) && k < |ts| && s == set t | t in ts :: (c, t)
    ensures exists u :: Needs(g, s + StuckPairs(g), c, ts[k], u)
  {
    hide Dag, Requires, Unstuck;
    var j := if k == |ts| - 1 then 0 else k;
    assert RequiresNext(g[c].providers, ts, j) && ts[j + 1] in ts;
    assert Locations(g, c, ts[j + 1]) == [c];
    assert Needs(g, s + StuckPairs(g), c, ts[k], ts[j + 1]);
  }

  // ---------------------------------------------------------- what a resolution may touch

  /** Every provider that one of these may ask for, wherever it is looked for, is one of these. */
  ghost predicate Enclosed(g: Graph, s: set<(Id, Token)>)
    requires Dag(g)
  {
    forall c: Id, t: Token, u: Token | (c, t) in s && c in g && t in g[c].providers
      && u in Declared(g[c].providers[t]) ::
      Found(g, s, c, u)
  }

  ghost predicate Found(g: Graph, s: set<(Id, Token)>, c: Id, u: Token)
    requires Dag(g) && c in g
  {
    forall e | e in Locations(g, c, u) :: (e, u) in s
  }

  ghost predicate LeadsTo(g: Graph, e: Id, t: Token, d: Id, u: Token)
    requires Dag(g)
  {
    forall s | Enclosed(g, s) && (e, t) in s :: (d, u) in s
  }

  /** The providers that building the one of `t` in `e` may come to, through declared dependencies. */
  ghost function Reach(g: Graph, e: Id, t: Token): (s: set<(Id, Token)>)
    requires Dag(g)
  {
    set d, u | d in g && u in g[d].providers && LeadsTo(g, e, t, d, u) :: (d, u)
  }

  /** The same for a token looked for in several places. */
  ghost function Spans(g: Graph, es: seq<Id>, t: Token): (s: set<(Id, Token)>)
    requires Dag(g)
  {
    if es == [] then {} else Spans(g, es[..|es| - 1], t) + Reach(g, es[|es| - 1], t)
  }

  /** The providers that resolving `t` in `c` may come to. */
  ghost function Scope(g: Graph, c: Id, t: Token): (s: set<(Id, Token)>)
    requires Dag(g) && c in g
  {
    Spans(g, Locations(g, c, t), t)
  }

  ghost function Everything(g: Graph): set<(Id, Token)> {
    set d, u | d in g && u in g[d].providers :: (d, u)
  }

  lemma EverythingIsEnclosed(g: Graph)
    requires Dag(g)
    ensures Enclosed(g, Everything(g))
  {
    hide Dag, Locations;
    forall c: Id, t: Token, u: Token | (c, t) in Everything(g) && u in Declared(g[c].providers[t])
      ensures Found(g, Everything(g), c, u)
    {
      LocationsProvide(g, c, u);
    }
  }

  /** It is the least closed set with the provider it starts from. */
  lemma ReachIsLeast(g: Graph, e: Id, t: Token)
    requires Dag(g) && e in g && t in g[e].providers
    ensures (e, t) in Reach(g, e, t) && Enclosed(g, Reach(g, e, t))
    ensures forall s | Enclosed(g, s) && (e, t) in s :: Reach(g, e, t) <= s
  {
    hide Dag, Enclosed, Locations;
    EverythingIsEnclosed(g);
    ReachIsEnclosed(g, e, t);
  }

  lemma ReachIsEnclosed(g: Graph, e: Id, t: Token)
    requires Dag(g) && e in g && t in g[e].providers
    ensures Enclosed(g, Reach(g, e, t))
  {
    hide Dag, Locations;
    forall c: Id, v: Token, u: Token | (c, v) in Reach(g, e, t) && u in Declared(g[c].providers[v])
      ensures Found(g, Reach(g, e, t), c, u)
    {
      LocationsProvide(g, c, u);
      forall d | d in Locations(g, c, u)
        ensures LeadsTo(g, e, t, d, u)
      {
        forall s | Enclosed(g, s) && (e, t) in s
          ensures (d, u) in s
        {
          assert (c, v) in s && Found(g, s, c, u);
        }
      }
    }
  }

  lemma {:induction false} SpansHas(g: Graph, es: seq<Id>, t: Token, s: set<(Id, Token)>)
    requires Dag(g) && forall e | e in es :: Reach(g, e, t) <= s
    ensures Spans(g, es, t) <= s
  {
    hide Dag, Reach;
    if es != [] {
      SpansHas(g, es[..|es| - 1], t, s);
    }
  }

  lemma {:induction false} SpansOf(g: Graph, es: seq<Id>, t: Token)
    requires Dag(g)
    ensures forall e | e in es :: Reach(g, e, t) <= Spans(g, es, t)
  {
    hide Dag, Reach;
    if es != [] {
      SpansOf(g, es[..|es| - 1], t);
    }
  }

  lemma {:induction false} SpansMore(g: Graph, es: seq<Id>, fs: seq<Id>, t: Token)
    requires Dag(g) && forall e | e in es :: e in fs
    ensures Spans(g, es, t) <= Spans(g, fs, t)
  {
    hide Dag, Reach, Spans;
    SpansOf(g, fs, t);
    SpansHas(g, es, t, Spans(g, fs, t));
  }

  /** What a provider declares is looked for within its reach. */
  lemma DeclaredInReach(g: Graph, c: Id, t: Token, u: Token)
    requires Dag(g) && c in g && t in g[c].providers && u in Declared(g[c].providers[t])
    ensures Scope(g, c, u) <= Reach(g, c, t)
  {
    hide Dag, Locations, Reach, Spans, Enclosed;
    ReachIsLeast(g, c, t);
    LocationsProvide(g, c, u);
    assert Found(g, Reach(g, c, t), c, u) by { EnclosedAt(g, Reach(g, c, t), c, t, u); }
    forall e | e in Locations(g, c, u)
      ensures Reach(g, e, u) <= Reach(g, c, t)
    {
      ReachIsLeast(g, e, u);
    }
    SpansHas(g, Locations(g, c, u), u, Reach(g, c, t));
  }

  lemma EnclosedAt(g: Graph, s: set<(Id, Token)>, c: Id, t: Token, u: Token)
    requires Dag(g) && Enclosed(g, s) && (c, t) in s && c in g && t in g[c].providers
             && u in Declared(g[c].providers[t])
    ensures Found(g, s, c, u)
  {
  }

  lemma {:induction false} OwnScope(g: Graph, c: Id, t: Token)
    requires Dag(g) && c in g && t in g[c].providers
    ensures Locations(g, c, t) == [c] && Scope(g, c, t) == Reach(g, c, t)
  {
    hide Dag, Reach;
    assert [c][..0] == [];
    assert Spans(g, [], t) == {};
  }

  ghost predicate LeadsAt(g: Graph, path: seq<(Id, Token)>, i: nat)
    requires Dag(g) && i < |path| - 1
  {
    var c, t := path[i].0, path[i].1;
    && c in g && t in g[c].providers && path[i + 1].1 in Declared(g[c].providers[t])
    && path[i + 1].0 in Locations(g, c, path[i + 1].1)
  }

  /** Each provider declares the token of the next, which is looked for where the next one is. */
  ghost predicate Leads(g: Graph, path: seq<(Id, Token)>)
    requires Dag(g)
  {
    path != [] && forall i | 0 <= i < |path| - 1 :: LeadsAt(g, path, i)
  }

  ghost predicate LedTo(g: Graph, e: Id, t: Token, d: Id, u: Token)
    requires Dag(g)
  {
    exists path :: Leads(g, path) && path[0] == (e, t) && path[|path| - 1] == (d, u)
  }

  /** A provider may come to exactly those that a chain of declared dependencies leads to. */
  lemma ReachIsByPath(g: Graph, e: Id, t: Token, d: Id, u: Token)
    requires Dag(g) && e in g && t in g[e].providers
    ensures (d, u) in Reach(g, e, t) <==> LedTo(g, e, t, d, u)
  {
    hide Dag, Reach, LedTo;
    ReachIsLeast(g, e, t);
    LedIsEnclosed(g, e, t);
    var led := set c, v | c in g && v in g[c].providers && LedTo(g, e, t, c, v) :: (c, v);
    assert (e, t) in led by { LedToItself(g, e, t); }
    if LedTo(g, e, t, d, u) {
      LedIsInside(g, Reach(g, e, t), e, t, d, u);
    }
  }

  lemma {:induction false} LedToItself(g: Graph, e: Id, t: Token)
    requires Dag(g)
    ensures LedTo(g, e, t, e, t)
  {
    assert Leads(g, [(e, t)]);
  }

  lemma {:induction false} LedIsEnclosed(g: Graph, e: Id, t: Token)
    requires Dag(g) && e in g && t in g[e].providers
    ensures Enclosed(g, set c, v | c in g && v in g[c].providers && LedTo(g, e, t, c, v) :: (c, v))
  {
    hide Dag, Locations, LedTo, Leads;
    var led := set c, v | c in g && v in g[c].providers && LedTo(g, e, t, c, v) :: (c, v);
    forall c: Id, v: Token, u: Token | (c, v) in led && u in Declared(g[c].providers[v])
      ensures Found(g, led, c, u)
    {
      LocationsProvide(g, c, u);
      forall d | d in Locations(g, c, u)
        ensures LedTo(g, e, t, d, u)
      {
        LedFurther(g, e, t, c, v, d, u);
      }
    }
  }

  lemma {:induction false} LedFurther(g: Graph, e: Id, t: Token, c: Id, v: Token, d: Id, u: Token)
    requires Dag(g) && LedTo(g, e, t, c, v) && c in g && v in g[c].providers && u in Declared(g[c].providers[v])
             && d in Locations(g, c, u)
    ensures LedTo(g, e, t, d, u)
  {
    hide Dag, Locations, Declared;
    var path :| Leads(g, path) && path[0] == (e, t) && path[|path| - 1] == (c, v);
    var more := path + [(d, u)];
    forall i | 0 <= i < |more| - 1
      ensures LeadsAt(g, more, i)
    {
      if i < |path| - 1 {
        assert LeadsAt(g, path, i);
      }
    }
    assert Leads(g, more);
  }

  lemma {:induction false} LedIsInside(g: Graph, s: set<(Id, Token)>, e: Id, t: Token, d: Id, u: Token)
    requires Dag(g) && Enclosed(g, s) && (e, t) in s && LedTo(g, e, t, d, u)
    ensures (d, u) in s
  {
    hide Dag, Locations, Enclosed;
    var path: seq<(Id, Token)> :| Leads(g, path) && path[0] == (e, t) && path[|path| - 1] == (d, u);
    for i := 0 to |path| - 1
      invariant path[i] in s
    {
      assert LeadsAt(g, path, i);
      EnclosedAt(g, s, path[i].0, path[i].1, path[i + 1].1);
      assert (path[i + 1].0, path[i + 1].1) in s;
    }
  }
}
