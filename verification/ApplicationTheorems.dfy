/** What the lifecycle of a created application covers. */
module ApplicationTheorems {
  import opened Basics
  import opened InjectorGraph
  import opened InjectorState
  import opened InjectorResolution
  import opened InjectorTheorems
  import opened ModuleGraph
  import opened ModuleCompilation
  import opened ContainerGraph
  import opened Lifecycle
  import opened InjectorContexts

  // ------------------------------------------------------------------ passes over instances

  /** A chain of containers, each a child of the one before. */
  ghost predicate KidPath(kids: map<Ref, seq<Ref>>, path: seq<Ref>) {
    path != [] && path[0] in kids && (|path| > 1 ==> path[1] in kids[path[0]] && KidPath(kids, path[1..]))
  }

  ghost predicate Under(kids: map<Ref, seq<Ref>>, r: Ref, x: Ref) {
    exists path :: KidPath(kids, path) && path[0] == r && path[|path| - 1] == x
  }

  lemma {:induction false} KidPathStays(a: map<Ref, seq<Ref>>, b: map<Ref, seq<Ref>>, path: seq<Ref>)
    requires KidPath(a, path) && forall r | r in a :: r in b && b[r] == a[r]
    ensures KidPath(b, path)
  {
    if |path| > 1 {
      KidPathStays(a, b, path[1..]);
    }
  }

  lemma UnderStays(a: map<Ref, seq<Ref>>, b: map<Ref, seq<Ref>>, r: Ref, x: Ref)
    requires Under(a, r, x) && forall r | r in a :: r in b && b[r] == a[r]
    ensures Under(b, r, x)
  {
    var path :| KidPath(a, path) && path[0] == r && path[|path| - 1] == x;
    KidPathStays(a, b, path);
  }

  lemma {:induction false} UnderKid(kids: map<Ref, seq<Ref>>, r: Ref, y: Ref, x: Ref)
    requires r in kids && y in kids[r] && Under(kids, y, x)
    ensures Under(kids, r, x)
  {
    var path :| KidPath(kids, path) && path[0] == y && path[|path| - 1] == x;
    var more := [r] + path;
    assert more[1..] == path && KidPath(kids, more) && more[|more| - 1] == x;
  }

  lemma {:induction false} UnderItself(kids: map<Ref, seq<Ref>>, r: Ref)
    requires r in kids
    ensures Under(kids, r, r)
  {
    assert KidPath(kids, [r]);
  }

  /** What is built for a module is under its container. */
  lemma {:induction false} BuiltUnder(plan: Plan, r: Ref, b: Building)
    requires Buildable(plan) && r in Order(plan) && Sane(plan, b) && ClassOf(plan.p, r) !in b.index
    ensures var after := BuildOne(plan, r, b); forall x | x in after.order && x !in b.order :: Under(after.kids, r, x)
    decreases plan.rank(r) + 1, 0
  {
    hide Order, Buildable, Sane, NewBelow, ImportsOf, Refs, WellFormed, ClassOf, Chosen, Lists, BuildOne, BuildAll,
      Under;
    BuildOneStep(plan, r, b);
    BuildOneIsSane(plan, r, b);
    var rs := ImportsOf(plan.p)[r];
    var inner := BuildAll(plan, rs, b, plan.rank(r));
    var after := BuildOne(plan, r, b);
    BuildAllIsSane(plan, rs, b, plan.rank(r));
    AllBuiltUnder(plan, rs, b, plan.rank(r));
    IsNew(plan, r, b, inner.0);
    UnderItself(after.kids, r);
    forall x | x in after.order && x !in b.order
      ensures Under(after.kids, r, x)
    {
      if x in inner.0.order {
        var y :| y in inner.1 && Under(inner.0.kids, y, x);
        UnderStays(inner.0.kids, after.kids, y, x);
        UnderKid(after.kids, r, y, x);
      }
    }
  }

  lemma {:induction false} AllBuiltUnder(plan: Plan, rs: seq<Ref>, b: Building, bound: nat)
    requires Buildable(plan) && Sane(plan, b) && forall x | x in rs :: x in Order(plan) && plan.rank(x) < bound
    ensures var after := BuildAll(plan, rs, b, bound);
            forall x | x in after.0.order && x !in b.order :: exists y :: y in after.1 && Under(after.0.kids, y, x)
    decreases bound, |rs| + 1
  {
    hide Order, Buildable, Sane, NewBelow, ImportsOf, Refs, WellFormed, ClassOf, Chosen, Lists, BuildOne, Under;
    if rs != [] {
      var front, x := rs[..|rs| - 1], rs[|rs| - 1];
      var before := BuildAll(plan, front, b, bound);
      var next := BuildOne(plan, x, before.0);
      BuildAllIsSane(plan, front, b, bound);
      BuildOneIsSane(plan, x, before.0);
      AllBuiltUnder(plan, front, b, bound);
      if ClassOf(plan.p, x) in before.0.index {
        BuildOneStep(plan, x, before.0);
      } else {
        BuiltUnder(plan, x, before.0);
      }
      forall z | z in next.order && z !in b.order
        ensures exists y :: y in before.1 + [next.index[ClassOf(plan.p, x)]] && Under(next.kids, y, z)
      {
        if z in before.0.order {
          var y :| y in before.1 && Under(before.0.kids, y, z);
          UnderStays(before.0.kids, next.kids, y, z);
          assert y in before.1 + [next.index[ClassOf(plan.p, x)]];
        } else {
          var own := next.index[ClassOf(plan.p, x)];
          assert own == x && own in before.1 + [own];
        }
      }
    }
  }

  lemma KidNodes(plan: Plan, r: Ref)
    requires Buildable(plan) && plan.root in Order(plan) && r in Built(plan).order
    ensures var g, b := GraphOf(plan), Built(plan);
            && ContainerId(r) in g && r in b.kids && g[ContainerId(r)].children == ContainerIds(b.kids[r])
            && forall x | x in b.kids[r] :: x in b.order
  {
    hide Order, Buildable, GraphFrom, Sane, BuildOne, TableOf, ContainerId, Position;
    BuiltIsSane(plan);
    GraphAt(plan, Built(plan), r);
    var i := KidsOf(plan, Built(plan), r);
  }

  lemma {:induction false} UnderIsBelow(plan: Plan, path: seq<Ref>)
    requires Buildable(plan) && plan.root in Order(plan) && Dag(GraphOf(plan)) && KidPath(Built(plan).kids, path)
             && path[0] in Built(plan).order
    ensures path[|path| - 1] in Built(plan).order && ContainerId(path[0]) in GraphOf(plan)
    ensures Below(GraphOf(plan), ContainerId(path[0]), ContainerId(path[|path| - 1]))
  {
    hide Order, Buildable, GraphOf, Built, Dag, ContainerId;
    KidNodes(plan, path[0]);
    if |path| > 1 {
      UnderIsBelow(plan, path[1..]);
      var kids := Built(plan).kids[path[0]];
      var i :| 0 <= i < |kids| && kids[i] == path[1];
      assert GraphOf(plan)[ContainerId(path[0])].children[i] == ContainerId(path[1]);
    }
  }

  lemma {:induction false} BelowIsBuilt(plan: Plan, r: Ref, d: Id) returns (x: Ref)
    requires Buildable(plan) && plan.root in Order(plan) && Dag(GraphOf(plan)) && r in Built(plan).order
             && ContainerId(r) in GraphOf(plan)
    requires Below(GraphOf(plan), ContainerId(r), d)
    ensures x in Built(plan).order && d == ContainerId(x)
    decreases GraphOf(plan)[ContainerId(r)].height
  {
    hide Order, Buildable, GraphOf, Built, ContainerId;
    KidNodes(plan, r);
    var g, kids := GraphOf(plan), Built(plan).kids[r];
    if ContainerId(r) == d {
      x := r;
    } else {
      var i :| 0 <= i < |g[ContainerId(r)].children| && Below(g, g[ContainerId(r)].children[i], d);
      LowerChild(g, ContainerId(r), i);
      assert kids[i] in kids;
      x := BelowIsBuilt(plan, kids[i], d);
    }
  }

  /** A pass from the root covers exactly the containers of modules: what only the global container has recorded is
      in no pass, whatever else happened; what a module's alias hands on from there is recorded in that module's
      container, and covered. */
  lemma {:induction false} PassesCoverModules(plan: Plan, w: World)
    requires Buildable(plan) && plan.root in Order(plan) && Dag(GraphOf(plan))
             && ContainerId(plan.root) in GraphOf(plan)
    ensures forall v :: v in AllInstances(GraphOf(plan), w, ContainerId(plan.root)) <==>
              exists x :: x in Built(plan).order && v in OwnInstances(w, ContainerId(x))
  {
    hide Order, Buildable, GraphOf, BuildOne, Dag, ContainerId, AllInstances, OwnInstances, Below, Under, Sane;
    var g, root := GraphOf(plan), ContainerId(plan.root);
    BuiltIsSane(plan);
    EachInstanceOnce(g, w, root);
    BuiltUnder(plan, plan.root, NOTHING_BUILT);
    forall v
      ensures v in AllInstances(g, w, root) <==> exists x ::
                x in Built(plan).order && v in OwnInstances(w, ContainerId(x))
    {
      if v in AllInstances(g, w, root) {
        var d :| Below(g, root, d) && v in OwnInstances(w, d);
        var x := BelowIsBuilt(plan, plan.root, d);
      }
      if x :| x in Built(plan).order && v in OwnInstances(w, ContainerId(x)) {
        assert Under(Built(plan).kids, plan.root, x);
        UnderBelow(plan, x);
      }
    }
  }

  lemma UnderBelow(plan: Plan, x: Ref)
    requires Buildable(plan) && plan.root in Order(plan) && Dag(GraphOf(plan))
             && ContainerId(plan.root) in GraphOf(plan)
    requires Under(Built(plan).kids, plan.root, x)
    ensures Below(GraphOf(plan), ContainerId(plan.root), ContainerId(x))
  {
    hide Order, Buildable, GraphOf, BuildOne, Dag, ContainerId, Below;
    BuiltIsSane(plan);
    var path :| KidPath(Built(plan).kids, path) && path[0] == plan.root && path[|path| - 1] == x;
    UnderIsBelow(plan, path);
  }

  // ------------------------------------------------------------------------ encapsulation

  /** What a module's container sees of what it does not register: what one of the containers built for its imports
      exports and sees itself, and what the global container provides. */
  lemma {:induction false} ExportsDecide(plan: Plan, r: Ref, t: Token)
    requires Buildable(plan) && plan.root in Order(plan) && Dag(GraphOf(plan))
    requires r in Built(plan).kids && ContainerId(r) in GraphOf(plan) && t !in GraphOf(plan)[ContainerId(r)].providers
    ensures Visible(GraphOf(plan), ContainerId(r), t) <==>
              t in SharedNode(plan).providers
              || exists x :: x in Built(plan).kids[r] && ExportsAndSees(plan, x, t)
  {
    hide Order, Buildable, GraphOf, BuildOne, Dag, ContainerId, Sane, SharedNode, Visible, Locations;
    var g, c, kids := GraphOf(plan), ContainerId(r), Built(plan).kids[r];
    NodeIs(plan, r);
    SharedIs(plan);
    VisibleIffLocated(g, c, t);
    LocatedWhere(g, c, t);
    forall i | 0 <= i < |kids|
      ensures g[c].children[i] in g
      ensures ExportsAndSees(plan, kids[i], t) <==>
                t in g[g[c].children[i]].exports && Locations(g, g[c].children[i], t) != []
    {
      LowerChild(g, c, i);
      VisibleIffLocated(g, g[c].children[i], t);
    }
    if x :| x in kids && ExportsAndSees(plan, x, t) {
      var i :| 0 <= i < |kids| && kids[i] == x;
      assert t in g[g[c].children[i]].exports;
    }
    if i :| 0 <= i < |g[c].children| && t in g[g[c].children[i]].exports && Locations(g, g[c].children[i], t) != [] {
      assert kids[i] in kids && ExportsAndSees(plan, kids[i], t);
    }
  }

  ghost predicate ExportsAndSees(plan: Plan, x: Ref, t: Token)
    requires Buildable(plan) && plan.root in Order(plan) && Dag(GraphOf(plan))
  {
    var g := GraphOf(plan);
    ContainerId(x) in g && t in g[ContainerId(x)].exports && Visible(g, ContainerId(x), t)
  }

  /** A container exports what the declaration of its module exports. */
  lemma ExportsAreDeclared(plan: Plan, x: Ref)
    requires Buildable(plan) && plan.root in Order(plan) && x in Built(plan).order
    ensures Known(plan.p, x) && ResolveModule(plan.p, x).Some? && ContainerId(x) in GraphOf(plan)
    ensures forall t :: t in GraphOf(plan)[ContainerId(x)].exports <==>
              t in ResolveModule(plan.p, x).value.metadata.exports
  {
    hide Order, Buildable, GraphFrom, Sane, BuildOne, TableOf, ContainerId, Position, ResolveModule;
    BuiltIsSane(plan);
    GraphAt(plan, Built(plan), x);
    KnownThere(plan, x);
  }

  lemma KnownThere(plan: Plan, x: Ref)
    requires Buildable(plan) && x in Order(plan)
    ensures Known(plan.p, x) && ResolveModule(plan.p, x).Some?
  {
    hide Order, ResolveModule;
    OrderFacts(plan, x);
  }

  lemma SharedIs(plan: Plan)
    requires Buildable(plan) && plan.root in Order(plan)
    ensures 0 in GraphOf(plan) && GraphOf(plan)[0] == SharedNode(plan)
  {
    hide Order, Buildable, GraphFrom, BuildOne, Sane, SharedNode;
    BuiltIsSane(plan);
    SharedAt(plan, Built(plan));
  }

  lemma NodeIs(plan: Plan, r: Ref)
    requires Buildable(plan) && plan.root in Order(plan) && r in Built(plan).kids
    ensures var g, c, kids := GraphOf(plan), ContainerId(r), Built(plan).kids[r];
            && c in g && g[c].shared == Some(0) && |g[c].children| == |kids|
            && forall i | 0 <= i < |kids| :: g[c].children[i] == ContainerId(kids[i])
  {
    hide Order, Buildable, GraphFrom, Sane, BuildOne, TableOf, ContainerId, Position, ResolveModule;
    BuiltIsSane(plan);
    assert r in Built(plan).order by { KidsAreBuilt(plan, Built(plan), r); }
    GraphAt(plan, Built(plan), r);
  }

  lemma KidsAreBuilt(plan: Plan, b: Building, r: Ref)
    requires Buildable(plan) && Sane(plan, b) && r in b.kids
    ensures r in b.order
  {
    hide Order, Buildable, Parented;
  }

  /** Where a search that finds something ends. */
  lemma {:induction false} LocatedWhere(g: Graph, c: Id, t: Token)
    requires Dag(g) && c in g
    ensures t in g[c].providers ==> Locations(g, c, t) != []
    ensures t !in g[c].providers ==>
              (Locations(g, c, t) != [] <==>
                SharedHas(g, c, t)
                || exists i :: 0 <= i < |g[c].children| && t in g[g[c].children[i]].exports
                               && Locations(g, g[c].children[i], t) != [])
  {
    ChildLocatedWhere(g, c, t, 0);
  }

  lemma {:induction false} ChildLocatedWhere(g: Graph, c: Id, t: Token, n: nat)
    requires Dag(g) && c in g && n <= |g[c].children|
    ensures ChildLocations(g, c, t, n) != [] <==>
              exists i :: n <= i < |g[c].children| && t in g[g[c].children[i]].exports
                          && Locations(g, g[c].children[i], t) != []
    decreases |g[c].children| - n
  {
    if n < |g[c].children| {
      ChildLocatedWhere(g, c, t, n + 1);
    }
  }

  // --------------------------------------------------------------------------- init hooks

  lemma {:induction false} RequestsAt(steps: seq<Step>, i: nat)
    requires i < |steps|
    ensures |Requests(steps)| == |steps| && Requests(steps)[i] == (steps[i].c, steps[i].token)
    decreases |steps|
  {
    if i < |steps| - 1 {
      RequestsAt(steps[..|steps| - 1], i);
    } else if |steps| > 1 {
      RequestsAt(steps[..|steps| - 1], 0);
    }
  }

  lemma {:induction false} WantedTokensAre(g: Graph, c: Id, ts: seq<Token>)
    requires Dag(g) && c in g
    ensures forall x | x in WantedTokens(g, c, ts) :: x.0 == c && x.1 in ts
  {
    hide FirstMode;
    if ts != [] {
      WantedTokensAre(g, c, ts[..|ts| - 1]);
    }
  }

  /** A token that a module owns, in the container that is the home of its class. */
  ghost predicate OwnedAt(home: map<nat, Id>, modules: seq<CompiledModule>, x: (Id, Token)) {
    exists m :: m in modules && m.cls in home && home[m.cls] == x.0 && (x.1 in m.ownTokens || x.1 == ClassToken(m.cls))
  }

  lemma {:induction false} WantedIsOwned(g: Graph, home: map<nat, Id>, modules: seq<CompiledModule>)
    requires Dag(g) && forall c | c in home :: home[c] in g
    ensures forall x | x in Wanted(g, home, modules) :: OwnedAt(home, modules, x)
  {
    hide Dag, WantedTokens;
    if modules != [] {
      var front, m := modules[..|modules| - 1], modules[|modules| - 1];
      WantedIsOwned(g, home, front);
      if m.cls in home {
        WantedTokensAre(g, home[m.cls], m.ownTokens);
      }
      forall x | x in Wanted(g, home, modules)
        ensures OwnedAt(home, modules, x)
      {
        if x in Wanted(g, home, front) {
          var n :| n in front && n.cls in home && home[n.cls] == x.0
            && (x.1 in n.ownTokens || x.1 == ClassToken(n.cls));
          assert n in modules;
        } else {
          assert x in WantedOf(g, home, m) && m in modules;
        }
      }
    }
  }

  /** A module with a container of its own registers all its own tokens there. */
  lemma {:induction false} OwnedIsRegistered(plan: Plan, m: CompiledModule, t: Token)
    requires Buildable(plan) && plan.root in Order(plan) && AsDeclared(plan, m) && HasOwn(plan, Built(plan), m.ref)
    requires t in m.ownTokens || t == ClassToken(m.cls)
    ensures m.cls in HomeOf(plan) && HomeOf(plan)[m.cls] == ContainerId(m.ref) && ContainerId(m.ref) > 0
    ensures ContainerId(m.ref) in GraphOf(plan) && t in GraphOf(plan)[ContainerId(m.ref)].providers
  {
    hide Order, Buildable, GraphFrom, Sane, BuildOne, OwnTable, Lists, ImportsOf, Refs, ResolveModule, OwnTokens,
      Position, WellFormed;
    BuiltIsSane(plan);
    IndexedIsBuilt(plan, Built(plan), m.cls);
    GraphAt(plan, Built(plan), m.ref);
    var imported := ModuleRegisters(plan, m.ref);
    var d := ResolveModule(plan.p, m.ref).value;
    OrderFacts(plan, m.ref);
    TableAt(plan.p, imported, d, t);
    OwnTokensAre(d, t);
  }

  lemma {:induction false} OwnTokensAre(d: Declaration, t: Token)
    ensures t in OwnTokens(d) <==> t in Tokens(d.metadata.providers) || t == ClassToken(d.cls)
  {
    UniqueIsSet(Tokens(d.metadata.providers) + [ClassToken(d.cls)]);
  }

  /** When no class is imported in two ways, initialisation asks only module containers, each for tokens that it
      registers itself; so it is always the container asked that answers. */
  lemma {:induction false} InitIsAtHome(plan: Plan, modules: seq<CompiledModule>, worlds: seq<World>,
                                        steps: seq<Step>, i: nat)
    requires Buildable(plan) && plan.root in Order(plan) && Dag(GraphOf(plan))
             && (forall m | m in modules :: AsDeclared(plan, m))
    requires forall r | r in Order(plan) :: OnlyForm(plan, r)
    requires Run(GraphOf(plan), worlds, steps) && Requests(steps) <= Wanted(GraphOf(plan), HomeOf(plan), modules)
             && i < |steps|
    ensures steps[i].c > 0 && steps[i].c in GraphOf(plan) && steps[i].token in GraphOf(plan)[steps[i].c].providers
    ensures steps[i].r.Ok? ==> Answerer(GraphOf(plan), steps[i]) == Some(steps[i].c)
  {
    hide Order, Buildable, GraphOf, HomeOf, Dag, OnlyForm, HasOwn, BuildOne, ContainerId, Run, Wanted, Requests,
      Locations;
    var g, home, s := GraphOf(plan), HomeOf(plan), steps[i];
    DistinctClassesAreBuilt(plan);
    RequestsAt(steps, i);
    WantedIsOwned(g, home, modules);
    assert (s.c, s.token) in Wanted(g, home, modules) by { PrefixHas(Requests(steps), Wanted(g, home, modules), i); }
    var m :| m in modules && m.cls in home && home[m.cls] == s.c
      && (s.token in m.ownTokens || s.token == ClassToken(m.cls));
    assert HasOwn(plan, Built(plan), m.ref);
    OwnedIsRegistered(plan, m, s.token);
    if s.r.Ok? {
      AnswersItself(g, worlds, steps, i);
    }
  }

  lemma PrefixHas<X>(a: seq<X>, b: seq<X>, i: nat)
    requires a <= b && i < |a|
    ensures a[i] in b
  {
    assert a[i] == b[i];
  }

  lemma {:induction false} AnswersItself(g: Graph, worlds: seq<World>, steps: seq<Step>, i: nat)
    requires Dag(g) && Run(g, worlds, steps) && i < |steps| && steps[i].r.Ok? && steps[i].c in g
             && steps[i].token in g[steps[i].c].providers
    ensures Answerer(g, steps[i]) == Some(steps[i].c)
  {
    hide Live, Dag, Explained, Reached, Traced, Advance, Scope, Resolved;
    var s := steps[i];
    assert Live(g, worlds[i]) && Live(g, worlds[i + 1]) && Stepped(g, worlds[i], worlds[i + 1], s);
    LiveDag(g, worlds[i]);
    LiveDag(g, worlds[i + 1]);
    OwnScope(g, s.c, s.token);
    hide Locations;
    AnswererExists(g, worlds[i], worlds[i + 1], s.c, s.token, s.context, s.request, s.r, s.k);
  }

  lemma {:induction false} AnswerAt(steps: seq<Step>, v: Value) returns (i: nat)
    requires v in Answers(steps)
    ensures i < |steps| && steps[i].r == Ok(v)
  {
    var n := |steps| - 1;
    if steps[n].r == Ok(v) {
      i := n;
    } else {
      i := AnswerAt(steps[..n], v);
    }
  }

  /** An init hook is called only on what a module's own container holds for a token that it registers. Instances of
      the global container, and those made as dependencies, get none unless such a token has the same instance. */
  lemma {:induction false} HookedIsHome(plan: Plan, modules: seq<CompiledModule>, worlds: seq<World>,
                                        steps: seq<Step>, has: (Hook, Value) -> bool, v: Value)
    returns (i: nat)
    requires Buildable(plan) && plan.root in Order(plan) && Dag(GraphOf(plan))
             && (forall m | m in modules :: AsDeclared(plan, m))
    requires forall r | r in Order(plan) :: OnlyForm(plan, r)
    requires Run(GraphOf(plan), worlds, steps) && Requests(steps) <= Wanted(GraphOf(plan), HomeOf(plan), modules)
    requires (ModuleInit, v) in Selected(has, ModuleInit, Unique(Answers(steps)))
    ensures i < |steps| && i + 1 < |worlds| && steps[i].r == Ok(v) && steps[i].c > 0
    ensures HeldAt(GraphOf(plan), worlds[i + 1], steps[i].c, steps[i].token, v)
  {
    hide Order, Buildable, GraphOf, HomeOf, Dag, OnlyForm, Run, Wanted, Requests, HeldAt, Answers, Selected;
    InitHooksRunOnce(has, steps);
    i := AnswerAt(steps, v);
    InitIsAtHome(plan, modules, worlds, steps, i);
    AnswererHolds(GraphOf(plan), worlds, steps, i);
  }

  lemma {:induction false} AnswererHolds(g: Graph, worlds: seq<World>, steps: seq<Step>, i: nat)
    requires Dag(g) && Run(g, worlds, steps) && i < |steps| && steps[i].r.Ok? && Answerer(g, steps[i]).Some?
    ensures i + 1 < |worlds| && HeldAt(g, worlds[i + 1], Answerer(g, steps[i]).value, steps[i].token, steps[i].r.value)
  {
    hide Live, Dag, Explained, Reached, Traced, Advance, Scope, Locations, HeldAt, PassedOver, Delivered;
    assert Live(g, worlds[i]) && Live(g, worlds[i + 1]) && Stepped(g, worlds[i], worlds[i + 1], steps[i]);
  }

  // -------------------------------------------------------------------- creation succeeds

  /** Everything that resolving the module class can come to can be made outside requests. */
  ghost predicate Startable(g: Graph, home: map<nat, Id>, m: CompiledModule)
    requires Dag(g) && forall c | c in home :: home[c] in g
  {
    m.cls in home ==>
      && !Missing(g, home[m.cls], ClassToken(m.cls))
      && Healthy(g, Scope(g, home[m.cls], ClassToken(m.cls)), false)
  }

  /** Creation succeeds when no class is imported in two forms, every module class can be made outside requests, and no
      application code throws. What is wrong with any other provider does not stop it. */
  lemma {:induction false} CreationSucceeds(plan: Plan, modules: seq<CompiledModule>, worlds: seq<World>,
                                            steps: seq<Step>, error: Option<InitFailure>, calls: seq<HookCall>)
    requires Buildable(plan) && plan.root in Order(plan) && Names(modules) == Order(plan)
             && (forall m | m in modules :: AsDeclared(plan, m))
    requires forall r | r in Order(plan) :: OnlyForm(plan, r)
    requires Dag(GraphOf(plan)) && Run(GraphOf(plan), worlds, steps)
    requires Initialised(GraphOf(plan), HomeOf(plan), modules, steps, error, calls)
    requires forall m | m in modules :: Startable(GraphOf(plan), HomeOf(plan), m)
    requires |worlds| > 0 && Untroubled(worlds[|worlds| - 1].log, |worlds[0].log|)
    requires forall x | x in calls :: x.error.None?
    ensures error.None?
  {
    hide Order, Buildable, GraphOf, HomeOf, Dag, OnlyForm, HasOwn, BuildOne, ClassOf, Run, Untroubled, Startable;
    hide Wanted, Requests, PassedAll, Names;
    if error.Some? {
      if error.value.NoContainer? {
        ContainersDecide(plan, modules, steps, error, calls);
        EveryClassHasOne(plan);
      } else {
        var g, home := GraphOf(plan), HomeOf(plan);
        var i :| 0 <= i < |modules| && FailedAt(g, home, modules, steps, error.value, calls, i);
        var n := |steps| - 1;
        assert modules[i] in modules;
        LastSucceeds(g, worlds, steps, home, modules[i]);
        NotBlamed(error.value, steps[n], calls);
      }
    }
  }

  lemma NotBlamed(f: InitFailure, s: Step, calls: seq<HookCall>)
    requires s.r.Ok? && forall x | x in calls :: x.error.None?
    ensures !Blames(f, s, calls)
  {
    if f.HookFailed? && calls != [] {
      assert calls[|calls| - 1] in calls;
    }
  }

  lemma {:induction false} EveryClassHasOne(plan: Plan)
    requires Buildable(plan) && plan.root in Order(plan) && forall r | r in Order(plan) :: OnlyForm(plan, r)
    ensures forall r | r in Order(plan) :: ClassOf(plan.p, r) in HomeOf(plan)
  {
    hide Order, Buildable, OnlyForm, BuildOne, ClassOf, Sane, ContainerId, ImportsOf;
    BuildableFacts(plan);
    DistinctClassesAreBuilt(plan);
    forall r | r in Order(plan)
      ensures ClassOf(plan.p, r) in HomeOf(plan)
    {
      assert HasOwn(plan, Built(plan), r);
    }
  }

  /** The last step of a run, when it is for a class that can be made. */
  lemma {:induction false} LastSucceeds(g: Graph, worlds: seq<World>, steps: seq<Step>, home: map<nat, Id>,
                                        m: CompiledModule)
    requires Dag(g) && (forall c | c in home :: home[c] in g) && Run(g, worlds, steps) && steps != []
    requires m.cls in home && Startable(g, home, m)
    requires steps[|steps| - 1].c == home[m.cls] && steps[|steps| - 1].token == ClassToken(m.cls)
    requires |worlds| > 0 && Untroubled(worlds[|worlds| - 1].log, |worlds[0].log|)
    ensures steps[|steps| - 1].r.Ok?
  {
    hide Dag, Live, Stepped, Missing, Scope, Settled;
    var n := |steps| - 1;
    RunAdvances(g, worlds, steps, 0, n);
    AdvanceKeeps(worlds[0], worlds[n]);
    HealthyInside(g, Scope(g, steps[n].c, steps[n].token), steps[n].request.Some?);
    StepSucceeds(g, worlds, steps, n);
  }

  lemma HealthyInside(g: Graph, s: set<(Id, Token)>, inRequest: bool)
    requires Healthy(g, s, false)
    ensures Healthy(g, s, inRequest)
  {
    hide InjectorGraph.ReachesItself;
    forall d: Id, t: Token | (d, t) in s && d in g
      ensures HealthyAt(g, d, t, inRequest)
    {
      assert HealthyAt(g, d, t, false);
    }
  }

  // --------------------------------------------------------------- one class in two forms

  /** Creation gets past a module only when its class has a container, and never stops for want of one otherwise. */
  lemma {:induction false} ContainersDecide(plan: Plan, modules: seq<CompiledModule>, steps: seq<Step>,
                                            error: Option<InitFailure>, calls: seq<HookCall>)
    requires Buildable(plan) && plan.root in Order(plan) && Names(modules) == Order(plan)
             && (forall m | m in modules :: AsDeclared(plan, m))
    requires Dag(GraphOf(plan)) && Initialised(GraphOf(plan), HomeOf(plan), modules, steps, error, calls)
    ensures error.None? ==> forall r | r in Order(plan) :: ClassOf(plan.p, r) in HomeOf(plan)
    ensures error.Some? && error.value.NoContainer? ==>
              exists r :: r in Order(plan) && ClassOf(plan.p, r) == error.value.cls && error.value.cls !in HomeOf(plan)
  {
    hide Order, Buildable, GraphOf, HomeOf, Dag, ClassOf, Names, OwnTokens, Requests, Wanted, Blames;
    NamesAt(modules);
    BuildableFacts(plan);
    if error.None? {
      forall r | r in Order(plan)
        ensures ClassOf(plan.p, r) in HomeOf(plan)
      {
        var i :| 0 <= i < |Names(modules)| && Names(modules)[i] == r;
        assert modules[i] in modules && Passed(GraphOf(plan), HomeOf(plan), modules, steps, i);
      }
    } else if error.value.NoContainer? {
      var i :| 0 <= i < |modules| && StoppedAt(GraphOf(plan), HomeOf(plan), modules, steps, error.value.cls, i);
      assert modules[i] in modules && modules[i].ref in Order(plan);
    }
  }

  /** The root imports module 1 as it is, and then in a dynamic form that imports module 2. */
  function TwoForms(): Program {
    var plain := ModuleClass(Some(Metadata([], [], [])), false, None, []);
    Program(map[0 := plain.(metadata := Some(Metadata([StaticModule(1), DynamicModule(0)], [], []))), 1 := plain,
                2 := plain],
            map[0 := Dynamic(1, Metadata([StaticModule(2)], [], []), None)])
  }

  function TwoFormsRank(r: Ref): nat {
    if r == StaticModule(0) then 2 else if r == DynamicModule(0) then 1 else 0
  }

  ghost function TwoFormsPlan(): Plan {
    Plan(TwoForms(), StaticModule(0), true, TwoFormsRank)
  }

  lemma {:induction false} TwoFormsImports()
    ensures var p := TwoForms();
            && WellFormed(p) && Refs(p) == {StaticModule(0), StaticModule(1), StaticModule(2), DynamicModule(0)}
            && ImportsOf(p)[StaticModule(0)] == [StaticModule(1), DynamicModule(0)]
            && ImportsOf(p)[DynamicModule(0)] == [StaticModule(2)]
            && ImportsOf(p)[StaticModule(1)] == [] && ImportsOf(p)[StaticModule(2)] == []
            && forall r | r in Refs(p) :: ResolveModule(p, r).Some?
  {
    assert [] + [StaticModule(2)] == [StaticModule(2)];
  }

  lemma {:induction false} TwoFormsIsBuildable()
    ensures var plan := TwoFormsPlan(); Buildable(plan) && plan.root in Order(plan)
  {
    hide Dfs, Reaches, ImportsOf, Refs, WellFormed, TwoForms, ResolveModule;
    var plan := TwoFormsPlan();
    TwoFormsImports();
    assert Workable(plan);
    SoBuildable(plan);
  }

  lemma {:induction false} TwoFormsOrder()
    requires Buildable(TwoFormsPlan())
    ensures StaticModule(2) in Order(TwoFormsPlan()) && StaticModule(1) in Order(TwoFormsPlan())
            && DynamicModule(0) in Order(TwoFormsPlan())
  {
    hide Dfs, Reaches, ImportsOf, Refs, WellFormed, TwoForms, Workable, Fails;
    var plan := TwoFormsPlan();
    TwoFormsImports();
    var g := ImportsOf(plan.p);
    InitOrderIsSound(g, plan.root);
    ReachesImport(g, StaticModule(0), StaticModule(0), StaticModule(1));
    ReachesImport(g, StaticModule(0), StaticModule(0), DynamicModule(0));
    ReachesImport(g, StaticModule(0), DynamicModule(0), StaticModule(2));
  }

  lemma {:induction false} TwoFormsBuilt()
    requires Buildable(TwoFormsPlan()) && StaticModule(0) in Order(TwoFormsPlan())
    ensures Built(TwoFormsPlan()).index.Keys == {0, 1}
  {
    hide Order, Buildable, BuildOne, BuildAll, ImportsOf, Refs, WellFormed;
    var plan := TwoFormsPlan();
    var root, one, dynamic := StaticModule(0), StaticModule(1), DynamicModule(0);
    TwoFormsImports();
    var rs := ImportsOf(plan.p)[root];
    TwoFormsOrder();
    BuildOneStep(plan, root, NOTHING_BUILT);
    BuildNone(plan, rs, NOTHING_BUILT, 2);
    BuildMore(plan, rs, NOTHING_BUILT, 2, 0);
    BuildMore(plan, rs, NOTHING_BUILT, 2, 1);
    assert rs[..2] == rs && rs[..1] == [one] && rs[..0] == [];
    BuildOneStep(plan, one, NOTHING_BUILT);
    BuildNone(plan, [], NOTHING_BUILT, 0);
    assert BuildAll(plan, [], NOTHING_BUILT, 0) == (NOTHING_BUILT, []);
    var first := BuildOne(plan, one, NOTHING_BUILT);
    BuildOneStep(plan, dynamic, first);
  }

  /** Its second form gets no container of its own, so what only that form imports gets none at all. */
  lemma {:induction false} SecondFormIsNotBuilt()
    ensures var plan := TwoFormsPlan();
            && Buildable(plan) && plan.root in Order(plan) && StaticModule(2) in Order(plan)
            && ClassOf(plan.p, StaticModule(2)) !in HomeOf(plan)
  {
    hide Order, Buildable, BuildOne, GraphOf;
    TwoFormsIsBuildable();
    TwoFormsOrder();
    TwoFormsBuilt();
  }
}
