/** Creates an application: its containers, its instances and their lifecycle hooks. */
module InjectorContexts {
  import opened Basics
  import opened InjectorGraph
  import opened InjectorState
  import opened Injector
  import opened ModuleGraph
  import opened ModuleCompilation
  import opened ContainerGraph
  import opened InjectorTheorems
  import opened Lifecycle

  // ---------------------------------------------------------- compiled modules

  /** The modules of the plan are compiled. */
  ghost predicate Ready(plan: Plan, compiled: map<Ref, CompiledModule>, modules: set<CompiledModule>)
    requires Buildable(plan)
    reads modules`imports, modules`providers
  {
    forall r | r in Order(plan) :: r in compiled && compiled[r] in modules && IsCompiled(plan, compiled, modules, r)
  }

  ghost predicate IsCompiled(plan: Plan, compiled: map<Ref, CompiledModule>, modules: set<CompiledModule>, r: Ref)
    requires Buildable(plan) && r in Order(plan) && r in compiled && compiled[r] in modules
    reads modules`imports, modules`providers
  {
    OrderFacts(plan, r);
    var d := ResolveModule(plan.p, r).value;
    && compiled[r].ref == r && compiled[r].Declares(d)
    && Linked(compiled, compiled[r].imports, ImportsOf(plan.p)[r], |ImportsOf(plan.p)[r]|)
    && compiled[r].providers == Lists(plan.p, Order(plan))[r]
  }

  /** What building a container needs to know of its module. */
  ghost predicate Fits(plan: Plan, compiled: map<Ref, CompiledModule>, m: CompiledModule)
    requires Buildable(plan)
    reads m
  {
    && m.ref in Order(plan) && m.ref in ImportsOf(plan.p) && m.cls == ClassOf(plan.p, m.ref)
    && ResolveModule(plan.p, m.ref).Some? && m.exports == Elements(ResolveModule(plan.p, m.ref).value.metadata.exports)
    && OwnTable(plan.p, m.providers, m.ownTokens) == TableOf(plan, m.ref)
    && |m.imports| == |ImportsOf(plan.p)[m.ref]|
    && forall i | 0 <= i < |m.imports| :: FitsImport(plan, compiled, m.imports[i], ImportsOf(plan.p)[m.ref][i],
                                                     plan.rank(m.ref))
  }

  ghost predicate FitsImport(plan: Plan, compiled: map<Ref, CompiledModule>, x: CompiledModule, r: Ref, bound: nat)
    requires Buildable(plan)
  {
    x.ref == r && r in Order(plan) && r in compiled && compiled[r] == x && plan.rank(r) < bound
  }

  lemma ReadyFits(plan: Plan, compiled: map<Ref, CompiledModule>, modules: set<CompiledModule>, m: CompiledModule)
    requires Buildable(plan) && Ready(plan, compiled, modules)
    requires m.ref in Order(plan) && m.ref in compiled && compiled[m.ref] == m
    ensures Fits(plan, compiled, m)
  {
    hide Order, Lists, OwnTokens, OwnTable, Workable, ImportsOf, Refs, WellFormed, ClassOf;
    BuildableFacts(plan);
    OrderFacts(plan, m.ref);
    assert IsCompiled(plan, compiled, modules, m.ref);
    var rs := ImportsOf(plan.p)[m.ref];
    forall i | 0 <= i < |m.imports|
      ensures FitsImport(plan, compiled, m.imports[i], rs[i], plan.rank(m.ref))
    {
      assert m.imports[i] == compiled[rs[i]] && rs[i] in rs;
      assert IsCompiled(plan, compiled, modules, rs[i]);
    }
  }

  // ---------------------------------------------------------------- containers

  ghost predicate Untouched(all: set<Container>)
    reads all`singletons, all`resolving, all`instances, all`builds, all`contexts
  {
    forall c | c in all :: c.ToCell() == BlankCell()
  }

  /** The containers are those of the modules that were built, and each is found as the index says. */
  ghost predicate Holds(b: Building, made: map<Ref, Container>, index: map<nat, Container>,
                        globalContainer: Container, all: set<Container>) {
    && globalContainer in all && globalContainer.id == 0
    && (forall r :: r in made <==> r in b.kids)
    && (forall r | r in made :: made[r] in all && made[r].id == ContainerId(r))
    && (forall c | c in all && c != globalContainer :: exists r :: r in made && made[r] == c)
    && index.Keys == b.index.Keys && (forall c | c in index :: b.index[c] in made && index[c] == made[b.index[c]])
  }

  /** No container has the name of a module that is not built yet. */
  lemma NewName(b: Building, made: map<Ref, Container>, index: map<nat, Container>, globalContainer: Container,
                all: set<Container>, r: Ref)
    requires Holds(b, made, index, globalContainer, all) && r !in b.kids
    ensures forall d | d in all :: d.id != ContainerId(r)
  {
    hide ContainerId;
    forall d | d in all
      ensures d.id != ContainerId(r)
    {
      NamesDiffer(r, d.id);
      if d != globalContainer {
        var x :| x in made && made[x] == d;
        NamesDiffer(x, d.id);
      }
    }
  }

  lemma HoldsOne(plan: Plan, b: Building, made: map<Ref, Container>, index: map<nat, Container>,
                 globalContainer: Container, all: set<Container>, r: Ref, kids: seq<Ref>, c: Container)
    requires Holds(b, made, index, globalContainer, all) && r !in b.kids && c.id == ContainerId(r)
    ensures Holds(Added(plan, r, b, kids), made[r := c], index[ClassOf(plan.p, r) := c], globalContainer, all + {c})
    ensures KeepsMade(made, made[r := c])
  {
    hide ContainerId, ClassOf;
    var more := made[r := c];
    forall d | d in all + {c} && d != globalContainer
      ensures exists x :: x in more && more[x] == d
    {
      if d in all && d != c {
        var x :| x in made && made[x] == d;
        assert x in more && more[x] == d;
      } else {
        assert r in more && more[r] == d;
      }
    }
  }

  ghost predicate KeepsMade(a: map<Ref, Container>, b: map<Ref, Container>) {
    forall r | r in a :: r in b && b[r] == a[r]
  }

  /** One container more that matches its node, beside those whose nodes stay. */
  lemma WireOne(all: set<Container>, g: Graph, h: Graph, c: Container)
    requires Container.Wired(all, g) && (forall d | d in g :: d in h && h[d] == g[d])
    requires c.id in h && c.Matches(all, h[c.id]) && forall d | d in all :: d.id != c.id
    ensures Container.Wired(all + {c}, h)
  {
    forall d | d in all + {c}
      ensures d.id in h && d.Matches(all + {c}, h[d.id])
    {
      hide Container.Wired, Container.Apart;
      if d != c {
        d.WiredHere(all, g);
      }
    }
  }

  /** Registers, for each of the module's own tokens, the last provider the module knows of. */
  method RegisterOwn(container: Container, p: Program, providers: seq<Provider>, ownTokens: seq<Token>)
    requires container.providers == map[]
    modifies container`providers
    ensures container.providers == OwnTable(p, providers, ownTokens)
  {
    var providerMap: map<Token, Provider> := map[];
    for i := 0 to |providers|
      invariant forall t :: LastFor(providers[..i], t) == if t in providerMap then Some(providerMap[t]) else None
    {
      assert providers[..i + 1][..i] == providers[..i];
      providerMap := providerMap[ProviderToken(providers[i]) := providers[i]];
    }
    assert providers[..|providers|] == providers;
    for i := 0 to |ownTokens|
      invariant container.providers == OwnTable(p, providers, ownTokens[..i])
    {
      var token := ownTokens[i];
      if token in providerMap {
        RegisterLast(container.providers, p, providers, ownTokens, i, providerMap[token]);
        container.Register([providerMap[token]]);
      } else if token.ClassToken? {
        RegisterLast(container.providers, p, providers, ownTokens, i, Shorthand(Described(p, token.id)));
        container.Register([Shorthand(Described(p, token.id))]);
      } else {
        assert OwnTable(p, providers, ownTokens[..i + 1]) == OwnTable(p, providers, ownTokens[..i]);
      }
    }
    assert ownTokens[..|ownTokens|] == ownTokens;
  }

  lemma {:induction false} RegisterLast(m: map<Token, Normalized>, p: Program, ps: seq<Provider>, ts: seq<Token>,
                                        i: nat, x: Provider)
    requires i < |ts| && m == OwnTable(p, ps, ts[..i]) && Choice(p, ps, ts[i]) == Some(x)
    ensures Registered(m, [x]) == OwnTable(p, ps, ts[..i + 1])
  {
    hide Normalize, Choice;
    assert [x][1..] == [];
    assert Registered(m, [x]) == Registered(m[ProviderToken(x) := Normalize(x)], []);
    assert ts[..i + 1] == ts[..i] + [ts[i]];
  }

  /** The container of a module: its imports' containers as children, its own tokens registered. */
  method NewContainer(p: Program, m: CompiledModule, globalContainer: Container, childContainers: seq<Container>)
    returns (c: Container)
    ensures fresh(c) && c.id == ContainerId(m.ref) && c.exports == m.exports && c.globalContainer == globalContainer
    ensures c.children == childContainers && c.providers == OwnTable(p, m.providers, m.ownTokens)
            && c.ToCell() == BlankCell()
  {
    hide OwnTable;
    c := new Container(ContainerId(m.ref), m.exports, globalContainer);
    for i := 0 to |childContainers|
      invariant c.exports == m.exports && c.globalContainer == globalContainer && c.providers == map[]
                && c.ToCell() == BlankCell()
      invariant c.children == childContainers[..i]
    {
      c.AddChild(childContainers[i]);
    }
    RegisterOwn(c, p, m.providers, m.ownTokens);
  }

  /** Builds the containers of the modules, imports first. */
  class ContainerBuilder {
    const p: Program
    const globalContainer: Container
    var moduleContainers: map<nat, Container>
    ghost var all: set<Container>
    ghost var b: Building
    ghost var made: map<Ref, Container>

    constructor (p: Program, globalContainer: Container)
      ensures this.p == p && this.globalContainer == globalContainer
      ensures moduleContainers == map[] && all == {globalContainer} && b == NOTHING_BUILT && made == map[]
    {
      this.p, this.globalContainer := p, globalContainer;
      moduleContainers, all, b, made := map[], {globalContainer}, NOTHING_BUILT, map[];
    }

    ghost predicate Valid(plan: Plan)
      reads this, all
    {
      && Buildable(plan) && plan.p == p && Sane(plan, b) && Holds(b, made, moduleContainers, globalContainer, all)
      && Container.Wired(all, GraphFrom(plan, b)) && Untouched(all)
    }

    /** A class that has a container keeps it, also when it is imported in another form. */
    method BuildContainer(m: CompiledModule, ghost plan: Plan, ghost compiled: map<Ref, CompiledModule>,
                          ghost modules: set<CompiledModule>)
      returns (c: Container)
      requires Valid(plan) && Ready(plan, compiled, modules)
      requires m.ref in Order(plan) && m.ref in compiled && compiled[m.ref] == m
      modifies this
      ensures Valid(plan) && old(all) <= all && fresh(all - old(all)) && KeepsMade(old(made), made)
      ensures b == BuildOne(plan, m.ref, old(b))
      ensures m.cls in moduleContainers && c == moduleContainers[m.cls]
      decreases plan.rank(m.ref)
    {
      hide Buildable, Order, GraphFrom, Ready, Holds, Container.Wired, Untouched, ContainerId, ClassOf, OwnTable,
        BuildOne, BuildAll, Sane, TableOf, ImportsOf, Refs, WellFormed, Chosen, ResolveModule, Added, NewBelow, BuiltOn;
      ReadyFits(plan, compiled, modules, m);
      HoldsIndex(b, made, moduleContainers, globalContainer, all);
      BuildOneStep(plan, m.ref, b);
      if m.cls in moduleContainers {
        return moduleContainers[m.cls];
      }
      ghost var rs, before := ImportsOf(plan.p)[m.ref], b;
      var childContainers: seq<Container> := [];
      ghost var kids: seq<Ref> := [];
      BuildNone(plan, rs, b, plan.rank(m.ref));
      for i := 0 to |m.imports|
        invariant Valid(plan) && old(all) <= all && fresh(all - old(all)) && KeepsMade(old(made), made)
        invariant BuildAll(plan, rs[..i], before, plan.rank(m.ref)) == (b, kids)
        invariant ChildrenAre(childContainers, kids, i)
      {
        assert FitsImport(plan, compiled, m.imports[i], rs[i], plan.rank(m.ref));
        ghost var inner, held := b, made;
        var child := BuildContainer(m.imports[i], plan, compiled, modules);
        ReadyFits(plan, compiled, modules, m.imports[i]);
        ImportBuilt(plan, rs, before, plan.rank(m.ref), i, inner, kids, b, held, made, moduleContainers,
                    globalContainer, all, childContainers, child,
          m.imports[i].cls);
        childContainers := childContainers + [child];
        kids := kids + [b.index[m.imports[i].cls]];
      }
      assert rs[..|m.imports|] == rs;
      BuildAllIsSane(plan, rs, before, plan.rank(m.ref));
      IsNew(plan, m.ref, before, b);
      c := AddContainer(m, childContainers, kids, plan, compiled);
    }

    /** The given containers are those made for the given modules. */
    ghost predicate ChildrenAre(cs: seq<Container>, kids: seq<Ref>, n: nat)
      reads `made
    {
      |cs| == n == |kids| && forall j | 0 <= j < n :: kids[j] in made && made[kids[j]] == cs[j]
    }

    /** The container of a module whose imports have theirs. */
    method AddContainer(m: CompiledModule, childContainers: seq<Container>, ghost kids: seq<Ref>, ghost plan: Plan,
                        ghost compiled: map<Ref, CompiledModule>)
      returns (c: Container)
      requires Valid(plan) && Fits(plan, compiled, m) && m.ref !in b.order && m.ref !in b.kids
      requires WellFormed(plan.p) && m.ref in ImportsOf(plan.p) && Chosen(plan.p, kids, ImportsOf(plan.p)[m.ref])
      requires ChildrenAre(childContainers, kids, |kids|) && forall x | x in kids :: x in b.order
      modifies this
      ensures Valid(plan) && all == old(all) + {c} && fresh(c) && KeepsMade(old(made), made)
      ensures b == Added(plan, m.ref, old(b), kids)
      ensures m.cls in moduleContainers && c == moduleContainers[m.cls]
    {
      hide Buildable, Order, GraphFrom, Ready, Holds, Container.Wired, Untouched, ContainerId, ClassOf, OwnTable,
        Sane, TableOf, ImportsOf, Refs, WellFormed, Chosen, ResolveModule, NodeOf, Container.Matches, FitsImport,
        Lists, Added, KeepsMade, Fits, Container.ToCell, BlankCell, Described;
      FitsClass(plan, compiled, m);
      NewName(b, made, moduleContainers, globalContainer, all, m.ref);
      c := NewContainer(p, m, globalContainer, childContainers);
      AddedHolds(plan, compiled, m, c, kids, b, made, moduleContainers, globalContainer, all);
      moduleContainers := moduleContainers[m.cls := c];
      b, made, all := Added(plan, m.ref, b, kids), made[m.ref := c], all + {c};
    }
  }

  /** With a new container for its module the containers are again those of what has been built. */
  lemma {:induction false} AddedHolds(plan: Plan, compiled: map<Ref, CompiledModule>, m: CompiledModule,
                                      c: Container, kids: seq<Ref>, b: Building, made: map<Ref, Container>,
                                      index: map<nat, Container>, globalContainer: Container, all: set<Container>)
    requires Buildable(plan) && Sane(plan, b) && Holds(b, made, index, globalContainer, all) && Fits(plan, compiled, m)
    requires Container.Wired(all, GraphFrom(plan, b)) && Untouched(all) && m.ref !in b.order && m.ref !in b.kids
    requires WellFormed(plan.p) && m.ref in ImportsOf(plan.p) && Chosen(plan.p, kids, ImportsOf(plan.p)[m.ref])
    requires c.id == ContainerId(m.ref) && c.exports == m.exports && c.globalContainer == globalContainer
    requires c.providers == OwnTable(plan.p, m.providers, m.ownTokens) && c.ToCell() == BlankCell()
    requires |c.children| == |kids| && forall j | 0 <= j < |kids| :: kids[j] in made && made[kids[j]] == c.children[j]
    requires (forall x | x in kids :: x in b.order) && forall d | d in all :: d.id != c.id
    ensures var more := Added(plan, m.ref, b, kids);
            && Sane(plan, more) && Holds(more, made[m.ref := c], index[m.cls := c], globalContainer, all + {c})
            && Container.Wired(all + {c}, GraphFrom(plan, more)) && Untouched(all + {c})
            && KeepsMade(made, made[m.ref := c])
  {
    hide *;
    FitsClass(plan, compiled, m);
    AddedIsSane(plan, m.ref, b, kids);
    HoldsOne(plan, b, made, index, globalContainer, all, m.ref, kids, c);
    AddedIs(plan, m.ref, b, kids);
    AddedGraph(plan, b, m.ref, kids);
    FitsMatches(plan, compiled, m, c, kids, b, made, index, globalContainer, all);
    WireOne(all, GraphFrom(plan, b), GraphFrom(plan, Added(plan, m.ref, b, kids)), c);
    UntouchedOne(all, c);
  }

  lemma FitsClass(plan: Plan, compiled: map<Ref, CompiledModule>, m: CompiledModule)
    requires Buildable(plan) && Fits(plan, compiled, m)
    ensures m.ref in Order(plan) && m.ref in Refs(plan.p) && m.cls == ClassOf(plan.p, m.ref)
  {
    hide Buildable, Order, FitsImport, TableOf, OwnTable, ResolveModule;
    OrderFacts(plan, m.ref);
  }

  lemma HoldsIndex(b: Building, made: map<Ref, Container>, index: map<nat, Container>, globalContainer: Container,
                   all: set<Container>)
    requires Holds(b, made, index, globalContainer, all)
    ensures globalContainer in all && globalContainer.id == 0 && index.Keys == b.index.Keys
    ensures forall c | c in index :: b.index[c] in made && index[c] == made[b.index[c]] && index[c] in all
                && index[c].id == ContainerId(b.index[c])
  {
    hide ContainerId;
  }

  lemma {:induction false} BuildNone(plan: Plan, rs: seq<Ref>, b: Building, bound: nat)
    requires Buildable(plan) && forall x | x in rs :: x in Order(plan) && plan.rank(x) < bound
    ensures BuildAll(plan, rs[..0], b, bound) == (b, [])
  {
    hide Buildable, Order;
  }

  lemma {:induction false} BuildMore(plan: Plan, rs: seq<Ref>, b: Building, bound: nat, i: nat)
    requires Buildable(plan) && (forall x | x in rs :: x in Order(plan) && plan.rank(x) < bound) && i < |rs|
    ensures forall x | x in rs[..i + 1] :: x in rs
    ensures var inner := BuildAll(plan, rs[..i], b, bound);
            var next := BuildOne(plan, rs[i], inner.0);
            BuildAll(plan, rs[..i + 1], b, bound) == (next, inner.1 + [next.index[ClassOf(plan.p, rs[i])]])
  {
    hide Buildable, Order, BuildOne, BuildAll, ClassOf;
    assert rs[..i + 1][..i] == rs[..i];
    BuildAllStep(plan, rs[..i + 1], b, bound);
  }

  /** The container of one import more. */
  lemma {:induction false} ImportBuilt(plan: Plan, rs: seq<Ref>, before: Building, bound: nat, i: nat,
                                       inner: Building, kids: seq<Ref>, b: Building, held: map<Ref, Container>,
                                       made: map<Ref, Container>, index: map<nat, Container>,
                                       globalContainer: Container, all: set<Container>, cs: seq<Container>,
                                       child: Container, cls: nat)
    requires Buildable(plan) && (forall x | x in rs :: x in Order(plan) && plan.rank(x) < bound) && i < |rs|
    requires BuildAll(plan, rs[..i], before, bound) == (inner, kids) && b == BuildOne(plan, rs[i], inner)
    requires Holds(b, made, index, globalContainer, all) && cls == ClassOf(plan.p, rs[i]) && cls in index
             && child == index[cls]
    requires |cs| == |kids| && (forall j | 0 <= j < |kids| :: kids[j] in held && held[kids[j]] == cs[j])
             && KeepsMade(held, made)
    ensures cls in b.index && BuildAll(plan, rs[..i + 1], before, bound) == (b, kids + [b.index[cls]])
    ensures var more, found := kids + [b.index[cls]], cs + [child]; forall j | 0 <= j < |more| ::
              more[j] in made && made[more[j]] == found[j]
  {
    hide Buildable, Order, BuildOne, BuildAll, ClassOf, Holds, KeepsMade;
    BuildMore(plan, rs, before, bound, i);
    HoldsIndex(b, made, index, globalContainer, all);
    ChildrenGrow(cs, kids, held, made);
  }

  lemma ChildrenGrow(cs: seq<Container>, kids: seq<Ref>, a: map<Ref, Container>, b: map<Ref, Container>)
    requires |cs| == |kids| && (forall j | 0 <= j < |kids| :: kids[j] in a && a[kids[j]] == cs[j]) && KeepsMade(a, b)
    ensures forall j | 0 <= j < |kids| :: kids[j] in b && b[kids[j]] == cs[j]
  {
  }

  lemma AddedGraph(plan: Plan, b: Building, r: Ref, kids: seq<Ref>)
    requires Buildable(plan) && Sane(plan, b) && Sane(plan, Added(plan, r, b, kids)) && r !in b.kids
    ensures var more := Added(plan, r, b, kids);
            && r in Order(plan) && r in more.kids && ContainerId(r) in GraphFrom(plan, more)
            && GraphFrom(plan, more)[ContainerId(r)] == NodeOf(plan, more, r)
            && forall d | d in GraphFrom(plan, b) ::
                 d in GraphFrom(plan, more) && GraphFrom(plan, more)[d] == GraphFrom(plan, b)[d]
  {
    hide Buildable, Order, Sane, GraphFrom, NodeOf, ContainerId, ClassOf;
    var more := Added(plan, r, b, kids);
    assert more.order[|b.order|] == r;
    GraphAt(plan, more, r);
    forall d | d in GraphFrom(plan, b)
      ensures d in GraphFrom(plan, more) && GraphFrom(plan, more)[d] == GraphFrom(plan, b)[d]
    {
      GraphGrows(plan, b, more, d);
    }
  }

  lemma FitsMatches(plan: Plan, compiled: map<Ref, CompiledModule>, m: CompiledModule, c: Container, kids: seq<Ref>,
                    b: Building, made: map<Ref, Container>, index: map<nat, Container>, globalContainer: Container,
                    all: set<Container>)
    requires Buildable(plan) && Fits(plan, compiled, m) && c.globalContainer == globalContainer
    requires c.exports == m.exports && c.providers == OwnTable(plan.p, m.providers, m.ownTokens)
             && |c.children| == |kids|
    requires Holds(b, made, index, globalContainer, all) && forall j | 0 <= j < |kids| ::
               kids[j] in made && c.children[j] == made[kids[j]]
    ensures c.Matches(all, NodeOf(plan, Added(plan, m.ref, b, kids), m.ref))
  {
    hide Buildable, OwnTable, TableOf, ContainerId, ClassOf, Order, ImportsOf, Position, FitsImport, ResolveModule,
      Lists;
  }

  lemma UntouchedOne(all: set<Container>, c: Container)
    requires Untouched(all) && c.ToCell() == BlankCell()
    ensures Untouched(all + {c})
  {
  }

  lemma LoadedIsReady(plan: Plan, c: ModuleCompiler)
    requires Buildable(plan) && c.Valid(plan.p) && c.finished == Order(plan)
    ensures Ready(plan, c.compiled, c.all)
  {
    hide Order, Workable, Lists, GlobalsOf, ImportsOf, WellFormed, Refs, CompiledModule.Declares, Linked;
    BuildableFacts(plan);
    forall r | r in Order(plan)
      ensures r in c.compiled && c.compiled[r] in c.all && IsCompiled(plan, c.compiled, c.all, r)
    {
      OrderFacts(plan, r);
      c.ValidFacts(plan.p, r);
    }
  }

  /** Compiles the application and builds its containers, the global one among them. */
  method Assemble(p: Program, root: Ref, useGlobals: bool, ghost plan: Plan)
    returns (modules: Option<seq<CompiledModule>>, containers: map<nat, Container>, rootContainer: Container?,
             ghost all: set<Container>)
    requires Workable(plan) && plan.p == p && plan.root == root && plan.useGlobals == useGlobals
    ensures modules.None? <==> Fails(p, root)
    ensures modules.Some? ==>
              && Buildable(plan) && root in Order(plan)
              && Assembled(plan, modules.value, containers, all) && fresh(all)
    ensures modules.Some? ==> rootContainer != null && rootContainer in all && rootContainer.id == ContainerId(root)
  {
    hide Buildable, Order, GraphFrom, Ready, Holds, ClassOf, Assembled, ContainerId, BuildOne, Sane, Container.Wired,
      Untouched, NodeOf;
    hide WellFormed, Workable, Fails, Lists, Links, ProviderLists, Table, ImportsOf, Names;
    WorkableFacts(plan);
    var compiler, compiled, order := Load(p, root);
    modules, containers, rootContainer, all := None, map[], null, {};
    if compiled.None? {
      return;
    }
    SoBuildable(plan);
    LoadedIsReady(plan, compiler);
    containers, rootContainer, all := BuildAllContainers(p, useGlobals, compiler, compiled.value, order, plan);
    modules := Some(order);
  }

  /** The global container, and those of the compiled modules. */
  method BuildAllContainers(p: Program, useGlobals: bool, compiler: ModuleCompiler, root: CompiledModule,
                            ghost order: seq<CompiledModule>, ghost plan: Plan)
    returns (containers: map<nat, Container>, rootContainer: Container, ghost all: set<Container>)
    requires Buildable(plan) && plan.root in Order(plan) && plan.p == p && plan.useGlobals == useGlobals
    requires Ready(plan, compiler.compiled, compiler.all) && Names(order) == Order(plan)
    requires compiler.globalProviders == GlobalsOf(plan.p, Order(plan))
    requires forall m | m in order :: m.ref in compiler.compiled && compiler.compiled[m.ref] == m
    requires root.ref == plan.root && plan.root in compiler.compiled && compiler.compiled[plan.root] == root
    ensures Assembled(plan, order, containers, all) && fresh(all)
    ensures rootContainer in all && rootContainer.id == ContainerId(plan.root)
  {
    hide Buildable, Order, GraphFrom, Ready, Holds, ClassOf, Assembled, ContainerId, BuildOne, Sane, Container.Wired,
      Untouched, NodeOf, WellFormed, Lists, ImportsOf, Names, GlobalsOf, BlankCell, Container.ToCell, Registered;
    var globalContainer := new Container(0, {}, null);
    GlobalIsBlank(globalContainer);
    if useGlobals {
      globalContainer.Register(compiler.globalProviders);
    }
    var builder := new ContainerBuilder(p, globalContainer);
    StartsValid(plan, builder);
    rootContainer := builder.BuildContainer(root, plan, compiler.compiled, compiler.all);
    EndsAssembled(plan, builder, order, compiler.compiled, compiler.all, root);
    containers, all := builder.moduleContainers, builder.all;
  }

  lemma GlobalIsBlank(c: Container)
    requires c.ToCell() == Cell(map[], [], [], [], map[])
    ensures c.ToCell() == BlankCell() && Registered(map[], []) == map[]
  {
  }

  lemma WorkableFacts(plan: Plan)
    requires Workable(plan)
    ensures WellFormed(plan.p) && plan.root in Refs(plan.p)
  {
  }

  lemma SoBuildable(plan: Plan)
    requires Workable(plan) && WellFormed(plan.p) && !Fails(plan.p, plan.root)
    ensures Buildable(plan) && plan.root in Order(plan) && Order(plan) == InitOrder(ImportsOf(plan.p), plan.root)
  {
    hide Workable, Fails, Reaches, Distinct, Dfs;
    WorkableFacts(plan);
    InitOrderIsSound(ImportsOf(plan.p), plan.root);
  }

  lemma {:induction false} StartsValid(plan: Plan, builder: ContainerBuilder)
    requires Buildable(plan) && plan.root in Order(plan) && builder.p == plan.p
    requires builder.moduleContainers == map[] && builder.b == NOTHING_BUILT && builder.made == map[]
    requires var c := builder.globalContainer;
             && builder.all == {c} && c.id == 0 && c.ToCell() == BlankCell() && c.children == [] && c.exports == {}
             && c.globalContainer == null
             && c.providers == Registered(map[], if plan.useGlobals then GlobalsOf(plan.p, Order(plan)) else [])
    ensures builder.Valid(plan)
  {
    hide Buildable, Order, Lists, GlobalsOf, ImportsOf, WellFormed, Refs, GraphFrom, Sane, BuildOne;
    BuiltIsSane(plan);
    SharedAt(plan, NOTHING_BUILT);
  }

  lemma {:induction false} EndsAssembled(plan: Plan, builder: ContainerBuilder, modules: seq<CompiledModule>,
                                         compiled: map<Ref, CompiledModule>, known: set<CompiledModule>,
                                         root: CompiledModule)
    requires Buildable(plan) && plan.root in Order(plan) && builder.Valid(plan) && builder.b == Built(plan)
             && Names(modules) == Order(plan)
    requires Ready(plan, compiled, known) && forall m | m in modules :: m.ref in compiled && compiled[m.ref] == m
    requires root.ref == plan.root && plan.root in compiled && compiled[plan.root] == root
             && root.cls in builder.moduleContainers
    ensures Assembled(plan, modules, builder.moduleContainers, builder.all)
    ensures builder.moduleContainers[root.cls] in builder.all
            && builder.moduleContainers[root.cls].id == ContainerId(plan.root)
  {
    hide Buildable, Order, Container.Wired, Untouched, ClassOf, GraphFrom, Names, Ready, Fits, Holds, ContainerId,
      BuildOne, Sane, Described;
    BuildableFacts(plan);
    BuiltIsSane(plan);
    HoldsIndex(builder.b, builder.made, builder.moduleContainers, builder.globalContainer, builder.all);
    NamesAt(modules);
    forall i | 0 <= i < |modules|
      ensures AsDeclared(plan, modules[i])
    {
      assert Names(modules)[i] in Order(plan);
      ReadyDeclared(plan, compiled, known, modules[i]);
    }
    ReadyDeclared(plan, compiled, known, root);
  }

  /** The compiled module has the class and the own tokens of its declaration. */
  ghost predicate AsDeclared(plan: Plan, m: CompiledModule)
    requires Buildable(plan)
  {
    && m.ref in Order(plan) && m.cls == ClassOf(plan.p, m.ref) && m.ref in Refs(plan.p) && Known(plan.p, m.ref)
    && ResolveModule(plan.p, m.ref).Some? && m.ownTokens == OwnTokens(ResolveModule(plan.p, m.ref).value)
  }

  lemma ReadyDeclared(plan: Plan, compiled: map<Ref, CompiledModule>, known: set<CompiledModule>, m: CompiledModule)
    requires Buildable(plan) && Ready(plan, compiled, known) && m.ref in Order(plan) && m.ref in compiled
             && compiled[m.ref] == m
    ensures AsDeclared(plan, m)
  {
    hide Order, Workable, Lists, ImportsOf, Linked, OwnTokens;
    BuildableFacts(plan);
    OrderFacts(plan, m.ref);
    assert IsCompiled(plan, compiled, known, m.ref);
  }

  /** All modules in order, with the containers of the application. */
  ghost predicate Assembled(plan: Plan, modules: seq<CompiledModule>, containers: map<nat, Container>,
                            all: set<Container>)
    requires Buildable(plan) && plan.root in Order(plan)
    reads all
  {
    && Names(modules) == Order(plan) && (forall m | m in modules :: AsDeclared(plan, m))
    && Container.Wired(all, GraphOf(plan)) && Untouched(all)
    && containers.Keys == HomeOf(plan).Keys
    && forall c | c in containers :: containers[c] in all && containers[c].id == HomeOf(plan)[c]
  }

  // ------------------------------------------------------------------- creation

  datatype Creation = NotAModule | InitError(failure: InitFailure) | Created(context: InjectorContext)

  /** Creates an application: compiles it, builds its containers and initialises its modules, imports first.
      What initialisation does is a run of the injector from containers in which nothing has happened yet. */
  method Create(p: Program, root: Ref, useGlobals: bool, host: Host, hooks: Hooks, ghost plan: Plan)
    returns (r: Creation, modules: seq<CompiledModule>, ghost all: set<Container>, ghost worlds: seq<World>,
             ghost steps: seq<Step>)
    requires Workable(plan) && plan.p == p && plan.root == root && plan.useGlobals == useGlobals && host.Fresh()
    modifies host, hooks
    ensures r.NotAModule? <==> Fails(p, root)
    ensures !r.NotAModule? ==> Buildable(plan) && root in Order(plan)
    ensures !r.NotAModule? ==>
              && Names(modules) == Order(plan) && (forall m | m in modules :: AsDeclared(plan, m))
              && Dag(GraphOf(plan)) && Progress(GraphOf(plan), worlds, steps)
              && worlds[0] == Blank(GraphOf(plan), old(host.log))
              && Invoked(hooks.calls)
                 == Invoked(old(hooks.calls)) + Selected(hooks.has, ModuleInit, Unique(Answers(steps)))
    ensures !r.NotAModule? ==>
              Initialised(GraphOf(plan), HomeOf(plan), modules, steps,
                          if r.InitError? then Some(r.failure) else None, hooks.calls)
    ensures r.Created? ==>
              && r.context.Valid(host, all, GraphOf(plan), worlds[|worlds| - 1])
              && r.context.container.id == ContainerId(root) && !r.context.isBootstrapped && !r.context.isShuttingDown
  {
    hide Buildable, Order, GraphOf, HomeOf, ClassOf, Assembled, Container.Wired, Container.Shows, Untouched, Dag,
      Blank, Wanted, Requests;
    hide WellFormed, Workable, Fails, Names, Blames, Selected, Invoked, Unique, Answers, Run, Calmed, ContainerId,
      AsDeclared, Initialised;
    var compiled, containers, rootContainer;
    compiled, containers, rootContainer, all := Assemble(p, root, useGlobals, plan);
    modules, worlds, steps := [], [], [];
    if compiled.None? {
      return NotAModule, modules, all, worlds, steps;
    }
    modules := compiled.value;
    var error;
    error, worlds, steps := Initialise(modules, containers, host, hooks, plan, all);
    if error.Some? {
      r := InitError(error.value);
    } else {
      var context := new InjectorContext(rootContainer);
      r := Created(context);
    }
  }

  /** The part of creation after the containers exist. */
  method Initialise(modules: seq<CompiledModule>, containers: map<nat, Container>, host: Host, hooks: Hooks,
                    ghost plan: Plan, ghost all: set<Container>)
    returns (error: Option<InitFailure>, ghost worlds: seq<World>, ghost steps: seq<Step>)
    requires Buildable(plan) && plan.root in Order(plan) && Assembled(plan, modules, containers, all) && host.Fresh()
    modifies all`singletons, all`resolving, all`instances, all`builds, all`contexts, host, hooks
    ensures Names(modules) == Order(plan) && forall m | m in modules :: AsDeclared(plan, m)
    ensures Dag(GraphOf(plan)) && Progress(GraphOf(plan), worlds, steps)
            && worlds[0] == Blank(GraphOf(plan), old(host.log))
    ensures Container.Wired(all, GraphOf(plan)) && Container.Shows(all, host, worlds[|worlds| - 1])
    ensures Invoked(hooks.calls) == Invoked(old(hooks.calls)) + Selected(hooks.has, ModuleInit, Unique(Answers(steps)))
    ensures Initialised(GraphOf(plan), HomeOf(plan), modules, steps, error, hooks.calls)
  {
    hide Buildable, Order, GraphOf, HomeOf, ClassOf, Assembled, Container.Wired, Container.Shows, Untouched, Dag,
      Blank, Wanted, Requests;
    hide WellFormed, Workable, Fails, Names, Blames, Selected, Invoked, Unique, Answers, Live, Calmed,
      Initializer.Valid, Run, AsDeclared, Initialised;
    ModulesAssembled(plan, modules, containers, all);
    StartsBlank(plan, all, host);
    var init := new Initializer(hooks);
    error, worlds, steps := InitAll(modules, containers, init, host, all, GraphOf(plan), HomeOf(plan),
                                    Blank(GraphOf(plan), old(host.log)));
  }

  lemma {:induction false} ModulesAssembled(plan: Plan, modules: seq<CompiledModule>,
                                            containers: map<nat, Container>, all: set<Container>)
    requires Buildable(plan) && plan.root in Order(plan) && Assembled(plan, modules, containers, all)
    ensures Names(modules) == Order(plan) && Container.Wired(all, GraphOf(plan)) && Untouched(all)
    ensures containers.Keys == HomeOf(plan).Keys && forall c | c in containers ::
              containers[c] in all && containers[c].id == HomeOf(plan)[c]
    ensures forall m | m in modules :: AsDeclared(plan, m)
  {
    hide Buildable, Order, GraphOf, HomeOf, Untouched, Names, AsDeclared;
  }

  lemma StartsBlank(plan: Plan, all: set<Container>, host: Host)
    requires Buildable(plan) && plan.root in Order(plan) && Container.Wired(all, GraphOf(plan)) && Untouched(all)
             && host.Fresh()
    ensures var g := GraphOf(plan);
            Dag(g) && Live(g, Blank(g, host.log)) && Calmed(Blank(g, host.log))
              && Container.Shows(all, host, Blank(g, host.log))
  {
    hide Buildable, Order, GraphOf, Dag, Live;
    GraphIsDag(plan);
    BlankIsLive(GraphOf(plan), host.log);
  }
}
