/** The containers an application is given: what each registers, imports and exports. */
module ContainerGraph {
  import opened Basics
  import opened InjectorGraph
  import opened InjectorState
  import opened ModuleGraph
  import opened ModuleCompilation

  // --------------------------------------------------------------- registration

  /** The last provider of `t` in the list. */
  function LastFor(ps: seq<Provider>, t: Token): (r: Option<Provider>)
    ensures r.Some? ==> ProviderToken(r.value) == t && r.value in ps
  {
    if ps == [] then None
    else if ProviderToken(ps[|ps| - 1]) == t then Some(ps[|ps| - 1])
    else LastFor(ps[..|ps| - 1], t)
  }

  /** What is registered for a token of a module: the last of the providers known to the module,
      or the class itself. */
  function Choice(p: Program, ps: seq<Provider>, t: Token): (r: Option<Provider>)
    ensures r.Some? ==> ProviderToken(r.value) == t
  {
    var last := LastFor(ps, t);
    if last.Some? then last else if t.ClassToken? then Some(Shorthand(Described(p, t.id))) else None
  }

  function Described(p: Program, cls: nat): ClassInfo {
    if cls in p.classes then ClassInfo(cls, p.classes[cls].mode, p.classes[cls].fields) else ClassInfo(cls, None, [])
  }

  /** The providers of a container that chooses for each of the given tokens. */
  function OwnTable(p: Program, ps: seq<Provider>, ts: seq<Token>): map<Token, Normalized> {
    map t | t in ts && Choice(p, ps, t).Some? :: Normalize(Choice(p, ps, t).value)
  }

  lemma {:induction false} LastForJoin(a: seq<Provider>, b: seq<Provider>, t: Token)
    ensures LastFor(a + b, t) == if LastFor(b, t).Some? then LastFor(b, t) else LastFor(a, t)
  {
    if b == [] {
      assert a + b == a;
    } else {
      assert (a + b)[..|a + b| - 1] == a + b[..|b| - 1];
      LastForJoin(a, b[..|b| - 1], t);
    }
  }

  lemma {:induction false} LastForFinds(ps: seq<Provider>, t: Token)
    ensures LastFor(ps, t).Some? <==> exists i :: 0 <= i < |ps| && ProviderToken(ps[i]) == t
  {
    if ps != [] {
      LastForFinds(ps[..|ps| - 1], t);
      assert forall i | 0 <= i < |ps| - 1 :: ps[..|ps| - 1][i] == ps[i];
    }
  }

  lemma {:induction false} LastForIs(ps: seq<Provider>, i: nat)
    requires i < |ps| && forall j | i < j < |ps| :: ProviderToken(ps[j]) != ProviderToken(ps[i])
    ensures LastFor(ps, ProviderToken(ps[i])) == Some(ps[i])
    decreases |ps|
  {
    if i < |ps| - 1 {
      LastForIs(ps[..|ps| - 1], i);
    }
  }

  lemma {:induction false} InTokens(ps: seq<Provider>, t: Token)
    ensures t in Tokens(ps) <==> exists i :: 0 <= i < |ps| && ProviderToken(ps[i]) == t
  {
    if i :| 0 <= i < |ps| && ProviderToken(ps[i]) == t {
      assert Tokens(ps)[i] == t;
    }
  }

  /** A module registers exactly its own tokens. For a token it provides itself it registers its
      last own provider, whatever its imports provide; its class, if it does not provide it, is
      registered as the last import provides it, and as itself otherwise. */
  lemma {:induction false} OwnProviderWins(p: Program, imported: seq<Provider>, d: Declaration)
    ensures var own := d.metadata.providers;
            var table := OwnTable(p, imported + own, OwnTokens(d));
            && table.Keys == Elements(Tokens(own)) + {ClassToken(d.cls)}
            && (forall i | 0 <= i < |own|
                && (forall j | i < j < |own| :: ProviderToken(own[j]) != ProviderToken(own[i])) ::
                  table[ProviderToken(own[i])] == Normalize(own[i]))
            && (ClassToken(d.cls) !in Tokens(own) ==>
                  table[ClassToken(d.cls)] ==
                    (if LastFor(imported, ClassToken(d.cls)).Some? then
                       Normalize(LastFor(imported, ClassToken(d.cls)).value)
                     else Normalize(Shorthand(Described(p, d.cls)))))
  {
    hide Normalize, LastFor, OwnTable, OwnTokens;
    var own := d.metadata.providers;
    forall t
      ensures t in OwnTable(p, imported + own, OwnTokens(d)) <==> t in Tokens(own) || t == ClassToken(d.cls)
    {
      TableAt(p, imported, d, t);
    }
    TableAt(p, imported, d, ClassToken(d.cls));
    forall i | 0 <= i < |own| && forall j | i < j < |own| :: ProviderToken(own[j]) != ProviderToken(own[i])
      ensures OwnTable(p, imported + own, OwnTokens(d))[ProviderToken(own[i])] == Normalize(own[i])
    {
      TableAt(p, imported, d, ProviderToken(own[i]));
      LastForIs(own, i);
      assert Tokens(own)[i] == ProviderToken(own[i]);
    }
  }

  /** The entry of one token in the table of a module. */
  lemma {:induction false} TableAt(p: Program, imported: seq<Provider>, d: Declaration, t: Token)
    ensures var own := d.metadata.providers;
            var table := OwnTable(p, imported + own, OwnTokens(d));
            && (t in table <==> t in Tokens(own) || t == ClassToken(d.cls))
            && (LastFor(own, t).Some? <==> t in Tokens(own))
            && (t in Tokens(own) ==> table[t] == Normalize(LastFor(own, t).value))
            && (t == ClassToken(d.cls) && t !in Tokens(own) ==>
                  table[t] == if LastFor(imported, t).Some? then Normalize(LastFor(imported, t).value)
                      else Normalize(Shorthand(Described(p, d.cls))))
  {
    hide Normalize, LastFor, Described;
    var own := d.metadata.providers;
    UniqueIsSet(Tokens(own) + [ClassToken(d.cls)]);
    LastForJoin(imported, own, t);
    LastForFinds(own, t);
    InTokens(own, t);
  }

  /** What a dynamic module adds to its class: its providers win over those of the class, its imports and exports
      are added, and whether it is global it may say itself. */
  lemma {:induction false} DynamicAdds(p: Program, o: nat, t: Token)
    requires Known(p, DynamicModule(o))
    ensures var extra, plain := p.dynamics[o].extra, p.classes[p.dynamics[o].cls];
            var d := ResolveModule(p, DynamicModule(o));
            && d.Some? && d.value.cls == p.dynamics[o].cls
            && (LastFor(extra.providers, t).Some? ==>
                  LastFor(d.value.metadata.providers, t) == LastFor(extra.providers, t))
            && (LastFor(extra.providers, t).None? && plain.metadata.Some? ==>
                  LastFor(d.value.metadata.providers, t) == LastFor(plain.metadata.value.providers, t))
            && (forall x :: x in d.value.metadata.imports <==>
                  x in extra.imports || (plain.metadata.Some? && x in plain.metadata.value.imports))
            && (forall x :: x in d.value.metadata.exports <==>
                  x in extra.exports || (plain.metadata.Some? && x in plain.metadata.value.exports))
            && (d.value.isGlobal <==>
                  p.dynamics[o].global == Some(true) || (p.dynamics[o].global.None? && plain.global))
  {
    var extra, plain := p.dynamics[o].extra, p.classes[p.dynamics[o].cls];
    var inherent := if plain.metadata.Some? then plain.metadata.value else Metadata([], [], []);
    LastForJoin(inherent.providers, extra.providers, t);
  }

  // ------------------------------------------------------------------ applications

  /** An application to be created; `rank` orders modules above what they import. */
  datatype Plan = Plan(p: Program, root: Ref, useGlobals: bool, rank: Ref -> nat)

  ghost function Order(plan: Plan): seq<Ref>
    requires WellFormed(plan.p) && plan.root in Refs(plan.p)
  {
    InitOrder(ImportsOf(plan.p), plan.root)
  }

  function ClassOf(p: Program, r: Ref): nat {
    match r
    case StaticModule(cls) => cls
    case DynamicModule(o) => if o in p.dynamics then p.dynamics[o].cls else 0
  }

  /** Building containers ends when the reachable imports are acyclic. */
  ghost predicate Workable(plan: Plan) {
    && WellFormed(plan.p) && plan.root in Refs(plan.p)
    && (!Fails(plan.p, plan.root) ==>
          forall m, x | m in Order(plan) && m in Refs(plan.p) && x in ImportsOf(plan.p)[m] ::
              plan.rank(x) < plan.rank(m))
  }

  ghost predicate Buildable(plan: Plan) {
    Workable(plan) && !Fails(plan.p, plan.root)
  }

  lemma BuildableFacts(plan: Plan)
    requires Buildable(plan)
    ensures WellFormed(plan.p) && plan.root in Refs(plan.p)
  {
  }

  lemma OrderFacts(plan: Plan, m: Ref)
    requires Buildable(plan) && m in Order(plan)
    ensures plan.root in Order(plan) && Distinct(Order(plan))
    ensures m in Refs(plan.p) && ResolveModule(plan.p, m).Some?
            && ResolveModule(plan.p, m).value.cls == ClassOf(plan.p, m)
    ensures ImportsOf(plan.p)[m] == ResolveModule(plan.p, m).value.metadata.imports && m in Lists(plan.p, Order(plan))
    ensures forall x | x in ImportsOf(plan.p)[m] :: x in Order(plan) && plan.rank(x) < plan.rank(m)
  {
    hide Dfs, Lists, Reaches;
    var g := ImportsOf(plan.p);
    InitOrderIsSound(g, plan.root);
    assert Reaches(g, plan.root, m);
    InsideRefs(plan, m);
    forall x | x in g[m]
      ensures x in Order(plan)
    {
      ReachesImport(g, plan.root, m, x);
    }
  }

  lemma InsideRefs(plan: Plan, m: Ref)
    requires Buildable(plan) && Reaches(ImportsOf(plan.p), plan.root, m)
    ensures m in Refs(plan.p) && ResolveModule(plan.p, m).Some?
  {
    hide Order;
    var g := ImportsOf(plan.p);
    var path :| Path(g, path) && path[0] == plan.root && path[|path| - 1] == m;
    PathInside(g, path);
  }

  // ---------------------------------------------------------- which containers there are

  /** What has been built: whose container is found under each class, whose containers each module's container
      has as children, and the order in which containers were finished. */
  datatype Building = Building(index: map<nat, Ref>, kids: map<Ref, seq<Ref>>, order: seq<Ref>)

  const NOTHING_BUILT := Building(map[], map[], [])

  /** Builds the container of a module unless there is one for its class. Imports come first, and the new
      container takes the place of one that was built for the same class meanwhile. */
  ghost function BuildOne(plan: Plan, r: Ref, b: Building): (after: Building)
    requires Buildable(plan) && r in Order(plan)
    ensures ClassOf(plan.p, r) in after.index
    decreases plan.rank(r) + 1, 0
  {
    var cls := ClassOf(plan.p, r);
    if cls in b.index then b else
      OrderFacts(plan, r);
      var inner := BuildAll(plan, ImportsOf(plan.p)[r], b, plan.rank(r));
      Building(inner.0.index[cls := r], inner.0.kids[r := inner.1], inner.0.order + [r])
  }

  /** The containers of several modules, and whose they are. */
  ghost function BuildAll(plan: Plan, rs: seq<Ref>, b: Building, bound: nat): (Building, seq<Ref>)
    requires Buildable(plan) && forall x | x in rs :: x in Order(plan) && plan.rank(x) < bound
    decreases bound, |rs| + 1
  {
    if rs == [] then (b, []) else
      var before := BuildAll(plan, rs[..|rs| - 1], b, bound);
      var x := rs[|rs| - 1];
      var next := BuildOne(plan, x, before.0);
      (next, before.1 + [next.index[ClassOf(plan.p, x)]])
  }

  /** All containers of the application. */
  ghost function Built(plan: Plan): Building
    requires Buildable(plan) && plan.root in Order(plan)
  {
    BuildOne(plan, plan.root, NOTHING_BUILT)
  }

  ghost predicate Sane(plan: Plan, b: Building)
    requires Buildable(plan)
  {
    && Distinct(b.order) && (forall r :: r in b.kids <==> r in b.order)
    && (forall r | r in b.order :: r in Order(plan) && ClassOf(plan.p, r) in b.index)
    && (forall c | c in b.index :: b.index[c] in b.order && ClassOf(plan.p, b.index[c]) == c)
    && (forall i | 0 <= i < |b.order| :: Parented(plan, b, i))
  }

  /** For each import the container has a child of the same class, finished before it. */
  ghost predicate Parented(plan: Plan, b: Building, i: nat)
    requires Buildable(plan) && i < |b.order|
  {
    var r := b.order[i];
    && r in b.kids && r in Refs(plan.p) && Chosen(plan.p, b.kids[r], ImportsOf(plan.p)[r])
    && forall x | x in b.kids[r] :: x in b.order[..i]
  }

  ghost predicate Chosen(p: Program, kids: seq<Ref>, rs: seq<Ref>) {
    |kids| == |rs| && forall j | 0 <= j < |rs| :: ClassOf(p, kids[j]) == ClassOf(p, rs[j])
  }

  /** Containers stay, with their children, and so do the classes that have one. */
  ghost predicate BuiltOn(a: Building, b: Building) {
    a.order <= b.order && a.index.Keys <= b.index.Keys && forall r | r in a.kids ::
        r in b.kids && b.kids[r] == a.kids[r]
  }

  ghost predicate NewBelow(plan: Plan, a: Building, b: Building, bound: int) {
    forall r | r in b.order && r !in a.order :: plan.rank(r) < bound
  }

  lemma {:induction false} BuildOneIsSane(plan: Plan, r: Ref, b: Building)
    requires Buildable(plan) && r in Order(plan) && Sane(plan, b)
    ensures var after := BuildOne(plan, r, b);
            && Sane(plan, after) && BuiltOn(b, after) && NewBelow(plan, b, after, plan.rank(r) + 1)
            && (ClassOf(plan.p, r) !in b.index ==>
                  after.index[ClassOf(plan.p, r)] == r && after.order != [] && after.order[|after.order| - 1] == r)
    decreases plan.rank(r) + 1, 0
  {
    hide Order, Buildable, Sane, BuiltOn, NewBelow, ImportsOf, Refs, WellFormed, ClassOf, Chosen, Lists, BuildOne,
      BuildAll;
    BuildOneStep(plan, r, b);
    if ClassOf(plan.p, r) in b.index {
      BuiltOnItself(plan, b, plan.rank(r) + 1);
    } else {
      OrderFacts(plan, r);
      var rs := ImportsOf(plan.p)[r];
      var inner := BuildAll(plan, rs, b, plan.rank(r));
      BuildAllIsSane(plan, rs, b, plan.rank(r));
      AddOne(plan, r, b, inner.0, inner.1);
    }
  }

  lemma {:induction false} BuildOneStep(plan: Plan, r: Ref, b: Building)
    requires Buildable(plan) && r in Order(plan)
    ensures ClassOf(plan.p, r) in b.index ==> BuildOne(plan, r, b) == b
    ensures WellFormed(plan.p) && r in ImportsOf(plan.p)
    ensures forall x | x in ImportsOf(plan.p)[r] :: x in Order(plan) && plan.rank(x) < plan.rank(r)
    ensures ClassOf(plan.p, r) !in b.index ==>
              var inner := BuildAll(plan, ImportsOf(plan.p)[r], b, plan.rank(r));
              BuildOne(plan, r, b) == Added(plan, r, inner.0, inner.1)
  {
    hide Order, Buildable, Refs, WellFormed, ClassOf, Lists, BuildAll, ResolveModule;
    OrderFacts(plan, r);
    BuildableFacts(plan);
  }

  lemma {:induction false} BuildAllStep(plan: Plan, rs: seq<Ref>, b: Building, bound: nat)
    requires Buildable(plan) && rs != [] && forall x | x in rs :: x in Order(plan) && plan.rank(x) < bound
    ensures var front, x := rs[..|rs| - 1], rs[|rs| - 1];
            var before := BuildAll(plan, front, b, bound);
            var next := BuildOne(plan, x, before.0);
            && ClassOf(plan.p, x) in next.index
            && BuildAll(plan, rs, b, bound) == (next, before.1 + [next.index[ClassOf(plan.p, x)]])
  {
    hide Order, Buildable, ClassOf, BuildOne;
  }

  lemma {:induction false} BuildAllIsSane(plan: Plan, rs: seq<Ref>, b: Building, bound: nat)
    requires Buildable(plan) && Sane(plan, b) && forall x | x in rs :: x in Order(plan) && plan.rank(x) < bound
    ensures var after := BuildAll(plan, rs, b, bound);
            && Sane(plan, after.0) && BuiltOn(b, after.0) && NewBelow(plan, b, after.0, bound)
            && Chosen(plan.p, after.1, rs) && forall x | x in after.1 :: x in after.0.order
    decreases bound, |rs| + 1
  {
    hide Order, Buildable, Sane, BuiltOn, NewBelow, Chosen, ClassOf, BuildOne;
    if rs == [] {
      BuiltOnItself(plan, b, bound);
      NoneChosen(plan.p);
    } else {
      hide BuildAll;
      var front, x := rs[..|rs| - 1], rs[|rs| - 1];
      var before := BuildAll(plan, front, b, bound);
      BuildAllStep(plan, rs, b, bound);
      BuildAllIsSane(plan, front, b, bound);
      BuildOneIsSane(plan, x, before.0);
      var next := BuildOne(plan, x, before.0);
      BuiltOnThen(plan, b, before.0, next, bound, plan.rank(x) + 1);
      IndexedIsBuilt(plan, next, ClassOf(plan.p, x));
      OneMoreChosen(plan.p, before.1, front, next.index[ClassOf(plan.p, x)], x);
      assert front + [x] == rs;
    }
  }

  lemma NoneChosen(p: Program)
    ensures Chosen(p, [], [])
  {
  }

  lemma OneMoreChosen(p: Program, kids: seq<Ref>, rs: seq<Ref>, kid: Ref, r: Ref)
    requires Chosen(p, kids, rs) && ClassOf(p, kid) == ClassOf(p, r)
    ensures Chosen(p, kids + [kid], rs + [r])
  {
    hide ClassOf;
  }

  lemma IndexedIsBuilt(plan: Plan, b: Building, c: nat)
    requires Buildable(plan) && Sane(plan, b) && c in b.index
    ensures b.index[c] in b.order && ClassOf(plan.p, b.index[c]) == c
  {
    hide Order, Buildable, Parented;
  }

  lemma BuiltOnItself(plan: Plan, b: Building, bound: int)
    ensures BuiltOn(b, b) && NewBelow(plan, b, b, bound)
  {
  }

  lemma BuiltOnThen(plan: Plan, a: Building, b: Building, c: Building, bound: int, below: int)
    requires BuiltOn(a, b) && BuiltOn(b, c) && NewBelow(plan, a, b, bound) && NewBelow(plan, b, c, below)
             && below <= bound
    ensures BuiltOn(a, c) && NewBelow(plan, a, c, bound) && forall r | r in b.order :: r in c.order
  {
  }

  ghost function Added(plan: Plan, r: Ref, inner: Building, kids: seq<Ref>): Building {
    Building(inner.index[ClassOf(plan.p, r) := r], inner.kids[r := kids], inner.order + [r])
  }

  lemma AddedIs(plan: Plan, r: Ref, inner: Building, kids: seq<Ref>)
    ensures Added(plan, r, inner, kids).order == inner.order + [r] && r in Added(plan, r, inner, kids).kids
    ensures Added(plan, r, inner, kids).kids == inner.kids[r := kids]
  {
  }

  /** One container more, over those of its imports. */
  lemma {:induction false} AddOne(plan: Plan, r: Ref, b: Building, inner: Building, kids: seq<Ref>)
    requires Buildable(plan) && r in Order(plan) && r in Refs(plan.p) && Sane(plan, b) && Sane(plan, inner)
    requires BuiltOn(b, inner) && NewBelow(plan, b, inner, plan.rank(r)) && ClassOf(plan.p, r) !in b.index
    requires WellFormed(plan.p) && r in ImportsOf(plan.p)
    requires Chosen(plan.p, kids, ImportsOf(plan.p)[r]) && forall x | x in kids :: x in inner.order
    ensures var after := Added(plan, r, inner, kids);
            Sane(plan, after) && BuiltOn(b, after) && NewBelow(plan, b, after, plan.rank(r) + 1)
  {
    hide Order, Buildable, Chosen, ClassOf, Sane, ImportsOf, Refs;
    IsNew(plan, r, b, inner);
    AddedIsSane(plan, r, inner, kids);
  }

  lemma IsNew(plan: Plan, r: Ref, b: Building, inner: Building)
    requires Buildable(plan) && Sane(plan, b) && Sane(plan, inner) && NewBelow(plan, b, inner, plan.rank(r))
             && ClassOf(plan.p, r) !in b.index
    ensures r !in inner.order && r !in inner.kids
  {
    hide Order, Buildable, Parented, ClassOf;
  }

  lemma {:induction false} AddedIsSane(plan: Plan, r: Ref, inner: Building, kids: seq<Ref>)
    requires Buildable(plan) && r in Order(plan) && r in Refs(plan.p) && Sane(plan, inner) && r !in inner.order
    requires WellFormed(plan.p) && r in ImportsOf(plan.p)
    requires Chosen(plan.p, kids, ImportsOf(plan.p)[r]) && forall x | x in kids :: x in inner.order
    ensures Sane(plan, Added(plan, r, inner, kids))
  {
    hide Order, Buildable, ClassOf, Parented, Chosen, ImportsOf, Refs;
    var after := Added(plan, r, inner, kids);
    assert forall x :: x in after.order <==> x in inner.order || x == r;
    forall i | 0 <= i < |after.order|
      ensures Parented(plan, after, i)
    {
      AddedParented(plan, r, inner, kids, i);
    }
  }

  lemma {:induction false} AddedParented(plan: Plan, r: Ref, inner: Building, kids: seq<Ref>, i: nat)
    requires Buildable(plan) && r in Refs(plan.p) && r !in inner.order && i <= |inner.order|
    requires forall i | 0 <= i < |inner.order| :: Parented(plan, inner, i)
    requires WellFormed(plan.p) && r in ImportsOf(plan.p)
    requires Chosen(plan.p, kids, ImportsOf(plan.p)[r]) && forall x | x in kids :: x in inner.order
    ensures Parented(plan, Added(plan, r, inner, kids), i)
  {
    hide Order, Buildable, ClassOf, Chosen, ImportsOf, Refs;
    var after := Added(plan, r, inner, kids);
    if i < |inner.order| {
      assert Parented(plan, inner, i) && after.order[..i] == inner.order[..i] && inner.order[i] in inner.order;
    } else {
      assert after.order[..i] == inner.order;
    }
  }

  lemma {:induction false} BuiltIsSane(plan: Plan)
    requires Buildable(plan) && plan.root in Order(plan)
    ensures Sane(plan, NOTHING_BUILT) && Sane(plan, Built(plan)) && plan.root in Built(plan).order
    ensures Built(plan).index[ClassOf(plan.p, plan.root)] == plan.root
  {
    hide Order, Buildable;
    assert Sane(plan, NOTHING_BUILT);
    BuildOneIsSane(plan, plan.root, NOTHING_BUILT);
  }

  /** Every module has a container of its own when no class is imported in two ways. */
  lemma {:induction false} DistinctClassesAreBuilt(plan: Plan)
    requires Buildable(plan) && plan.root in Order(plan)
    requires forall r | r in Order(plan) :: OnlyForm(plan, r)
    ensures forall r | r in Order(plan) :: HasOwn(plan, Built(plan), r)
  {
    hide Dfs, Workable, BuildOne, ClassOf, Sane, OnlyForm, HasOwn;
    BuildableFacts(plan);
    var g, b := ImportsOf(plan.p), Built(plan);
    BuiltIsSane(plan);
    InitOrderIsSound(g, plan.root);
    forall m | m in b.order
      ensures HasOwn(plan, b, m) && m in g && forall x | x in g[m] :: x in b.order
    {
      OwnKids(plan, b, m);
    }
    forall r | r in Order(plan)
      ensures HasOwn(plan, b, r)
    {
      var path :| Path(g, path) && path[0] == plan.root && path[|path| - 1] == r;
      ClosedUnderPath(g, Elements(b.order), path);
    }
  }

  /** No other module of the application has the same class. */
  ghost predicate OnlyForm(plan: Plan, r: Ref)
    requires Buildable(plan)
  {
    forall x | x in Order(plan) && ClassOf(plan.p, x) == ClassOf(plan.p, r) :: x == r
  }

  /** The module has its own container, with those of its imports as children. */
  ghost predicate HasOwn(plan: Plan, b: Building, r: Ref)
    requires Buildable(plan)
  {
    && r in b.kids && r in ImportsOf(plan.p) && b.kids[r] == ImportsOf(plan.p)[r]
    && ClassOf(plan.p, r) in b.index && b.index[ClassOf(plan.p, r)] == r
  }

  lemma SaneClass(plan: Plan, b: Building, r: Ref)
    requires Buildable(plan) && Sane(plan, b) && r in b.order
    ensures r in Order(plan) && r in b.kids && ClassOf(plan.p, r) in b.index
    ensures b.index[ClassOf(plan.p, r)] in Order(plan)
            && ClassOf(plan.p, b.index[ClassOf(plan.p, r)]) == ClassOf(plan.p, r)
  {
    hide Order, Buildable, Parented;
  }

  lemma OwnKids(plan: Plan, b: Building, m: Ref)
    requires Buildable(plan) && Sane(plan, b) && m in b.order && forall r | r in Order(plan) :: OnlyForm(plan, r)
    ensures HasOwn(plan, b, m) && m in ImportsOf(plan.p) && forall x | x in ImportsOf(plan.p)[m] :: x in b.order
  {
    hide Order, Buildable, ImportsOf, Refs, WellFormed, Sane, ClassOf, OnlyForm, Lists;
    SaneClass(plan, b, m);
    var i := KidsOf(plan, b, m);
    OrderFacts(plan, m);
    BuildableFacts(plan);
    var rs := ImportsOf(plan.p)[m];
    forall j | 0 <= j < |rs|
      ensures b.kids[m][j] == rs[j] && rs[j] in b.order
    {
      assert b.kids[m][j] in b.kids[m] && rs[j] in rs;
      SaneClass(plan, b, b.kids[m][j]);
      SameForm(plan, rs[j], b.kids[m][j]);
    }
    SameForm(plan, m, b.index[ClassOf(plan.p, m)]);
  }

  lemma SameForm(plan: Plan, r: Ref, x: Ref)
    requires Buildable(plan) && r in Order(plan) && OnlyForm(plan, r) && x in Order(plan)
             && ClassOf(plan.p, x) == ClassOf(plan.p, r)
    ensures x == r
  {
  }

  lemma KidsOf(plan: Plan, b: Building, m: Ref) returns (i: nat)
    requires Buildable(plan) && Sane(plan, b) && m in b.order
    ensures i < |b.order| && b.order[i] == m && m in b.kids && WellFormed(plan.p) && m in ImportsOf(plan.p)
    ensures Chosen(plan.p, b.kids[m], ImportsOf(plan.p)[m])
    ensures forall x | x in b.kids[m] :: x in b.order[..i] && x in b.order
  {
    hide Order, Buildable, Refs, Chosen;
    BuildableFacts(plan);
    i :| 0 <= i < |b.order| && b.order[i] == m;
    assert Parented(plan, b, i);
  }

  // ---------------------------------------------------------------- the container graph

  /** Containers are named after their modules; the shared global container is 0. */
  function ContainerId(r: Ref): Id {
    match r
    case StaticModule(cls) => 2 * cls + 1
    case DynamicModule(o) => 2 * o + 2
  }

  function ModuleNamed(c: Id): (r: Ref)
    requires c > 0
    ensures ContainerId(r) == c
  {
    if c % 2 == 1 then StaticModule((c - 1) / 2) else DynamicModule((c - 2) / 2)
  }

  lemma NamesDiffer(r: Ref, c: Id)
    ensures ContainerId(r) > 0 && (c > 0 ==> (ModuleNamed(c) == r <==> c == ContainerId(r)))
  {
  }

  function Position(order: seq<Ref>, r: Ref): nat {
    if order == [] then 0 else
      var front := order[..|order| - 1];
      if r in front then Position(front, r) else |front|
  }

  lemma {:induction false} PositionIs(order: seq<Ref>, i: nat)
    requires Distinct(order) && i < |order|
    ensures Position(order, order[i]) == i
    decreases |order|
  {
    var front := order[..|order| - 1];
    if i < |front| {
      PositionIs(front, i);
    }
  }

  /** The providers that a module's container registers. */
  ghost function TableOf(plan: Plan, r: Ref): map<Token, Normalized>
    requires Buildable(plan) && r in Order(plan)
  {
    OrderFacts(plan, r);
    OwnTable(plan.p, Lists(plan.p, Order(plan))[r], OwnTokens(ResolveModule(plan.p, r).value))
  }

  ghost function NodeOf(plan: Plan, b: Building, r: Ref): Node
    requires Buildable(plan) && r in Order(plan) && r in b.kids
  {
    OrderFacts(plan, r);
    Node(TableOf(plan, r), ContainerIds(b.kids[r]), Elements(ResolveModule(plan.p, r).value.metadata.exports),
         Some(0), Position(b.order, r) + 1)
  }

  function ContainerIds(rs: seq<Ref>): (ids: seq<Id>)
    ensures |ids| == |rs| && forall i | 0 <= i < |rs| :: ids[i] == ContainerId(rs[i])
  {
    seq(|rs|, i requires 0 <= i < |rs| => ContainerId(rs[i]))
  }

  /** The global container has the providers of the global modules, later ones replacing earlier. */
  ghost function SharedNode(plan: Plan): Node
    requires Buildable(plan)
  {
    Node(Registered(map[], if plan.useGlobals then GlobalsOf(plan.p, Order(plan)) else []), [], {}, None, 0)
  }

  /** The containers built so far, the global one among them. */
  ghost function GraphFrom(plan: Plan, b: Building): (g: Graph)
    requires Buildable(plan) && Sane(plan, b)
    ensures g.Keys == Ids(b)
  {
    map c | c in Ids(b) :: if c == 0 then SharedNode(plan) else NamedNode(plan, b, c)
  }

  function Ids(b: Building): (ids: set<Id>)
    ensures forall c :: c in ids <==> c == 0 || exists r :: r in b.order && c == ContainerId(r)
  {
    {0} + set r | r in b.order :: ContainerId(r)
  }

  ghost function NamedNode(plan: Plan, b: Building, c: Id): Node
    requires Buildable(plan) && Sane(plan, b) && c in Ids(b) && c > 0
  {
    NamedFacts(plan, b, c);
    NodeOf(plan, b, ModuleNamed(c))
  }

  lemma NamedFacts(plan: Plan, b: Building, c: Id)
    requires Buildable(plan) && Sane(plan, b) && c in Ids(b) && c > 0
    ensures ModuleNamed(c) in Order(plan) && ModuleNamed(c) in b.kids && ModuleNamed(c) in b.order
  {
    hide Order, Buildable, Parented;
    var r :| r in b.order && c == ContainerId(r);
    NamesDiffer(r, c);
  }

  lemma GraphAt(plan: Plan, b: Building, r: Ref)
    requires Buildable(plan) && Sane(plan, b) && r in b.order
    ensures r in Order(plan) && r in b.kids && ContainerId(r) > 0
    ensures ContainerId(r) in GraphFrom(plan, b) && GraphFrom(plan, b)[ContainerId(r)] == NodeOf(plan, b, r)
    ensures 0 in GraphFrom(plan, b) && GraphFrom(plan, b)[0] == SharedNode(plan)
  {
    hide Order, Buildable, NodeOf, SharedNode, Parented;
    NamesDiffer(r, ContainerId(r));
  }

  lemma SharedAt(plan: Plan, b: Building)
    requires Buildable(plan) && Sane(plan, b)
    ensures 0 in GraphFrom(plan, b) && GraphFrom(plan, b)[0] == SharedNode(plan)
  {
    hide Order, Buildable, NodeOf, SharedNode, Sane;
  }

  /** The containers of an application. */
  ghost function GraphOf(plan: Plan): Graph
    requires Buildable(plan) && plan.root in Order(plan)
  {
    BuiltIsSane(plan);
    GraphFrom(plan, Built(plan))
  }

  /** Where initialisation looks for the container of a module class. */
  ghost function HomeOf(plan: Plan): (home: map<nat, Id>)
    requires Buildable(plan) && plan.root in Order(plan)
    ensures forall c | c in home :: home[c] in GraphOf(plan)
  {
    HomeIsThere(plan);
    map c | c in Built(plan).index :: ContainerId(Built(plan).index[c])
  }

  lemma HomeIsThere(plan: Plan)
    requires Buildable(plan) && plan.root in Order(plan)
    ensures forall c | c in Built(plan).index :: ContainerId(Built(plan).index[c]) in GraphOf(plan)
  {
    hide Order, Buildable, NodeOf, Built, Sane, GraphFrom;
    BuiltIsSane(plan);
    forall c | c in Built(plan).index
      ensures ContainerId(Built(plan).index[c]) in GraphOf(plan)
    {
      IndexedIsBuilt(plan, Built(plan), c);
      GraphAt(plan, Built(plan), Built(plan).index[c]);
    }
  }

  /** The containers form a graph on which resolution is well behaved. */
  lemma GraphIsDag(plan: Plan)
    requires Buildable(plan) && plan.root in Order(plan)
    ensures Dag(GraphOf(plan))
  {
    hide Order, GraphFrom, NodeOf, Built, Sane, NodeFits;
    BuiltIsSane(plan);
    var g, b := GraphOf(plan), Built(plan);
    forall c | c in g
      ensures NodeFits(g, c)
    {
      if c == 0 {
        SharedFits(plan, b);
      } else {
        var r :| r in b.order && c == ContainerId(r);
        NodeIsFit(plan, b, r);
      }
    }
    FitIsDag(g);
  }

  ghost predicate NodeFits(g: Graph, c: Id)
    requires c in g
  {
    && (forall d | d in g[c].children :: d in g && g[d].height < g[c].height)
    && (g[c].shared.Some? ==> g[c].height > 0 && g[c].shared.value in g && g[g[c].shared.value].height == 0)
    && (forall t | t in g[c].providers :: g[c].providers[t].token == t)
  }

  lemma FitIsDag(g: Graph)
    requires forall c | c in g :: NodeFits(g, c)
    ensures Dag(g)
  {
    assert forall c | c in g :: NodeFits(g, c);
  }

  lemma SharedFits(plan: Plan, b: Building)
    requires Buildable(plan) && Sane(plan, b)
    ensures 0 in GraphFrom(plan, b) && NodeFits(GraphFrom(plan, b), 0)
  {
    hide Order, Lists, OwnTable, GlobalsOf, Sane, GraphFrom, Buildable;
    SharedAt(plan, b);
    BuildableFacts(plan);
    var ps := if plan.useGlobals then GlobalsOf(plan.p, Order(plan)) else [];
    RegisteredTokens(map[], ps);
  }

  lemma {:induction false} RegisteredTokens(m: map<Token, Normalized>, ps: seq<Provider>)
    requires forall t | t in m :: m[t].token == t
    ensures forall t | t in Registered(m, ps) :: Registered(m, ps)[t].token == t
    decreases ps
  {
    hide Normalize;
    if ps != [] {
      RegisteredTokens(m[ProviderToken(ps[0]) := Normalize(ps[0])], ps[1..]);
    }
  }

  lemma NodeIsFit(plan: Plan, b: Building, r: Ref)
    requires Buildable(plan) && Sane(plan, b) && r in b.order
    ensures ContainerId(r) in GraphFrom(plan, b) && NodeFits(GraphFrom(plan, b), ContainerId(r))
  {
    hide Order, Lists, OwnTokens, GraphFrom, Workable, Choice, Sane, Normalize;
    GraphAt(plan, b, r);
    var g, node := GraphFrom(plan, b), NodeOf(plan, b, r);
    assert SharedNode(plan).height == 0 by { SharedHeight(plan); }
    hide SharedNode;
    forall d | d in node.children
      ensures d in g && g[d].height < node.height
    {
      var i :| 0 <= i < |node.children| && node.children[i] == d;
      ChildFits(plan, b, r, i);
    }
  }

  /** The children of a container were finished before it. */
  lemma {:induction false} ChildFits(plan: Plan, b: Building, r: Ref, i: nat)
    requires Buildable(plan) && Sane(plan, b) && r in b.order && r in b.kids && i < |b.kids[r]|
    ensures b.kids[r][i] in b.order && ContainerId(b.kids[r][i]) in GraphFrom(plan, b)
    ensures GraphFrom(plan, b)[ContainerId(b.kids[r][i])].height < Position(b.order, r) + 1
  {
    hide Order, Buildable, GraphFrom, TableOf, ContainerId, Sane, Position, ImportsOf, Chosen, Refs, WellFormed;
    var j := KidsOf(plan, b, r);
    var x := b.kids[r][i];
    assert x in b.kids[r];
    var k :| 0 <= k < j && b.order[..j][k] == x;
    SaneOrder(plan, b);
    PositionIs(b.order, j);
    PositionIs(b.order, k);
    GraphAt(plan, b, x);
  }

  lemma SaneOrder(plan: Plan, b: Building)
    requires Buildable(plan) && Sane(plan, b)
    ensures Distinct(b.order)
  {
    hide Buildable, Order, Parented;
  }

  lemma SharedHeight(plan: Plan)
    requires Buildable(plan)
    ensures SharedNode(plan).height == 0
  {
  }

  /** A module's container registers its own providers over those that its imports provide: the lists of those
      finished before it, which is all of them when imports are acyclic. */
  lemma ModuleRegisters(plan: Plan, r: Ref) returns (imported: seq<Provider>)
    requires Buildable(plan) && r in Order(plan)
    ensures r in Refs(plan.p) && ResolveModule(plan.p, r).Some? && r in ImportsOf(plan.p)
    ensures forall x | x in ImportsOf(plan.p)[r] :: x in Lists(plan.p, Order(plan))
    ensures imported == Imported(Lists(plan.p, Order(plan)), ImportsOf(plan.p)[r])
    ensures var d := ResolveModule(plan.p, r).value;
            TableOf(plan, r) == OwnTable(plan.p, imported + d.metadata.providers, OwnTokens(d))
  {
    hide Dfs, Lists, Imported, OwnTokens, OwnTable, Reaches, WellFormed;
    var g := ImportsOf(plan.p);
    InitOrderIsSound(g, plan.root);
    OrderFacts(plan, r);
    AcyclicListsAreFlat(plan.p, plan.root, r, plan.rank);
    imported := Imported(Lists(plan.p, Order(plan)), g[r]);
  }

  /** What was built stays as it was. */
  lemma GraphGrows(plan: Plan, a: Building, b: Building, c: Id)
    requires Buildable(plan) && Sane(plan, a) && Sane(plan, b) && BuiltOn(a, b) && c in GraphFrom(plan, a)
    ensures c in GraphFrom(plan, b) && GraphFrom(plan, b)[c] == GraphFrom(plan, a)[c]
  {
    hide Order, Buildable, GraphFrom, TableOf, Sane, Position, ContainerId, Ids;
    SharedAt(plan, a);
    SharedAt(plan, b);
    if c != 0 {
      var r := ModuleNamed(c);
      NamedFacts(plan, a, c);
      SaneOrder(plan, a);
      SaneOrder(plan, b);
      GraphAt(plan, a, r);
      GraphAt(plan, b, r);
      var i :| 0 <= i < |a.order| && a.order[i] == r;
      PositionIs(a.order, i);
      PositionIs(b.order, i);
    }
  }

  // ----------------------------------------------------------------- before use

  ghost function BlankCell(): Cell {
    Cell(map[], [], [], [], map[])
  }

  ghost function Blank(g: Graph, log: seq<Event>): World {
    World(map c | c in g :: BlankCell(), log)
  }

  lemma BlankIsLive(g: Graph, log: seq<Event>)
    requires Dag(g) && Unserved(log)
    ensures Live(g, Blank(g, log)) && forall c | c in g :: Blank(g, log).cells[c] == BlankCell()
  {
    hide Dag;
  }
}
