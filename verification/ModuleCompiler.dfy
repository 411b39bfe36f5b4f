/** Compiles a module and everything it imports, and orders the result for initialisation. */
module ModuleCompilation {
  import opened Basics
  import opened InjectorGraph
  import opened ModuleGraph

  /** What `@Module` records on a class. */
  datatype Metadata = Metadata(imports: seq<Ref>, providers: seq<Provider>, exports: seq<Token>)

  /** A class: its metadata, if it is decorated with `@Module`, whether it is `@Global`, and what
      the injector knows of it. */
  datatype ModuleClass = ModuleClass(metadata: Option<Metadata>, global: bool, mode: Option<Mode>,
                                     fields: seq<Dependency>)

  /** A dynamic-module object adds to the metadata of its module class. */
  datatype Dynamic = Dynamic(cls: nat, extra: Metadata, global: Option<bool>)

  datatype Program = Program(classes: map<nat, ModuleClass>, dynamics: map<nat, Dynamic>)

  datatype Declaration = Declaration(cls: nat, metadata: Metadata, isGlobal: bool)

  predicate Known(p: Program, r: Ref) {
    match r
    case StaticModule(cls) => cls in p.classes
    case DynamicModule(o) => o in p.dynamics && p.dynamics[o].cls in p.classes
  }

  function Both(a: Metadata, b: Metadata): Metadata {
    Metadata(a.imports + b.imports, a.providers + b.providers, a.exports + b.exports)
  }

  /** The declaration of a module, or nothing for a class that is not a module. */
  function ResolveModule(p: Program, r: Ref): Option<Declaration>
    requires Known(p, r)
  {
    match r
    case StaticModule(cls) =>
      if p.classes[cls].metadata.None? then None
      else Some(Declaration(cls, p.classes[cls].metadata.value, p.classes[cls].global))
    case DynamicModule(o) =>
      var d := p.dynamics[o];
      var c := p.classes[d.cls];
      var inherent := if c.metadata.Some? then c.metadata.value else Metadata([], [], []);
      Some(Declaration(d.cls, Both(inherent, d.extra), if d.global.Some? then d.global.value else c.global))
  }

  ghost function Refs(p: Program): set<Ref> {
    (set c | c in p.classes :: StaticModule(c)) + (set o | o in p.dynamics :: DynamicModule(o))
  }

  ghost predicate WellFormed(p: Program) {
    && (forall r | r in Refs(p) :: Known(p, r))
    && (forall r, x | r in Refs(p) && ResolveModule(p, r).Some? && x in ResolveModule(p, r).value.metadata.imports ::
          x in Refs(p))
  }

  /** The import graph. A class that is not a module imports nothing. */
  ghost function ImportsOf(p: Program): (g: Imports)
    requires WellFormed(p)
    ensures Closed(g) && g.Keys == Refs(p)
  {
    map r | r in Refs(p) :: if ResolveModule(p, r).Some? then ResolveModule(p, r).value.metadata.imports else []
  }

  /** The injection tokens a module owns, in order: those of its providers, then its class. */
  function OwnTokens(d: Declaration): seq<Token> {
    Unique(Tokens(d.metadata.providers) + [ClassToken(d.cls)])
  }

  function Tokens(ps: seq<Provider>): (ts: seq<Token>)
    ensures |ts| == |ps| && forall i | 0 <= i < |ps| :: ts[i] == ProviderToken(ps[i])
  {
    if ps == [] then [] else [ProviderToken(ps[0])] + Tokens(ps[1..])
  }

  // ------------------------------------------------------ what compilation yields

  ghost function OwnProviders(p: Program, r: Ref): seq<Provider>
    requires WellFormed(p)
  {
    if r in Refs(p) && ResolveModule(p, r).Some? then ResolveModule(p, r).value.metadata.providers else []
  }

  /** The providers of global modules, in the given order of modules. */
  ghost function GlobalsOf(p: Program, order: seq<Ref>): seq<Provider>
    requires WellFormed(p)
  {
    if order == [] then [] else
      GlobalsOf(p, order[..|order| - 1]) + GlobalsAt(p, order[|order| - 1])
  }

  ghost function GlobalsAt(p: Program, r: Ref): seq<Provider>
    requires WellFormed(p)
  {
    if r in Refs(p) && ResolveModule(p, r).Some? && ResolveModule(p, r).value.isGlobal then OwnProviders(p, r) else []
  }

  /** The global providers are those of the modules declared global, each module's together and in order. */
  lemma {:induction false} GlobalsJoin(p: Program, a: seq<Ref>, b: seq<Ref>)
    requires WellFormed(p)
    ensures GlobalsOf(p, a + b) == GlobalsOf(p, a) + GlobalsOf(p, b)
  {
    hide GlobalsAt;
    if b == [] {
      assert a + b == a;
    } else {
      assert (a + b)[..|a + b| - 1] == a + b[..|b| - 1];
      GlobalsJoin(p, a, b[..|b| - 1]);
    }
  }

  ghost function Listed(lists: map<Ref, seq<Provider>>, r: Ref): seq<Provider> {
    if r in lists then lists[r] else []
  }

  ghost function Imported(lists: map<Ref, seq<Provider>>, rs: seq<Ref>): seq<Provider> {
    if rs == [] then [] else Imported(lists, rs[..|rs| - 1]) + Listed(lists, rs[|rs| - 1])
  }

  /** The provider lists of modules finished in the given order: those of the imports finished
      earlier, then the module's own. */
  ghost function Lists(p: Program, order: seq<Ref>): (lists: map<Ref, seq<Provider>>)
    requires WellFormed(p)
    ensures forall r :: r in lists <==> r in order
  {
    if order == [] then map[] else
      var before := Lists(p, order[..|order| - 1]);
      var m := order[|order| - 1];
      var imports := if m in Refs(p) then ImportsOf(p)[m] else [];
      assert order == order[..|order| - 1] + [m];
      before[m := Imported(before, imports) + OwnProviders(p, m)]
  }

  /** Modules finished later do not change the lists of those finished before. */
  lemma {:induction false} ListsGrow(p: Program, a: seq<Ref>, b: seq<Ref>)
    requires WellFormed(p) && forall r | r in b :: r !in a
    ensures forall r | r in a :: r in Lists(p, a + b) && Lists(p, a + b)[r] == Lists(p, a)[r]
  {
    if b == [] {
      assert a + b == a;
    } else {
      assert (a + b)[..|a + b| - 1] == a + b[..|b| - 1];
      ListsGrow(p, a, b[..|b| - 1]);
      assert b[|b| - 1] in b;
    }
  }

  /** Imports that were listed stay as they were, and those not listed are still not. */
  lemma {:induction false} ImportedStays(a: map<Ref, seq<Provider>>, b: map<Ref, seq<Provider>>, rs: seq<Ref>)
    requires forall r | r in rs :: Listed(a, r) == Listed(b, r)
    ensures Imported(a, rs) == Imported(b, rs)
  {
    if rs != [] {
      ImportedStays(a, b, rs[..|rs| - 1]);
    }
  }

  /** On acyclic imports a module's provider list is exactly the lists of all its imports, in
      order, followed by its own providers. */
  lemma {:induction false} AcyclicListsAreFlat(p: Program, root: Ref, m: Ref, rank: Ref -> nat)
    requires WellFormed(p) && root in Refs(p)
    requires Acyclic(ImportsOf(p), root, rank)
    requires m in InitOrder(ImportsOf(p), root) && m in Refs(p)
    ensures var lists := Lists(p, InitOrder(ImportsOf(p), root));
            && m in lists && lists[m] == Imported(lists, ImportsOf(p)[m]) + OwnProviders(p, m)
            && forall x | x in ImportsOf(p)[m] :: x in lists
  {
    hide Lists, Dfs, Reaches, WellFormed, Refs, ImportsOf, Imported, OwnProviders;
    var g := ImportsOf(p);
    var order := InitOrder(g, root);
    InitOrderIsSound(g, root);
    ImportsKeys(p);
    var i :| 0 <= i < |order| && order[i] == m;
    forall x | x in g[m]
      ensures x in order[..i]
    {
      RanksForbidReturn(g, root, rank, x, m);
    }
    ListAt(p, order, i);
    assert order == order[..i] + order[i..];
    SuffixApart(order, i);
    ListsGrow(p, order[..i], order[i..]);
    ImportedStays(Lists(p, order[..i]), Lists(p, order), g[m]);
  }

  lemma ImportsKeys(p: Program)
    requires WellFormed(p)
    ensures ImportsOf(p).Keys == Refs(p)
  {
  }

  lemma SuffixApart(order: seq<Ref>, i: nat)
    requires Distinct(order) && i <= |order|
    ensures forall r | r in order[i..] :: r !in order[..i]
  {
    forall r | r in order[i..]
      ensures r !in order[..i]
    {
      var j :| 0 <= j < |order[i..]| && order[i..][j] == r;
      assert order[i + j] == r;
    }
  }

  lemma {:induction false} ListAt(p: Program, order: seq<Ref>, i: nat)
    requires WellFormed(p) && Distinct(order) && i < |order| && order[i] in Refs(p)
    ensures order[i] in Lists(p, order)
    ensures Lists(p, order)[order[i]] == Imported(Lists(p, order[..i]), ImportsOf(p)[order[i]]) + OwnProviders(p,
                order[i])
    decreases |order|
  {
    var front := order[..|order| - 1];
    if i < |front| {
      assert front[..i] == order[..i];
      ListAt(p, front, i);
    } else {
      assert front == order[..i];
    }
  }

  // -------------------------------------------------------------- the compiler

  class CompiledModule {
    /** What the module was imported as. */
    const ref: Ref
    const cls: nat
    const ownTokens: seq<Token>
    const exports: set<Token>
    const isGlobal: bool
    var providers: seq<Provider>
    var imports: seq<CompiledModule>

    constructor (ref: Ref, d: Declaration)
      ensures this.ref == ref && providers == [] && imports == [] && Declares(d)
    {
      this.ref := ref;
      cls, ownTokens, exports, isGlobal := d.cls, OwnTokens(d), Elements(d.metadata.exports), d.isGlobal;
      providers, imports := [], [];
    }

    ghost predicate Declares(d: Declaration) {
      cls == d.cls && ownTokens == OwnTokens(d) && exports == Elements(d.metadata.exports) && isGlobal == d.isGlobal
    }
  }

  /** One module finished after the others adds its own list and its own globals. */
  lemma {:induction false} FinishOne(p: Program, finished: seq<Ref>, r: Ref)
    requires WellFormed(p) && r in Refs(p) && r !in finished && ResolveModule(p, r).Some?
    ensures Lists(p, finished + [r])[r] == Imported(Lists(p, finished), ImportsOf(p)[r]) + OwnProviders(p, r)
    ensures forall x | x in finished :: Lists(p, finished + [r])[x] == Lists(p, finished)[x]
    ensures GlobalsOf(p, finished + [r]) == GlobalsOf(p, finished) + GlobalsAt(p, r)
    ensures OwnProviders(p, r) == ResolveModule(p, r).value.metadata.providers
    ensures ImportsOf(p)[r] == ResolveModule(p, r).value.metadata.imports
  {
    assert (finished + [r])[..|finished + [r]| - 1] == finished;
    assert (finished + [r])[|finished|] == r;
  }

  /** Visiting one more import. */
  lemma {:induction false} DfsStep(g: Imports, rs: seq<Ref>, i: nat, start: set<Ref>, out: seq<Ref>, seen: set<Ref>)
    requires Closed(g) && (forall m | m in rs :: m in g) && i < |rs|
    requires Dfs(g, rs, start) == (Dfs(g, rs[i..], seen).0, out + Dfs(g, rs[i..], seen).1)
    ensures var d := Dfs(g, [rs[i]], seen);
            Dfs(g, rs, start) == (Dfs(g, rs[i + 1..], d.0).0, (out + d.1) + Dfs(g, rs[i + 1..], d.0).1)
  {
    var d := Dfs(g, [rs[i]], seen);
    assert rs[i..][1..] == rs[i + 1..];
    assert [rs[i]][1..] == [];
    var rest := Dfs(g, rs[i + 1..], d.0);
    if rs[i] !in seen {
      var inner := Dfs(g, g[rs[i]], seen + {rs[i]});
      assert Dfs(g, [rs[i]][1..], inner.0) == (inner.0, []);
      assert d == (inner.0, inner.1 + [rs[i]] + []);
      assert out + (inner.1 + [rs[i]] + rest.1) == (out + d.1) + rest.1;
    } else {
      assert out + rest.1 == (out + []) + rest.1;
    }
  }

  /** The import's list is added to those before it. */
  lemma {:induction false} ImportedStep(p: Program, rs: seq<Ref>, i: nat, before: seq<Ref>, more: seq<Ref>)
    requires WellFormed(p) && i < |rs| && forall r | r in more :: r !in before && r !in rs[..i]
    ensures Imported(Lists(p, before + more), rs[..i + 1])
         == Imported(Lists(p, before), rs[..i]) + Listed(Lists(p, before + more), rs[i])
  {
    assert rs[..i + 1][..i] == rs[..i];
    ListsGrow(p, before, more);
    ImportedStays(Lists(p, before), Lists(p, before + more), rs[..i]);
  }

  /** The first `n` modules in `ms` are what `rs` was compiled to. */
  ghost predicate Linked(compiled: map<Ref, CompiledModule>, ms: seq<CompiledModule>, rs: seq<Ref>, n: nat) {
    |ms| == n <= |rs| && forall i | 0 <= i < n :: rs[i] in compiled && ms[i] == compiled[rs[i]]
  }

  ghost predicate Extends(before: map<Ref, CompiledModule>, after: map<Ref, CompiledModule>) {
    forall k | k in before :: k in after && after[k] == before[k]
  }

  lemma LinkedMore(before: map<Ref, CompiledModule>, after: map<Ref, CompiledModule>, ms: seq<CompiledModule>,
                   rs: seq<Ref>, n: nat)
    requires Linked(before, ms, rs, n) && Extends(before, after)
    ensures Linked(after, ms, rs, n) && forall r | r in rs[..n] :: r in before
    ensures n < |rs| && rs[n] in after ==> Linked(after, ms + [after[rs[n]]], rs, n + 1)
  {
  }

  lemma LinkedNone(compiled: map<Ref, CompiledModule>, rs: seq<Ref>)
    ensures Linked(compiled, [], rs, 0) && Extends(compiled, compiled)
  {
  }

  lemma ExtendsMore(a: map<Ref, CompiledModule>, b: map<Ref, CompiledModule>, c: map<Ref, CompiledModule>)
    requires Extends(a, b) && Extends(b, c)
    ensures Extends(a, c) && a.Keys <= c.Keys && b.Keys <= c.Keys && forall k | k in b :: c[k] == b[k]
  {
  }

  // The compiler's state, by the part of the modules each predicate looks at.

  ghost predicate Table(p: Program, compiled: map<Ref, CompiledModule>, finished: seq<Ref>, all: set<CompiledModule>)
    requires WellFormed(p)
  {
    && Distinct(finished)
    && (forall r | r in finished :: r in compiled)
    && (forall r | r in compiled :: r in Refs(p) && compiled[r] in all && IsOf(p, compiled[r], r))
  }

  ghost predicate IsOf(p: Program, m: CompiledModule, r: Ref)
    requires WellFormed(p) && r in Refs(p)
  {
    ResolveModule(p, r).Some? && m.ref == r && m.Declares(ResolveModule(p, r).value)
  }

  /** Every finished module has all its imports. */
  ghost predicate Links(p: Program, compiled: map<Ref, CompiledModule>, finished: seq<Ref>, all: set<CompiledModule>)
    requires WellFormed(p) && Table(p, compiled, finished, all)
    reads all`imports
  {
    forall r | r in finished :: Linked(compiled, compiled[r].imports, ImportsOf(p)[r], |ImportsOf(p)[r]|)
  }

  /** Every finished module has its full provider list, every other an empty one; `but` is left out. */
  ghost predicate ProviderLists(p: Program, compiled: map<Ref, CompiledModule>, finished: seq<Ref>,
                                all: set<CompiledModule>, but: set<Ref>)
    requires WellFormed(p) && Table(p, compiled, finished, all)
    reads all`providers
  {
    forall r | r in compiled && r !in but :: compiled[r].providers == Listed(Lists(p, finished), r)
  }

  lemma TableFacts(p: Program, compiled: map<Ref, CompiledModule>, finished: seq<Ref>, all: set<CompiledModule>)
    requires WellFormed(p) && Table(p, compiled, finished, all)
    ensures (forall r | r in finished :: r in compiled) && forall r | r in compiled ::
              r in Refs(p) && ResolveModule(p, r).Some?
    ensures forall r | r in compiled :: compiled[r].ref == r && compiled[r] in all
  {
  }

  /** A new module, with nothing in it yet. */
  lemma AddModule(p: Program, compiled: map<Ref, CompiledModule>, finished: seq<Ref>, all: set<CompiledModule>,
                  m: CompiledModule)
    requires WellFormed(p) && Table(p, compiled, finished, all) && Links(p, compiled, finished, all)
    requires ProviderLists(p, compiled, finished, all, {})
    requires m.ref in Refs(p) && m.ref !in compiled && IsOf(p, m, m.ref) && m.providers == []
    ensures var c, a := compiled[m.ref := m], all + {m};
            Table(p, c, finished, a) && Links(p, c, finished, a) && ProviderLists(p, c, finished, a, {})
            && Extends(compiled, c) && m.ref !in finished
  {
    hide ImportsOf, IsOf, Lists, Linked, Extends, WellFormed;
    var c := compiled[m.ref := m];
    MapGrows(compiled, m);
    forall r | r in finished
      ensures Linked(c, c[r].imports, ImportsOf(p)[r], |ImportsOf(p)[r]|)
    {
      LinkedMore(compiled, c, compiled[r].imports, ImportsOf(p)[r], |ImportsOf(p)[r]|);
    }
  }

  lemma IsOfNew(p: Program, m: CompiledModule, r: Ref)
    requires WellFormed(p) && r in Refs(p) && ResolveModule(p, r).Some? && m.ref == r
             && m.Declares(ResolveModule(p, r).value)
    ensures IsOf(p, m, r)
  {
  }

  lemma KnownRef(p: Program, r: Ref)
    requires WellFormed(p) && r in Refs(p)
    ensures Known(p, r)
  {
  }

  lemma MapGrows(compiled: map<Ref, CompiledModule>, m: CompiledModule)
    requires m.ref !in compiled
    ensures Extends(compiled, compiled[m.ref := m])
  {
  }

  /** A module that has all its imports and its list becomes a finished one. */
  lemma {:induction false} FinishModule(p: Program, compiled: map<Ref, CompiledModule>, finished: seq<Ref>,
                                        all: set<CompiledModule>, m: CompiledModule)
    requires WellFormed(p) && Table(p, compiled, finished, all) && Links(p, compiled, finished, all)
    requires m.ref in compiled && compiled[m.ref] == m && m.ref !in finished
    requires ProviderLists(p, compiled, finished, all, {m.ref})
    requires m.ref in Refs(p) && Linked(compiled, m.imports, ImportsOf(p)[m.ref], |ImportsOf(p)[m.ref]|)
    requires m.providers == Imported(Lists(p, finished), ImportsOf(p)[m.ref]) + OwnProviders(p, m.ref)
    ensures var f := finished + [m.ref];
            Table(p, compiled, f, all) && Links(p, compiled, f, all) && ProviderLists(p, compiled, f, all, {})
            && GlobalsOf(p, f) == GlobalsOf(p, finished) + GlobalsAt(p, m.ref)
  {
    hide ImportsOf, IsOf, Linked, Lists, GlobalsOf, WellFormed;
    TableFacts(p, compiled, finished, all);
    FinishOne(p, finished, m.ref);
    var f := finished + [m.ref];
    assert forall r | r in f :: r in finished || r == m.ref;
  }

  /** How many modules have not been met. */
  ghost function Unmet(p: Program, met: set<Ref>): nat
    requires WellFormed(p)
  {
    |ImportsOf(p).Keys - met|
  }

  class ModuleCompiler {
    /** Modules met so far: a class is remembered by itself, a dynamic module by its object. */
    var compiled: map<Ref, CompiledModule>
    var globalProviders: seq<Provider>
    /** The modules whose compilation is complete, in the order it was completed. */
    ghost var finished: seq<Ref>
    ghost var all: set<CompiledModule>

    constructor ()
      ensures compiled == map[] && globalProviders == [] && finished == [] && all == {}
    {
      compiled, globalProviders, finished, all := map[], [], [], {};
    }

    ghost predicate Valid(p: Program)
      requires WellFormed(p)
      reads this, all`imports, all`providers
    {
      && Table(p, compiled, finished, all) && Links(p, compiled, finished, all)
      && ProviderLists(p, compiled, finished, all, {})
      && globalProviders == GlobalsOf(p, finished)
    }

    lemma {:induction false} ValidFacts(p: Program, ref: Ref)
      requires WellFormed(p) && Valid(p) && ref in compiled
      ensures (forall r | r in finished :: r in compiled) && ref in Refs(p) && ResolveModule(p, ref).Some?
      ensures compiled[ref].ref == ref && compiled[ref].providers == Listed(Lists(p, finished), ref)
    {
      hide Lists, GlobalsOf, ImportsOf, Linked, Links;
    }

    lemma AllFinished(p: Program)
      requires WellFormed(p) && Valid(p) && Elements(finished) == compiled.Keys
      ensures Whole(p, compiled, all)
    {
      hide Lists, GlobalsOf, ImportsOf, ProviderLists, Linked;
      forall r | r in compiled
        ensures r in finished
      {
        assert r in Elements(finished);
      }
    }

    /** Remembers a new module before its imports are compiled. */
    method Meet(p: Program, ref: Ref, d: Declaration) returns (m: CompiledModule)
      requires WellFormed(p) && Valid(p) && ref in Refs(p) && ref !in compiled && ResolveModule(p, ref) == Some(d)
      modifies this
      ensures Valid(p) && compiled == old(compiled)[ref := m] && m.ref == ref && m.imports == []
      ensures finished == old(finished) && ref !in finished && fresh(m) && all == old(all) + {m}
      ensures Extends(old(compiled), compiled)
    {
      hide Dfs, Lists, GlobalsOf, ImportsOf, Linked, Table, Links, ProviderLists, Extends, IsOf, WellFormed, Listed,
        Refs, ResolveModule;
      m := new CompiledModule(ref, d);
      IsOfNew(p, m, ref);
      AddModule(p, compiled, finished, all, m);
      compiled := compiled[ref := m];
      all := all + {m};
    }

    method AddImport(p: Program, m: CompiledModule, x: CompiledModule)
      requires WellFormed(p) && Valid(p) && m.ref in compiled && compiled[m.ref] == m && m.ref !in finished
      modifies m`imports
      ensures Valid(p) && m.imports == old(m.imports) + [x]
    {
      hide Lists, GlobalsOf, ImportsOf, Linked, Table, ProviderLists, IsOf, WellFormed, Listed;
      TableFacts(p, compiled, finished, all);
      m.imports := m.imports + [x];
    }

    /** The module is complete: its providers follow those of its imports, and a global module
        shares its own. */
    method Finish(p: Program, m: CompiledModule, imported: seq<Provider>, d: Declaration)
      requires WellFormed(p) && Valid(p) && m.ref in compiled && compiled[m.ref] == m && m.ref !in finished
      requires m.ref in Refs(p) && ResolveModule(p, m.ref) == Some(d)
      requires Linked(compiled, m.imports, ImportsOf(p)[m.ref], |ImportsOf(p)[m.ref]|)
      requires imported == Imported(Lists(p, finished), ImportsOf(p)[m.ref])
      modifies `globalProviders, `finished, m`providers
      ensures Valid(p) && finished == old(finished) + [m.ref]
    {
      hide Lists, GlobalsOf, ImportsOf, Linked, Table, Links, IsOf, WellFormed, Listed, Imported;
      TableFacts(p, compiled, finished, all);
      m.providers := imported + d.metadata.providers;
      FinishModule(p, compiled, finished, all, m);
      if d.isGlobal {
        globalProviders := globalProviders + d.metadata.providers;
      }
      finished := finished + [m.ref];
    }

    /** Compiles `ref` and all its imports, depth first. Fails exactly when a class that is not a
        module is met. */
    method Compile(p: Program, ref: Ref) returns (r: Option<CompiledModule>)
      requires WellFormed(p) && Valid(p) && ref in Refs(p)
      modifies this
      ensures r.Some? ==> Valid(p) && Extends(old(compiled), compiled) && ref in compiled && r.value == compiled[ref]
      ensures r.Some? ==>
                var d := Dfs(ImportsOf(p), [ref], old(compiled).Keys);
                compiled.Keys == d.0 && finished == old(finished) + d.1
      ensures r.None? ==> Fails(p, ref)
      decreases Unmet(p, compiled.Keys), 0
    {
      hide Unmet, Dfs, Lists, GlobalsOf, ImportsOf, Reaches, Closed, Imported, Fails, Linked, Valid, Extends,
        WellFormed, Refs, ResolveModule, Known;
      if ref in compiled {
        AlreadySeen(p, ref, compiled.Keys);
        LinkedNone(compiled, []);
        assert finished == finished + [];
        return Some(compiled[ref]);
      }
      KnownRef(p, ref);
      var declaration := ResolveModule(p, ref);
      if declaration.None? {
        SelfFails(p, ref);
        return None;
      }
      MeetOne(p, ref, compiled.Keys);
      ghost var seen := compiled.Keys;
      var m := Meet(p, ref, declaration.value);
      ghost var met := compiled;
      assert met.Keys == seen + {ref};
      var imported := CompileImports(p, m, declaration.value.metadata.imports);
      if imported.None? {
        return None;
      }
      ExtendsMore(old(compiled), met, compiled);
      VisitedOne(p, ref, seen, compiled.Keys);
      ghost var out := Dfs(ImportsOf(p), ImportsOf(p)[ref], seen + {ref}).1;
      ConcatAssociative(old(finished), out, [ref]);
      Finish(p, m, imported.value, declaration.value);
      r := Some(m);
    }

    /** Compiles the imports of `m` one after another, adding each to `m`; the result collects their
        provider lists. */
    method CompileImports(p: Program, m: CompiledModule, rs: seq<Ref>) returns (imported: Option<seq<Provider>>)
      requires WellFormed(p) && Valid(p) && m.ref in compiled && compiled[m.ref] == m && m.ref !in finished
      requires m.imports == [] && rs == ImportsOf(p)[m.ref]
      modifies this, m`imports
      ensures imported.Some? ==>
                && Valid(p) && Extends(old(compiled), compiled) && m.ref !in finished
                && Linked(compiled, m.imports, rs, |rs|)
      ensures imported.Some? ==>
                && imported.value == Imported(Lists(p, finished), rs)
                && (forall r | r in rs :: r in Refs(p))
                && var d := Dfs(ImportsOf(p), rs, old(compiled).Keys);
                   compiled.Keys == d.0 && finished == old(finished) + d.1
      ensures imported.None? ==> Fails(p, m.ref)
      decreases Unmet(p, compiled.Keys), 1
    {
      hide Unmet, Dfs, Lists, GlobalsOf, ImportsOf, Reaches, Closed, Imported, Fails, Visiting, Linked, Valid,
        Extends, WellFormed, Refs, Listed, ResolveModule;
      var list := [];
      ghost var out: seq<Ref> := [];
      ValidFacts(p, m.ref);
      VisitBegins(p, m.ref, compiled.Keys);
      LinkedNone(compiled, rs);
      assert finished == finished + out;
      for i := 0 to |rs|
        invariant Valid(p) && Extends(old(compiled), compiled) && m.ref in compiled && compiled[m.ref] == m
                  && m.ref !in finished && old(compiled).Keys <= compiled.Keys
        invariant Linked(compiled, m.imports, rs, i) && finished == old(finished) + out
        invariant list == Imported(Lists(p, finished), rs[..i])
        invariant Visiting(p, rs, i, old(compiled).Keys, out, compiled.Keys)
      {
        ghost var before, known, met := finished, compiled, compiled.Keys;
        ValidFacts(p, m.ref);
        VisitNext(p, rs, i, old(compiled).Keys, out, met);
        FewerLeft(p, old(compiled).Keys, met);
        var x := Compile(p, rs[i]);
        if x.None? {
          ImportFails(p, m.ref, rs[i]);
          return None;
        }
        ghost var more := Dfs(ImportsOf(p), [rs[i]], met).1;
        NewlyFinished(p, rs[i], met);
        LinkedMore(known, compiled, m.imports, rs, i);
        ExtendsMore(old(compiled), known, compiled);
        ImportedStep(p, rs, i, before, more);
        ValidFacts(p, rs[i]);
        AddImport(p, m, x.value);
        list := list + x.value.providers;
        ConcatAssociative(old(finished), out, more);
        out := out + more;
      }
      assert rs[..|rs|] == rs;
      VisitEnds(p, rs, old(compiled).Keys, out, compiled.Keys);
      imported := Some(list);
    }
  }

  // ------------------------------------------------------ initialisation order

  function Names(ms: seq<CompiledModule>): seq<Ref> {
    if ms == [] then [] else Names(ms[..|ms| - 1]) + [ms[|ms| - 1].ref]
  }

  lemma {:induction false} NamesAppend(ms: seq<CompiledModule>, m: CompiledModule)
    ensures Names(ms + [m]) == Names(ms) + [m.ref]
  {
    assert (ms + [m])[..|ms + [m]| - 1] == ms;
  }

  /** Every compiled module is linked to the modules it imports. */
  ghost predicate Whole(p: Program, compiled: map<Ref, CompiledModule>, all: set<CompiledModule>)
    requires WellFormed(p)
    reads all`imports
  {
    forall r | r in compiled ::
      && r in Refs(p) && compiled[r] in all && compiled[r].ref == r
      && Linked(compiled, compiled[r].imports, ImportsOf(p)[r], |ImportsOf(p)[r]|)
  }

  lemma WholeAt(p: Program, compiled: map<Ref, CompiledModule>, all: set<CompiledModule>, m: CompiledModule)
    requires WellFormed(p) && Whole(p, compiled, all) && m.ref in compiled && compiled[m.ref] == m
    ensures m.ref in Refs(p) && |m.imports| == |ImportsOf(p)[m.ref]|
    ensures forall i | 0 <= i < |m.imports| ::
              ImportsOf(p)[m.ref][i] == m.imports[i].ref && m.imports[i].ref in compiled
                && compiled[m.imports[i].ref] == m.imports[i]
  {
    hide ImportsOf, WellFormed;
    forall i | 0 <= i < |m.imports|
      ensures ImportsOf(p)[m.ref][i] == m.imports[i].ref && m.imports[i].ref in compiled
              && compiled[m.imports[i].ref] == m.imports[i]
    {
      assert m.imports[i] == compiled[ImportsOf(p)[m.ref][i]];
    }
  }

  /** The walk behind the initialisation order: a module is added after all its imports. */
  class InitWalk {
    var visited: set<CompiledModule>
    var result: seq<CompiledModule>

    constructor ()
      ensures visited == {} && result == []
    {
      visited, result := {}, [];
    }

    method Visit(p: Program, m: CompiledModule, ghost seen: set<Ref>, ghost compiled: map<Ref, CompiledModule>,
                 ghost all: set<CompiledModule>)
      returns (ghost seen': set<Ref>)
      requires WellFormed(p) && Whole(p, compiled, all) && m.ref in compiled && compiled[m.ref] == m && m.ref in Refs(p)
      requires Tracks(compiled, visited, seen) && From(compiled, result)
      modifies this
      ensures Tracks(compiled, visited, seen') && From(compiled, result)
      ensures var d := Dfs(ImportsOf(p), [m.ref], seen);
              seen' == d.0 && Names(result) == Names(old(result)) + d.1
      decreases Unmet(p, seen)
    {
      hide Unmet, Dfs, ImportsOf, Closed, Visiting, WellFormed, Refs, Whole, Names, Tracks, From;
      seen' := seen;
      TracksAt(compiled, visited, seen, m);
      if m in visited {
        AlreadySeen(p, m.ref, seen);
        assert Names(result) == Names(result) + [];
        return;
      }
      WholeAt(p, compiled, all, m);
      MeetOne(p, m.ref, seen);
      visited := visited + {m};
      seen' := seen + {m.ref};
      ghost var before, out: seq<Ref> := Names(result), [];
      VisitBegins(p, m.ref, seen');
      assert before + out == before;
      for i := 0 to |m.imports|
        invariant Tracks(compiled, visited, seen') && seen + {m.ref} <= seen' && From(compiled, result)
        invariant Names(result) == before + out
        invariant Visiting(p, ImportsOf(p)[m.ref], i, seen + {m.ref}, out, seen')
      {
        ghost var met := seen';
        VisitNext(p, ImportsOf(p)[m.ref], i, seen + {m.ref}, out, met);
        FewerLeft(p, seen + {m.ref}, met);
        seen' := Visit(p, m.imports[i], met, compiled, all);
        SeenGrows(p, m.imports[i].ref, met);
        ghost var more := Dfs(ImportsOf(p), [m.imports[i].ref], met).1;
        ConcatAssociative(before, out, more);
        out := out + more;
      }
      VisitEnds(p, ImportsOf(p)[m.ref], seen + {m.ref}, out, seen');
      VisitedOne(p, m.ref, seen, seen');
      NamesAppend(result, m);
      FromAppend(compiled, result, m);
      ConcatAssociative(before, out, [m.ref]);
      result := result + [m];
    }
  }

  /** The modules are all compiled ones. */
  ghost predicate From(compiled: map<Ref, CompiledModule>, ms: seq<CompiledModule>) {
    forall x | x in ms :: x.ref in compiled && compiled[x.ref] == x
  }

  lemma FromAppend(compiled: map<Ref, CompiledModule>, ms: seq<CompiledModule>, m: CompiledModule)
    requires From(compiled, ms) && m.ref in compiled && compiled[m.ref] == m
    ensures From(compiled, ms + [m])
  {
  }

  lemma TracksAt(compiled: map<Ref, CompiledModule>, visited: set<CompiledModule>, seen: set<Ref>, m: CompiledModule)
    requires Tracks(compiled, visited, seen) && m.ref in compiled && compiled[m.ref] == m
    ensures m in visited <==> m.ref in seen
    ensures Tracks(compiled, visited + {m}, seen + {m.ref})
  {
  }

  lemma {:induction false} SeenGrows(p: Program, r: Ref, met: set<Ref>)
    requires WellFormed(p) && r in Refs(p)
    ensures met <= Dfs(ImportsOf(p), [r], met).0
  {
    NewlyFinished(p, r, met);
  }

  lemma {:induction false} NamesReverse(ms: seq<CompiledModule>)
    ensures Names(Reverse(ms)) == Reverse(Names(ms)) && |Names(ms)| == |ms|
  {
    NamesAt(ms);
    NamesAt(Reverse(ms));
  }

  lemma {:induction false} NamesAt(ms: seq<CompiledModule>)
    ensures |Names(ms)| == |ms| && forall i | 0 <= i < |ms| :: Names(ms)[i] == ms[i].ref
  {
    if ms != [] {
      NamesAt(ms[..|ms| - 1]);
    }
  }

  /** The modules in initialisation order, depth first from the root. */
  method GetModulesInInitOrder(root: CompiledModule, p: Program, ghost compiled: map<Ref, CompiledModule>,
                               ghost all: set<CompiledModule>)
    returns (order: seq<CompiledModule>)
    requires WellFormed(p) && Whole(p, compiled, all) && root.ref in compiled && compiled[root.ref] == root
             && root.ref in Refs(p)
    ensures Names(order) == InitOrder(ImportsOf(p), root.ref)
    ensures forall m | m in order :: m.ref in compiled && compiled[m.ref] == m
  {
    hide Dfs, ImportsOf, WellFormed, Refs, Whole;
    var walk := new InitWalk();
    assert Names([]) == [];
    ghost var seen := walk.Visit(p, root, {}, compiled, all);
    order := walk.result;
  }

  method GetModulesInDestroyOrder(root: CompiledModule, p: Program, ghost compiled: map<Ref, CompiledModule>,
                                  ghost all: set<CompiledModule>)
    returns (order: seq<CompiledModule>)
    requires WellFormed(p) && Whole(p, compiled, all) && root.ref in compiled && compiled[root.ref] == root
             && root.ref in Refs(p)
    ensures Names(order) == Reverse(InitOrder(ImportsOf(p), root.ref))
  {
    order := GetModulesInInitOrder(root, p, compiled, all);
    NamesReverse(order);
    order := Reverse(order);
  }

  /** Compiling on a fresh compiler finishes the modules in the very order in which they are later
      initialised. The global providers are those of the global modules in that order, each once,
      and every module has the provider list that order gives it. */
  method Load(p: Program, root: Ref) returns (c: ModuleCompiler, r: Option<CompiledModule>, order: seq<CompiledModule>)
    requires WellFormed(p) && root in Refs(p)
    ensures r.None? <==> Fails(p, root)
    ensures r.Some? ==>
              && c.Valid(p) && c.finished == InitOrder(ImportsOf(p), root) == Names(order)
              && c.globalProviders == GlobalsOf(p, InitOrder(ImportsOf(p), root))
              && root in c.compiled && c.compiled[root] == r.value && r.value.ref == root
              && (forall m | m in order :: m.ref in c.compiled && c.compiled[m.ref] == m)
              && forall i | 0 <= i < |order| ::
                   order[i].ref in c.finished && order[i].providers == Lists(p, c.finished)[order[i].ref]
  {
    hide Dfs, Lists, GlobalsOf, ImportsOf, Fails, Reaches, WellFormed, Refs, Names, Whole, Distinct, Elements,
      ModuleCompiler.Valid, InitOrder, Extends;
    c := new ModuleCompiler();
    order := [];
    Fresh(p, c);
    assert c.compiled.Keys == {};
    r := c.Compile(p, root);
    if r.None? {
      return;
    }
    Loaded(p, root, c, r.value);
    order := GetModulesInInitOrder(r.value, p, c.compiled, c.all);
    ListsInOrder(p, c, order);
  }

  lemma Fresh(p: Program, c: ModuleCompiler)
    requires WellFormed(p) && c.compiled == map[] && c.globalProviders == [] && c.finished == [] && c.all == {}
    ensures c.Valid(p)
  {
    hide WellFormed, ImportsOf;
  }

  lemma {:induction false} Loaded(p: Program, root: Ref, c: ModuleCompiler, m: CompiledModule)
    requires WellFormed(p) && root in Refs(p) && c.Valid(p) && root in c.compiled && c.compiled[root] == m
    requires var d := Dfs(ImportsOf(p), [root], {}); c.compiled.Keys == d.0 && c.finished == [] + d.1
    ensures c.finished == InitOrder(ImportsOf(p), root) && m.ref == root && Whole(p, c.compiled, c.all)
            && !Fails(p, root)
    ensures c.globalProviders == GlobalsOf(p, c.finished)
  {
    hide Dfs, Lists, GlobalsOf, ImportsOf, Fails, Reaches, WellFormed, Refs, Whole, Links, ProviderLists, Table;
    var d := Dfs(ImportsOf(p), [root], {});
    assert [] + d.1 == d.1;
    NewlyFinished(p, root, {});
    assert {} + Elements(d.1) == Elements(d.1);
    NothingFails(p, root, c);
    c.AllFinished(p);
    c.ValidFacts(p, root);
  }

  lemma {:induction false} ListsInOrder(p: Program, c: ModuleCompiler, order: seq<CompiledModule>)
    requires WellFormed(p) && c.Valid(p) && c.finished == Names(order)
    requires forall m | m in order :: m.ref in c.compiled && c.compiled[m.ref] == m
    ensures forall i | 0 <= i < |order| ::
              order[i].ref in c.finished && order[i].providers == Lists(p, c.finished)[order[i].ref]
  {
    hide Lists, GlobalsOf, ImportsOf, WellFormed, Refs, ModuleCompiler.Valid;
    NamesAt(order);
    forall i | 0 <= i < |order|
      ensures order[i].ref in c.finished && order[i].providers == Lists(p, c.finished)[order[i].ref]
    {
      assert Names(order)[i] in c.finished;
      c.ValidFacts(p, order[i].ref);
    }
  }

  lemma NothingFails(p: Program, root: Ref, c: ModuleCompiler)
    requires WellFormed(p) && root in Refs(p) && c.Valid(p) && c.finished == InitOrder(ImportsOf(p), root)
    ensures !Fails(p, root)
  {
    hide Dfs, Lists, GlobalsOf, ImportsOf, Reaches, Links, ProviderLists, InitOrder;
    InitOrderIsSound(ImportsOf(p), root);
    forall m | Reaches(ImportsOf(p), root, m)
      ensures m in Refs(p) && ResolveModule(p, m).Some?
    {
      c.ValidFacts(p, m);
    }
  }

  ghost predicate Tracks(compiled: map<Ref, CompiledModule>, visited: set<CompiledModule>, seen: set<Ref>) {
    forall r | r in compiled && compiled[r].ref == r :: r in seen <==> compiled[r] in visited
  }

  /** Some class that is not a module is imported from `ref`. */
  ghost predicate Fails(p: Program, ref: Ref)
    requires WellFormed(p)
  {
    exists m :: Reaches(ImportsOf(p), ref, m) && m in Refs(p) && ResolveModule(p, m).None?
  }

  lemma {:induction false} VisitNext(p: Program, rs: seq<Ref>, i: nat, start: set<Ref>, out: seq<Ref>, seen: set<Ref>)
    requires WellFormed(p) && i < |rs| && Visiting(p, rs, i, start, out, seen)
    ensures rs[i] in Refs(p)
    ensures var d := Dfs(ImportsOf(p), [rs[i]], seen); Visiting(p, rs, i + 1, start, out + d.1, d.0)
  {
    DfsStep(ImportsOf(p), rs, i, start, out, seen);
  }

  /** A module is remembered before its imports are compiled. */
  lemma MeetOne(p: Program, ref: Ref, seen: set<Ref>)
    requires WellFormed(p) && ref in Refs(p) && ref !in seen
    ensures Unmet(p, seen + {ref}) < Unmet(p, seen)
    ensures ResolveModule(p, ref).Some? ==> ImportsOf(p)[ref] == ResolveModule(p, ref).value.metadata.imports
  {
    SmallerSet(ImportsOf(p).Keys - (seen + {ref}), ImportsOf(p).Keys - seen);
  }

  lemma FewerLeft(p: Program, seen: set<Ref>, met: set<Ref>)
    requires WellFormed(p) && seen <= met
    ensures Unmet(p, met) <= Unmet(p, seen)
  {
    SubsetSize(ImportsOf(p).Keys - met, ImportsOf(p).Keys - seen);
  }

  lemma SelfFails(p: Program, ref: Ref)
    requires WellFormed(p) && ref in Refs(p) && ResolveModule(p, ref).None?
    ensures Fails(p, ref)
  {
    ModuleGraph.ReachesItself(ImportsOf(p), ref);
  }

  lemma ImportFails(p: Program, ref: Ref, x: Ref)
    requires WellFormed(p) && ref in Refs(p) && x in ImportsOf(p)[ref] && Fails(p, x)
    ensures Fails(p, ref)
  {
    var g := ImportsOf(p);
    var m :| Reaches(g, x, m) && m in Refs(p) && ResolveModule(p, m).None?;
    hide WellFormed, ImportsOf, Refs;
    ReachedThrough(g, ref, x, m);
  }

  lemma ReachedThrough(g: Imports, a: Ref, x: Ref, m: Ref)
    requires a in g && x in g[a] && Reaches(g, x, m)
    ensures Reaches(g, a, m)
  {
    var path :| Path(g, path) && path[0] == x && path[|path| - 1] == m;
    var longer := [a] + path;
    assert longer[1..] == path && longer[|longer| - 1] == m;
    assert Path(g, longer);
  }

  lemma {:induction false} NewlyFinished(p: Program, r: Ref, met: set<Ref>)
    requires WellFormed(p) && r in Refs(p)
    ensures var d := Dfs(ImportsOf(p), [r], met);
            Distinct(d.1) && (forall x | x in d.1 :: x !in met) && d.0 == met + Elements(d.1) && r in d.0
  {
    DfsCovers(ImportsOf(p), [r], met);
  }

  ghost predicate Visiting(p: Program, rs: seq<Ref>, i: nat, start: set<Ref>, out: seq<Ref>, seen: set<Ref>)
    requires WellFormed(p)
  {
    var g := ImportsOf(p);
    && i <= |rs| && (forall m | m in rs :: m in g)
    && Dfs(g, rs, start) == (Dfs(g, rs[i..], seen).0, out + Dfs(g, rs[i..], seen).1)
  }

  lemma {:induction false} AlreadySeen(p: Program, ref: Ref, seen: set<Ref>)
    requires WellFormed(p) && ref in Refs(p) && ref in seen
    ensures Dfs(ImportsOf(p), [ref], seen) == (seen, [])
  {
    assert [ref][1..] == [];
  }

  lemma {:induction false} VisitEnds(p: Program, rs: seq<Ref>, start: set<Ref>, out: seq<Ref>, seen: set<Ref>)
    requires WellFormed(p) && Visiting(p, rs, |rs|, start, out, seen)
    ensures (forall r | r in rs :: r in Refs(p)) && Dfs(ImportsOf(p), rs, start) == (seen, out)
  {
    assert rs[|rs|..] == [] && out + [] == out;
  }

  /** A module finishes right after its imports. */
  lemma {:induction false} VisitedOne(p: Program, ref: Ref, seen: set<Ref>, met: set<Ref>)
    requires WellFormed(p) && ref in Refs(p) && ref !in seen
    requires forall r | r in ImportsOf(p)[ref] :: r in Refs(p)
    requires Dfs(ImportsOf(p), ImportsOf(p)[ref], seen + {ref}).0 == met
    ensures Dfs(ImportsOf(p), [ref], seen) == (met, Dfs(ImportsOf(p), ImportsOf(p)[ref], seen + {ref}).1 + [ref])
  {
    var g := ImportsOf(p);
    var out := Dfs(g, g[ref], seen + {ref}).1;
    assert [ref][1..] == [];
    assert out + [ref] + [] == out + [ref];
  }

  lemma VisitBegins(p: Program, ref: Ref, seen: set<Ref>)
    requires WellFormed(p) && ref in Refs(p)
    ensures Visiting(p, ImportsOf(p)[ref], 0, seen, [], seen)
    ensures forall lists :: Imported(lists, ImportsOf(p)[ref][..0]) == []
  {
    var g := ImportsOf(p);
    var rs := g[ref];
    assert rs[0..] == rs;
    assert [] + Dfs(g, rs, seen).1 == Dfs(g, rs, seen).1;
  }
}
