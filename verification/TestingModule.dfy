/** Compiles a module for a test, with some of its providers replaced. */
module Testing {
  import opened Basics
  import opened InjectorGraph
  import opened ModuleGraph
  import opened ModuleCompilation
  import opened ContainerGraph
  import opened InjectorState
  import opened InjectorTheorems
  import opened Injector
  import opened Lifecycle
  import opened InjectorContexts

  // -------------------------------------------------------------- specification

  /** The decorated fields of the class that a provider instantiates. */
  function TargetFields(p: Provider): seq<Dependency> {
    match p
    case Shorthand(cls) => cls.fields
    case ClassProvider(_, useClass) => useClass.fields
    case _ => []
  }

  function FieldTokens(fields: seq<Dependency>): seq<Token> {
    if fields == [] then [] else FieldTokens(fields[..|fields| - 1]) + [fields[|fields| - 1].token]
  }

  /** The direct dependencies of the given providers, in order. */
  function Dependencies(ps: seq<Provider>): seq<Token> {
    if ps == [] then [] else Dependencies(ps[..|ps| - 1]) + FieldTokens(TargetFields(ps[|ps| - 1]))
  }

  function Undeclared(declared: seq<Token>, ts: seq<Token>): seq<Token> {
    if ts == [] then [] else
      Undeclared(declared, ts[..|ts| - 1]) + if ts[|ts| - 1] in declared then [] else [ts[|ts| - 1]]
  }

  lemma {:induction false} UndeclaredMembers(declared: seq<Token>, ts: seq<Token>)
    ensures forall t :: t in Undeclared(declared, ts) <==> t in ts && t !in declared
  {
    if ts != [] {
      UndeclaredMembers(declared, ts[..|ts| - 1]);
      assert ts == ts[..|ts| - 1] + [ts[|ts| - 1]];
    }
  }

  /** The tokens to be mocked: what the original providers depend on and none of them provides. */
  function ToMock(original: seq<Provider>): seq<Token> {
    Unique(Undeclared(Tokens(original), Dependencies(original)))
  }

  lemma {:induction false} MockedOnce(original: seq<Provider>)
    ensures Distinct(ToMock(original))
    ensures forall t :: t in ToMock(original) <==> t in Dependencies(original) && t !in Tokens(original)
  {
    UndeclaredMembers(Tokens(original), Dependencies(original));
    UniqueIsSet(Undeclared(Tokens(original), Dependencies(original)));
  }

  /** The provider instantiates a class with a decorated field for the token. */
  ghost predicate Injects(p: Provider, t: Token) {
    match p
    case Shorthand(cls) => exists i :: 0 <= i < |cls.fields| && cls.fields[i].token == t
    case ClassProvider(_, cls) => exists i :: 0 <= i < |cls.fields| && cls.fields[i].token == t
    case _ => false
  }

  /** A mock is made for exactly the tokens that some original provider injects into a field and none provides. */
  lemma {:induction false} MockedWhenInjected(original: seq<Provider>)
    ensures forall t :: t in ToMock(original) <==>
              && (exists i :: 0 <= i < |original| && Injects(original[i], t))
              && (forall i | 0 <= i < |original| :: ProviderToken(original[i]) != t)
  {
    hide Injects;
    MockedOnce(original);
    forall t
      ensures t in Dependencies(original) <==> exists i :: 0 <= i < |original| && Injects(original[i], t)
      ensures t in Tokens(original) <==> exists i :: 0 <= i < |original| && ProviderToken(original[i]) == t
    {
      DependenciesAre(original, t);
      InTokens(original, t);
    }
  }

  lemma {:induction false} DependenciesAre(ps: seq<Provider>, t: Token)
    ensures t in Dependencies(ps) <==> exists i :: 0 <= i < |ps| && Injects(ps[i], t)
  {
    hide Injects;
    if ps != [] {
      var front, p := ps[..|ps| - 1], ps[|ps| - 1];
      DependenciesAre(front, t);
      FieldTokensAre(TargetFields(p), t);
      InjectsFields(p, t);
      assert forall i | 0 <= i < |front| :: front[i] == ps[i];
    }
  }

  lemma {:induction false} FieldTokensAre(fields: seq<Dependency>, t: Token)
    ensures t in FieldTokens(fields) <==> exists i :: 0 <= i < |fields| && fields[i].token == t
  {
    if fields != [] {
      var front := fields[..|fields| - 1];
      FieldTokensAre(front, t);
      assert forall i | 0 <= i < |front| :: front[i] == fields[i];
    }
  }

  lemma InjectsFields(p: Provider, t: Token)
    ensures Injects(p, t) <==> exists i :: 0 <= i < |TargetFields(p)| && TargetFields(p)[i].token == t
  {
    match p
    case Shorthand(cls) => assert TargetFields(p) == cls.fields;
    case ClassProvider(_, cls) => assert TargetFields(p) == cls.fields;
    case ValueProvider(_, _) => assert TargetFields(p) == [];
    case FactoryProvider(_, _, _, _, _) => assert TargetFields(p) == [];
    case ExistingProvider(_, _) => assert TargetFields(p) == [];
  }

  function Mocks(mocker: Token -> Value, ts: seq<Token>): seq<Provider> {
    if ts == [] then [] else Mocks(mocker, ts[..|ts| - 1]) + [ValueProvider(ts[|ts| - 1], mocker(ts[|ts| - 1]))]
  }

  lemma {:induction false} LastMock(mocker: Token -> Value, ts: seq<Token>, t: Token)
    ensures LastFor(Mocks(mocker, ts), t) == if t in ts then Some(ValueProvider(t, mocker(t))) else None
  {
    if ts != [] {
      var front := ts[..|ts| - 1];
      LastMock(mocker, front, t);
      assert ts == front + [ts[|ts| - 1]];
      assert Mocks(mocker, ts)[..|Mocks(mocker, ts)| - 1] == Mocks(mocker, front);
    }
  }

  /** Which provider of a token a testing module uses. */
  function Effective(original: seq<Provider>, mocker: Option<Token -> Value>, overrides: seq<Provider>,
                     t: Token): Option<Provider> {
    var overridden := LastFor(overrides, t);
    if overridden.Some? then overridden
    else if mocker.Some? && t in ToMock(original) then Some(ValueProvider(t, mocker.value(t)))
    else LastFor(original, t)
  }

  /** The last override wins, then a mock, then the last original provider. A mock is made only for a direct
      dependency that no original provider provides, and never twice. */
  lemma {:induction false} Precedence(original: seq<Provider>, mocker: Option<Token -> Value>,
                                      overrides: seq<Provider>, t: Token)
    ensures var mocked := if mocker.Some? then Mocks(mocker.value, ToMock(original)) else [];
            LastFor(original + mocked + overrides, t) == Effective(original, mocker, overrides, t)
  {
    var mocked := if mocker.Some? then Mocks(mocker.value, ToMock(original)) else [];
    LastForJoin(original + mocked, overrides, t);
    LastForJoin(original, mocked, t);
    if mocker.Some? {
      LastMock(mocker.value, ToMock(original), t);
    }
  }

  function Providers(original: seq<Provider>, mocker: Option<Token -> Value>, overrides: seq<Provider>): seq<Provider> {
    original + (if mocker.Some? then Mocks(mocker.value, ToMock(original)) else []) + overrides
  }

  /** The program with a testing module added: a dynamic module of an undecorated class. */
  function TestProgram(p: Program, cls: nat, instance: nat, imports: seq<Ref>, providers: seq<Provider>): Program {
    p.(dynamics := p.dynamics[instance := Dynamic(cls, Metadata(imports, providers, []), None)])
  }

  /** The container of the testing module registers, for every token of an original provider, a mock or an
      override, exactly the effective provider, whatever its imports provide. */
  lemma TestingRegisters(plan: Plan, p: Program, cls: nat, instance: nat, imports: seq<Ref>, original: seq<Provider>,
                         mocker: Option<Token -> Value>, overrides: seq<Provider>, t: Token)
    requires Buildable(plan) && plan.root == DynamicModule(instance) && plan.root in Order(plan)
    requires plan.p == TestProgram(p, cls, instance, imports, Providers(original, mocker, overrides))
    requires cls in p.classes && p.classes[cls].metadata.None?
    requires Effective(original, mocker, overrides, t).Some?
    ensures t in TableOf(plan, plan.root)
            && TableOf(plan, plan.root)[t] == Normalize(Effective(original, mocker, overrides, t).value)
  {
    hide Order, Buildable, TableOf, Effective, Providers, OwnTable, ResolveModule, OwnTokens, WellFormed, Refs;
    BuildableFacts(plan);
    var imported := ModuleRegisters(plan, plan.root);
    var all := Providers(original, mocker, overrides);
    TestDeclaration(p, cls, instance, imports, all);
    Precedence(original, mocker, overrides, t);
    Spelled(original, mocker, overrides);
    OwnChoice(plan.p, imported, ResolveModule(plan.p, plan.root).value, t);
  }

  lemma TestDeclaration(p: Program, cls: nat, instance: nat, imports: seq<Ref>, all: seq<Provider>)
    requires cls in p.classes && p.classes[cls].metadata.None?
    ensures var q, r := TestProgram(p, cls, instance, imports, all), DynamicModule(instance);
            && Known(q, r) && ResolveModule(q, r).Some? && ResolveModule(q, r).value.metadata.providers == all
            && ClassOf(q, r) == cls
  {
    assert [] + all == all;
  }

  lemma {:induction false} OwnChoice(p: Program, imported: seq<Provider>, d: Declaration, t: Token)
    requires LastFor(d.metadata.providers, t).Some?
    ensures var table := OwnTable(p, imported + d.metadata.providers, OwnTokens(d));
            t in table && table[t] == Normalize(LastFor(d.metadata.providers, t).value)
  {
    hide Normalize;
    LastForFinds(d.metadata.providers, t);
    InTokens(d.metadata.providers, t);
    LastForJoin(imported, d.metadata.providers, t);
    UniqueIsSet(Tokens(d.metadata.providers) + [ClassToken(d.cls)]);
  }

  lemma Spelled(original: seq<Provider>, mocker: Option<Token -> Value>, overrides: seq<Provider>)
    ensures Providers(original, mocker, overrides) == original
              + (if mocker.Some? then Mocks(mocker.value, ToMock(original)) else []) + overrides
  {
  }

  /** For every token that has one, the effective provider is registered. */
  ghost predicate Uses(providers: map<Token, Normalized>, original: seq<Provider>, mocker: Option<Token -> Value>,
                       overrides: seq<Provider>) {
    forall t | Effective(original, mocker, overrides, t).Some? ::
      t in providers && providers[t] == Normalize(Effective(original, mocker, overrides, t).value)
  }

  /** The graph of a created testing module. */
  lemma TestingGraph(plan: Plan, p: Program, cls: nat, instance: nat, imports: seq<Ref>, original: seq<Provider>,
                     mocker: Option<Token -> Value>, overrides: seq<Provider>)
    requires Buildable(plan) && plan.root == DynamicModule(instance) && plan.root in Order(plan)
    requires plan.p == TestProgram(p, cls, instance, imports, Providers(original, mocker, overrides))
    requires cls in p.classes && p.classes[cls].metadata.None?
    ensures ContainerId(plan.root) in GraphOf(plan)
    ensures Uses(GraphOf(plan)[ContainerId(plan.root)].providers, original, mocker, overrides)
  {
    hide Buildable, Order, GraphFrom, Effective, Normalize, Providers, Refs, BuildOne, Sane, TableOf, ContainerId;
    BuiltIsSane(plan);
    GraphAt(plan, Built(plan), plan.root);
    forall t | Effective(original, mocker, overrides, t).Some?
      ensures t in TableOf(plan, plan.root)
              && TableOf(plan, plan.root)[t] == Normalize(Effective(original, mocker, overrides, t).value)
    {
      TestingRegisters(plan, p, cls, instance, imports, original, mocker, overrides, t);
    }
  }

  // -------------------------------------------------------------------- builder

  class TestingModuleBuilder {
    const metadata: Metadata
    var overrides: seq<Provider>
    var mocker: Option<Token -> Value>

    constructor (metadata: Metadata)
      ensures this.metadata == metadata && overrides == [] && mocker == None
    {
      this.metadata := metadata;
      overrides, mocker := [], None;
    }

    method OverrideWithValue(token: Token, value: Value)
      modifies `overrides
      ensures overrides == old(overrides) + [ValueProvider(token, value)]
    {
      overrides := overrides + [ValueProvider(token, value)];
    }

    method OverrideWithClass(token: Token, cls: ClassInfo)
      modifies `overrides
      ensures overrides == old(overrides) + [ClassProvider(token, cls)]
    {
      overrides := overrides + [ClassProvider(token, cls)];
    }

    method OverrideWithFactory(token: Token, factory: nat, inject: seq<Token>, tokenMode: Option<Mode>)
      modifies `overrides
      ensures overrides == old(overrides) + [FactoryProvider(token, factory, inject, None, tokenMode)]
    {
      overrides := overrides + [FactoryProvider(token, factory, inject, None, tokenMode)];
    }

    method UseMocker(factory: Token -> Value)
      modifies `mocker
      ensures mocker == Some(factory)
    {
      mocker := Some(factory);
    }

    method BuildMockedProviders(originalProviders: seq<Provider>) returns (mocked: seq<Provider>)
      requires mocker.Some?
      ensures mocked == Mocks(mocker.value, ToMock(originalProviders))
    {
      ghost var own := Tokens(originalProviders);
      var declared := Elements(Tokens(originalProviders));
      mocked := [];
      ghost var met: seq<Token> := [];
      for i := 0 to |originalProviders|
        invariant met == Undeclared(own, Dependencies(originalProviders[..i]))
        invariant mocked == Mocks(mocker.value, Unique(met)) && declared == Elements(own) + Elements(Unique(met))
      {
        var fields := TargetFields(originalProviders[i]);
        ghost var before := Dependencies(originalProviders[..i]);
        assert originalProviders[..i + 1][..i] == originalProviders[..i];
        assert before + FieldTokens(fields[..0]) == before;
        for j := 0 to |fields|
          invariant met == Undeclared(own, before + FieldTokens(fields[..j]))
          invariant mocked == Mocks(mocker.value, Unique(met)) && declared == Elements(own) + Elements(Unique(met))
        {
          var token := fields[j].token;
          NextDependency(own, before, fields, j);
          if token !in declared {
            NewMock(mocker.value, met, token);
            declared := declared + {token};
            mocked := mocked + [ValueProvider(token, mocker.value(token))];
            met := met + [token];
          } else if token !in own {
            KnownMock(met, token);
            met := met + [token];
          }
        }
        assert fields[..|fields|] == fields;
      }
      assert originalProviders[..|originalProviders|] == originalProviders;
    }

    /** Compiles the testing module as the root of an application. */
    method Compile(p: Program, cls: nat, instance: nat, host: Host, hooks: Hooks, ghost plan: Plan)
      returns (r: Creation, ghost g: Graph, ghost worlds: seq<World>, ghost steps: seq<Step>, ghost all: set<Container>)
      requires cls in p.classes && p.classes[cls].metadata.None? && instance !in p.dynamics
      requires Workable(plan) && plan.root == DynamicModule(instance) && plan.useGlobals && host.Fresh()
      requires plan.p == TestProgram(p, cls, instance, metadata.imports,
                                     Providers(metadata.providers, mocker, overrides))
      modifies host, hooks
      ensures r.NotAModule? <==> Fails(plan.p, plan.root)
      ensures r.Created? ==>
                && Dag(g) && Progress(g, worlds, steps) && r.context.Valid(host, all, g, worlds[|worlds| - 1])
                && Uses(r.context.container.providers, metadata.providers, mocker, overrides)
    {
      hide Buildable, Workable, Order, GraphOf, NodeOf, Effective, Normalize, Dag, Progress, Providers, Mocks,
        ToMock, InjectorContext.Valid, Selected, Invoked, Requests, Wanted, Blames, Names, TestProgram, Unique,
        Answers, Fails, Blank, ContainerId, HomeOf, Initialised, AsDeclared, Uses;
      var mocked := [];
      if mocker.Some? {
        mocked := BuildMockedProviders(metadata.providers);
      }
      var providers := metadata.providers + mocked + overrides;
      assert providers == Providers(metadata.providers, mocker,
                                    overrides) by { Spelled(metadata.providers, mocker, overrides); }
      var modules;
      r, modules, all, worlds, steps := Create(TestProgram(p, cls, instance, metadata.imports, providers),
                                               DynamicModule(instance), true, host, hooks, plan);
      g := map[];
      if r.Created? {
        g := GraphOf(plan);
        SomeWorld(g, worlds, steps);
        r.context.ContainerFacts(host, all, g, worlds[|worlds| - 1]);
        TestingGraph(plan, p, cls, instance, metadata.imports, metadata.providers, mocker, overrides);
      }
    }
  }

  lemma {:induction false} NextDependency(own: seq<Token>, before: seq<Token>, fields: seq<Dependency>, j: nat)
    requires j < |fields|
    ensures Undeclared(own, before + FieldTokens(fields[..j + 1]))
         == Undeclared(own, before + FieldTokens(fields[..j])) + if fields[j].token in own then []
             else [fields[j].token]
  {
    assert fields[..j + 1][..j] == fields[..j];
    var next := before + FieldTokens(fields[..j + 1]);
    assert next == (before + FieldTokens(fields[..j])) + [fields[j].token];
    assert next[..|next| - 1] == before + FieldTokens(fields[..j]);
  }

  lemma {:induction false} NewMock(mocker: Token -> Value, met: seq<Token>, token: Token)
    requires token !in Unique(met)
    ensures Mocks(mocker, Unique(met + [token])) == Mocks(mocker, Unique(met)) + [ValueProvider(token, mocker(token))]
    ensures Elements(Unique(met + [token])) == Elements(Unique(met)) + {token}
  {
    hide Unique, Elements;
    UniqueOne(met, token);
    var u := Unique(met);
    assert (u + [token])[..|u|] == u;
    ElementsOne(u, token);
  }

  lemma {:induction false} KnownMock(met: seq<Token>, token: Token)
    requires token in Unique(met)
    ensures Unique(met + [token]) == Unique(met)
  {
    UniqueOne(met, token);
  }
}
