/** Small applications in which the less expected answers of the injector come about. */
module InjectorExamples {
  import opened Basics
  import opened InjectorGraph
  import opened InjectorState
  import opened InjectorResolution
  import opened InjectorTheorems
  import opened Injector
  import opened ContainerGraph
  import opened Lifecycle

  const T := NameToken("T")
  const U := NameToken("U")
  const X := NameToken("X")

  function Needing(t: Token): Dependency {
    Dependency(t, false, None)
  }

  /** Application code that never throws; the instance of a class is named after it. */
  function Obliging(n: nat, call: Foreign): Reply {
    match call
    case New(cls) => Returns(cls)
    case _ => Returns(0)
  }

  ghost predicate Obliged(log: seq<Event>) {
    forall i | 0 <= i < |log| && log[i].Called? :: log[i].reply == Obliging(i, log[i].call)
  }

  /** Without cycles, inside a request and with such code, only a missing token can be reported. */
  lemma OnlyNotFound(g: Graph, before: World, after: World, r: Outcome, rank: Id -> Token -> nat)
    requires Explained(g, before, after, true, r) && Obliged(after.log) && forall c | c in g ::
               Ranked(g[c].providers, rank(c))
    ensures r.Ok? || NotFound(r)
  {
    hide Ranked;
    AcyclicNeverCircular(g, before, after, true, r, rank);
  }

  /** A token that one location has all requirements for is found. */
  lemma {:induction false} NotAllMissing(g: Graph, before: World, after: World, c: Id, t: Token,
                                         context: Option<string>, request: Option<map<Token, Value>>, r: Outcome,
                                         k: nat, e: Id)
    requires Dag(g) && c in g && before.cells.Keys == after.cells.Keys == g.Keys
             && Resolved(g, before, after, c, t, context, request, r, k)
    requires e in Locations(g, c, t) && !MissingAt(g, e, t)
    ensures !NotFound(r)
  {
    hide Dag, Locations, Answered, MissingAt, Tried;
    if NotFound(r) {
      TriedIsMissing(g, after, e, t);
    }
  }

  /** What such code constructs. */
  lemma ConstructedValue(g: Graph, w: World, c: Id, p: Normalized, v: Value)
    requires Dag(g) && c in g && Made(g, w, c, p, v) && p.recipe.Construct? && Obliged(w.log)
    ensures v == p.recipe.cls
  {
    hide Dag, Filled;
  }

  lemma {:induction false} RegisterOne(m: map<Token, Normalized>, p: Provider)
    ensures Registered(m, [p]) == m[ProviderToken(p) := Normalize(p)]
  {
    assert [p][1..] == [];
  }

  /** What a container holds for a token that is not request-scoped, its provider made. */
  lemma HeldIsMade(g: Graph, w: World, e: Id, t: Token, v: Value)
    requires Live(g, w) && Dag(g) && HeldAt(g, w, e, t, v) && g[e].providers[t].mode != Request
    ensures Made(g, w, e, g[e].providers[t], v)
  {
    hide Dag, Made, Sound, Unstuck, Attested;
    var i :| 0 <= i < |w.cells[e].builds| && i < |w.cells[e].instances| && w.cells[e].builds[i] == t
      && w.cells[e].instances[i] == v;
    assert Accounted(g, w, e, w.cells[e], i);
  }

  // ------------------------------------------------------- the mode of the wrong provider

  /** Container 2 imports container 1, which exports T but lacks what its provider of T requires. The
      global container 0 has a value for T. */
  ghost function Lacking(): Graph {
    map[0 := Node(map[T := Normalized(T, Singleton, Give(7))], [], {}, None, 0),
        1 := Node(map[T := Normalized(T, Transient, Construct(1, [Needing(U)]))], [], {T}, Some(0), 1),
        2 := Node(map[], [1], {}, Some(0), 2)]
  }

  lemma LackingIsDag()
    ensures Dag(Lacking())
  {
    hide Dag, NodeFits;
    assert NodeFits(Lacking(), 0) && NodeFits(Lacking(), 1) && NodeFits(Lacking(), 2) by { LackingFits(); }
    FitIsDag(Lacking());
  }

  /** No container provides anything to requests. */
  lemma {:induction false} LackingIsSettled()
    requires Dag(Lacking())
    ensures Settled(Lacking(), 2, T)
  {
    hide Dag, Locations, MissingAt;
    forall t, c
      ensures !RequestScoped(Lacking(), c, t)
    {
      assert c in Lacking() ==> c == 0 || c == 1 || c == 2;
    }
    UniformIsSettled(Lacking(), 2, T);
  }

  lemma LackingFits()
    ensures NodeFits(Lacking(), 0) && NodeFits(Lacking(), 1) && NodeFits(Lacking(), 2)
  {
  }

  lemma {:induction false} LackingLocations()
    requires Dag(Lacking())
    ensures Locations(Lacking(), 2, T) == [1, 0] && Locations(Lacking(), 1, U) == []
  {
    hide Dag;
    var g := Lacking();
    assert Locations(g, 1, T) == [1];
    assert ChildLocations(g, 2, T, 1) == [];
    assert ChildLocations(g, 2, T, 0) == [1];
    assert ChildLocations(g, 1, U, 0) == [];
  }

  lemma {:induction false} LackingMisses()
    requires Dag(Lacking()) && Locations(Lacking(), 1, U) == []
    ensures MissingAt(Lacking(), 1, T) && !MissingAt(Lacking(), 0, T)
  {
    hide Dag, Locations, LacksAt;
    var g := Lacking();
    assert Lacks(g, 1, 1, U);
    assert g[1].providers[T].recipe.fields[0].token == U;
    assert Requires(g[1].providers[T], U);
  }

  lemma {:induction false} LackingMode()
    requires Dag(Lacking()) && Locations(Lacking(), 2, T) == [1, 0]
    ensures FirstMode(Lacking(), 2, T) == Some(Transient)
    ensures 0 in Lacking() && 2 in Lacking() && T in Lacking()[0].providers
    ensures Lacking()[0].providers[T] == Normalized(T, Singleton, Give(7))
  {
    hide Dag, Locations;
  }

  /** Of two locations the first lacks something and the second gives a fixed value. */
  lemma {:induction false} SecondAnswers(g: Graph, before: World, after: World, c: Id, t: Token,
                                         context: Option<string>, request: Option<map<Token, Value>>, r: Outcome,
                                         k: nat)
    requires Live(g, before) && Live(g, after) && Dag(g) && c in g && Settled(g, c, t) && |Locations(g, c, t)| == 2
    requires MissingAt(g, Locations(g, c, t)[0], t) && !MissingAt(g, Locations(g, c, t)[1], t)
    requires Resolved(g, before, after, c, t, context, request, r, k)
    ensures !NotFound(r) && Locations(g, c, t)[1] in Locations(g, c, t)
    ensures r.Ok? ==> k == 1
    ensures r.Ok? ==> var e := Locations(g, c, t)[1];
                      e in g && t in g[e].providers
                        && (g[e].providers[t].mode != Request ==> Made(g, after, e, g[e].providers[t], r.value))
  {
    hide Dag, Settled, Locations, Live, MissingAt, Delivered, Made, Tried;
    LiveDag(g, before);
    LiveDag(g, after);
    var e := Locations(g, c, t)[1];
    assert e in Locations(g, c, t);
    if PassedOver(g, before, after, e, t) {
      TriedIsMissing(g, after, e, t);
    }
    if r.Ok? {
      AnswererIsFixed(g, before, after, c, t, context, request, r, k);
      if g[e].providers[t].mode != Request {
        HeldIsMade(g, after, e, t, r.value);
      }
    }
  }

  /** The look-up says that T is transient in container 2, and every answer is the global singleton. */
  lemma {:induction false} ModeMisleads(before: World, after: World, context: Option<string>,
                                        request: Option<map<Token, Value>>, r: Outcome, k: nat)
    requires Live(Lacking(), before) && Live(Lacking(), after) && Dag(Lacking())
    requires Resolved(Lacking(), before, after, 2, T, context, request, r, k)
    ensures FirstMode(Lacking(), 2, T) == Some(Transient) && !NotFound(r)
    ensures r.Ok? ==>
              && r == Ok(7) && k == 1 && Locations(Lacking(), 2, T) == [1, 0]
              && Lacking()[0].providers[T].mode == Singleton
  {
    hide Dag, Settled, Locations, Live, MissingAt, Resolved, Lacking, FirstMode;
    LackingLocations();
    LackingMisses();
    LackingIsSettled();
    LackingMode();
    SecondAnswers(Lacking(), before, after, 2, T, context, request, r, k);
  }

  // ------------------------------------------------------------------------ asking

  /** A container, its providers registered. */
  method Equipped(id: Id, exports: set<Token>, globalContainer: Container?, kids: seq<Container>, ps: seq<Provider>)
    returns (c: Container)
    ensures fresh(c) && c.id == id && c.exports == exports && c.globalContainer == globalContainer && c.children == kids
    ensures c.providers == Registered(map[], ps) && c.ToCell() == BlankCell()
  {
    c := new Container(id, exports, globalContainer);
    for i := 0 to |kids|
      invariant c.exports == exports && c.globalContainer == globalContainer && c.providers == map[]
                && c.ToCell() == BlankCell()
      invariant c.children == kids[..i]
    {
      c.AddChild(kids[i]);
    }
    c.Register(ps);
  }

  /** The containers are wired as the graph says, and nothing has been resolved yet. */
  ghost predicate Prepared(all: set<Container>, g: Graph)
    reads all
  {
    Container.Wired(all, g) && forall c | c in all :: c.ToCell() == BlankCell()
  }

  /** A run, in one request, from containers in which nothing has been resolved. */
  ghost predicate OneRequest(g: Graph, worlds: seq<World>, steps: seq<Step>) {
    && Dag(g) && Run(g, worlds, steps) && Rooms(steps) && worlds[0] == Blank(g, [])
    && forall i | 0 <= i < |steps| :: steps[i].room == Some(0) && steps[i].context == None
  }

  /** The instances of that request now. */
  ghost function Now(steps: seq<Step>): Option<map<Token, Value>> {
    if steps == [] then Some(map[]) else steps[|steps| - 1].request
  }

  /** The run has come this far. */
  ghost predicate Asking(all: set<Container>, g: Graph, host: Host, request: RequestContext, worlds: seq<World>,
                         steps: seq<Step>)
    reads all, host, request
  {
    && Container.Wired(all, g) && OneRequest(g, worlds, steps) && Container.Shows(all, host, worlds[|steps|])
    && Calmed(worlds[|steps|]) && Now(steps) == Some(request.instances) && Requested(worlds[|steps|].log, Now(steps))
    && host.behaviour == Obliging && Obliged(worlds[|steps|].log)
  }

  lemma BeginAsking(all: set<Container>, g: Graph, host: Host, request: RequestContext)
    requires Prepared(all, g) && Dag(g) && host.Fresh() && host.log == [] && host.behaviour == Obliging
             && request.instances == map[]
    ensures Asking(all, g, host, request, [Blank(g, [])], [])
  {
    hide Dag, Live;
    BlankIsLive(g, []);
  }

  /** Resolves a token in the request. */
  method Ask(c: Container, t: Token, host: Host, request: RequestContext, ghost all: set<Container>, ghost g: Graph,
             ghost worlds: seq<World>, ghost steps: seq<Step>)
    returns (r: Outcome, ghost worlds': seq<World>, ghost steps': seq<Step>)
    requires c in all && Asking(all, g, host, request, worlds, steps)
    modifies all`singletons, all`resolving, all`instances, all`builds, all`contexts, host, request
    ensures Asking(all, g, host, request, worlds', steps') && c.id in g
    ensures |worlds'| == |worlds| + 1 && worlds <= worlds' && |steps'| == |steps| + 1 && steps <= steps'
    ensures var s := steps'[|steps|]; s.c == c.id && s.token == t && s.r == r && s.cached == Now(steps)
  {
    hide Dag, Live, Container.Wired, Container.Shows, Resolved, Explained, Idle, Asked, Requested, Served, Keeps,
      Guarded, Traced, Reached, Scope, Run, Rooms, Obliged, Blank;
    AskingFacts(g, worlds, steps);
    ghost var w := worlds[|steps|];
    c.WiredHere(all, g);
    Calm(g, w, c.id, t);
    ghost var k, w';
    r, k, w' := c.Resolve(t, None, host, request, all, g, w);
    c.ShownHere(all, host, w');
    ghost var s := Step(c.id, t, None, Some(0), Now(steps), Some(request.instances), r, k);
    LiveDag(g, w');
    AskedOne(g, worlds, steps, w', s);
    TracedFacts(g, w, w', Scope(g, c.id, t), s.cached, s.request);
    HostObliged(host);
    worlds', steps' := worlds + [w'], steps + [s];
  }

  lemma HostObliged(host: Host)
    requires host.Faithful() && host.behaviour == Obliging
    ensures Obliged(host.log)
  {
  }

  lemma AskingFacts(g: Graph, worlds: seq<World>, steps: seq<Step>)
    requires OneRequest(g, worlds, steps)
    ensures |worlds| == |steps| + 1 && Live(g, worlds[|steps|]) && worlds[|steps|].cells.Keys == g.Keys
  {
    hide Stepped, Rooms;
    assert Live(g, worlds[|steps|]);
  }

  lemma AskedOne(g: Graph, worlds: seq<World>, steps: seq<Step>, w: World, s: Step)
    requires OneRequest(g, worlds, steps) && |worlds| == |steps| + 1 && Live(g, w) && s.c in g && s.room == Some(0)
             && s.context == None
    requires worlds[|steps|].cells.Keys == w.cells.Keys == g.Keys && s.request.Some? && s.cached == Now(steps)
    requires Advance(worlds[|steps|], w) && Explained(g, worlds[|steps|], w, true, s.r)
    requires Resolved(g, worlds[|steps|], w, s.c, s.token, s.context, s.request, s.r, s.k)
    requires Reached(g, worlds[|steps|], w, s.c, s.token, s.cached, s.r, s.k)
    requires Traced(g, worlds[|steps|], w, Scope(g, s.c, s.token), s.cached, s.request)
    requires Founded(g, Scope(g, s.c, s.token), Some(s.token), s.r)
    requires Calmed(worlds[|steps|])
    ensures OneRequest(g, worlds + [w], steps + [s]) && Calmed(w)
  {
    hide Live, Resolved, Explained, Reached, Traced, Scope, Dag, Keeps;
    AdvanceKeeps(worlds[|steps|], w);
    KeepsKeys(worlds[|steps|], w);
    assert Live(g, worlds[|steps|]);
    RunOne(g, worlds, steps, w, s);
    RoomsOne(steps, s);
  }

  lemma RoomsOne(steps: seq<Step>, s: Step)
    requires Rooms(steps) && s.room == Some(0) && s.cached == Now(steps)
    requires forall i | 0 <= i < |steps| :: steps[i].room == Some(0)
    ensures Rooms(steps + [s])
  {
    var more := steps + [s];
    forall i, j | 0 <= i < j < |more| && more[i].room == more[j].room && Between(more, i, j)
      ensures more[j].cached == more[i].request
    {
      assert more[i + 1].room == more[i].room;
      if j < |steps| {
        assert Between(steps, i, j);
      }
    }
  }

  /** What is known of one step of such a run. */
  lemma StepFacts(all: set<Container>, g: Graph, host: Host, request: RequestContext, worlds: seq<World>,
                  steps: seq<Step>, i: nat)
    requires Asking(all, g, host, request, worlds, steps) && i < |steps|
    ensures Dag(g) && |worlds| == |steps| + 1 && Live(g, worlds[i]) && Live(g, worlds[i + 1])
    ensures worlds[i].cells.Keys == worlds[i + 1].cells.Keys == g.Keys && worlds[0].log == []
    ensures steps[i].context == None && steps[i].request.Some? && Stepped(g, worlds[i], worlds[i + 1], steps[i])
    ensures OneRequest(g, worlds, steps) && Obliged(worlds[|steps|].log)
  {
    hide Stepped, Rooms, Dag, Resolved, Obliged;
    assert Live(g, worlds[i]) && Live(g, worlds[i + 1]) && Stepped(g, worlds[i], worlds[i + 1], steps[i]);
    LiveDag(g, worlds[i]);
    LiveDag(g, worlds[i + 1]);
    SteppedInRequest(g, worlds[i], worlds[i + 1], steps[i]);
  }

  lemma SteppedInRequest(g: Graph, before: World, after: World, s: Step)
    requires Live(g, before) && Live(g, after) && Stepped(g, before, after, s)
    ensures s.room.Some? <==> s.request.Some?
  {
    hide Resolved, Reached, Traced, Explained, Live;
  }

  /** Three containers with three names, wired as their nodes say. */
  lemma WireThree(a: Container, b: Container, c: Container, g: Graph)
    requires a.id == 0 && b.id == 1 && c.id == 2 && 0 in g && 1 in g && 2 in g
    requires a.Matches({a, b, c}, g[0]) && b.Matches({a, b, c}, g[1]) && c.Matches({a, b, c}, g[2])
    ensures Container.Wired({a, b, c}, g)
  {
  }

  lemma Fit(c: Container, all: set<Container>, node: Node)
    requires c.providers == node.providers && c.exports == node.exports && |c.children| == |node.children|
    requires forall i | 0 <= i < |c.children| :: c.children[i] in all && c.children[i].id == node.children[i]
    requires if c.globalContainer == null then node.shared == None
             else c.globalContainer in all && node.shared == Some(c.globalContainer.id)
    ensures c.Matches(all, node)
  {
  }

  method LackingContainers() returns (parent: Container, ghost all: set<Container>)
    ensures parent in all && parent.id == 2 && fresh(all) && Prepared(all, Lacking())
  {
    hide Normalize, Lacking, Container.Wired, Container.Apart, Registered, Container.ToCell, BlankCell,
      Container.Matches;
    var globalContainer := Equipped(0, {}, null, [], [ValueProvider(T, 7)]);
    var child := Equipped(1, {T}, globalContainer, [], [ClassProvider(T, ClassInfo(1, Some(Transient), [Needing(U)]))]);
    parent := Equipped(2, {}, globalContainer, [child], []);
    all := {globalContainer, child, parent};
    LackingNodes();
    Fit(globalContainer, all, Lacking()[0]);
    Fit(child, all, Lacking()[1]);
    Fit(parent, all, Lacking()[2]);
    WireThree(globalContainer, child, parent, Lacking());
  }

  lemma LackingNodes()
    ensures var g := Lacking();
            && 0 in g && g[0] == Node(Registered(map[], [ValueProvider(T, 7)]), [], {}, None, 0)
            && 1 in g && g[1] ==
                 Node(Registered(map[], [ClassProvider(T, ClassInfo(1, Some(Transient), [Needing(U)]))]), [], {T},
                      Some(0), 1)
            && 2 in g && g[2] == Node(Registered(map[], []), [1], {}, Some(0), 2)
  {
    RegisterOne(map[], ValueProvider(T, 7));
    RegisterOne(map[], ClassProvider(T, ClassInfo(1, Some(Transient), [Needing(U)])));
  }

  /** One container is asked for the mode of T and then for T: what it says first is not the mode of the provider that
      answers then. */
  method AskForMode() returns (mode: Option<Mode>, r: Outcome, ghost worlds: seq<World>, ghost steps: seq<Step>)
    ensures mode == Some(Transient) && r == Ok(7)
    ensures OneRequest(Lacking(), worlds, steps) && |steps| == 1 && steps[0].c == 2 && steps[0].token == T
            && steps[0].r == r
    ensures 2 in Lacking() && mode == FirstMode(Lacking(), 2, T)
    ensures Answerer(Lacking(), steps[0]) == Some(0) && Lacking()[0].providers[T].mode == Singleton
  {
    hide *;
    var parent;
    ghost var all;
    parent, all := LackingContainers();
    var host := new Host(Obliging);
    var request := new RequestContext();
    LackingIsDag();
    BeginAsking(all, Lacking(), host, request);
    PreparedFacts(all, Lacking());
    mode := parent.GetProviderMode(T, all, Lacking());
    r, worlds, steps := Ask(parent, T, host, request, all, Lacking(), [Blank(Lacking(), [])], []);
    StepFacts(all, Lacking(), host, request, worlds, steps, 0);
    ModeMisled(host, worlds, steps);
  }

  lemma PreparedFacts(all: set<Container>, g: Graph)
    requires Prepared(all, g)
    ensures Container.Wired(all, g)
  {
  }

  lemma ModeMisled(host: Host, worlds: seq<World>, steps: seq<Step>)
    requires Dag(Lacking()) && |worlds| == 2 && |steps| == 1 && Live(Lacking(), worlds[0]) && Live(Lacking(), worlds[1])
    requires Stepped(Lacking(), worlds[0], worlds[1], steps[0]) && steps[0].c == 2 && steps[0].token == T
             && steps[0].request.Some?
    requires Obliged(worlds[1].log)
    ensures 2 in Lacking() && FirstMode(Lacking(), 2, T) == Some(Transient) && steps[0].r == Ok(7)
    ensures Answerer(Lacking(), steps[0]) == Some(0) && 0 in Lacking() && T in Lacking()[0].providers
            && Lacking()[0].providers[T].mode == Singleton
  {
    hide Dag, Live, Locations, Resolved, Reached, Traced, Explained, FirstMode, Advance, Lacking, Scope, Obliged;
    var s := steps[0];
    LackingLocations();
    LackingMode();
    LackingIsRanked();
    ModeMisleads(worlds[0], worlds[1], s.context, s.request, s.r, s.k);
    OnlyNotFound(Lacking(), worlds[0], worlds[1], s.r, (c: Id) => (t: Token) => 0);
  }

  /** Outside requests the same container gives the same value. */
  method AskAtStart() returns (r: Outcome, ghost worlds: seq<World>, ghost steps: seq<Step>)
    ensures r == Ok(7)
    ensures Dag(Lacking()) && Progress(Lacking(), worlds, steps) && worlds[0] == Blank(Lacking(), []) && |steps| == 1
    ensures steps[0].c == 2 && steps[0].token == T && steps[0].r == r && steps[0].request == None
  {
    hide *;
    var parent;
    ghost var all;
    parent, all := LackingContainers();
    var host := new Host(Obliging);
    LackingIsDag();
    PreparedFacts(all, Lacking());
    BeginPlainly(all, Lacking(), host);
    parent.WiredHere(all, Lacking());
    ghost var w := Blank(Lacking(), []);
    AtRest(Lacking(), [w], [], 2, T);
    RequestedNothing(w.log);
    assert Container.Instances(null) == None by { NoRequest(); }
    ghost var k, w';
    r, k, w' := parent.Resolve(T, None, host, null, all, Lacking(), w);
    parent.ShownHere(all, host, w');
    ghost var s := Step(2, T, None, None, None, None, r, k);
    Progressed(Lacking(), [w], [], w', s);
    worlds, steps := [w, w'], [s];
    assert [w] + [w'] == [w, w'] && [] + [s] == [s];
    HostObliged(host);
    LackingIsHealthy();
    StartedWell(w, w', r, k);
  }

  lemma NoRequest()
    ensures Container.Instances(null) == None
  {
  }

  lemma RequestedNothing(log: seq<Event>)
    ensures Requested(log, None)
  {
  }

  lemma BeginPlainly(all: set<Container>, g: Graph, host: Host)
    requires Prepared(all, g) && Dag(g) && host.Fresh() && host.log == []
    ensures Progress(g, [Blank(g, [])], []) && Container.Shows(all, host, Blank(g, []))
    ensures Live(g, Blank(g, [])) && Blank(g, []).cells.Keys == g.Keys && Blank(g, []).log == []
  {
    hide Dag, Live;
    BlankIsLive(g, []);
  }

  lemma {:induction false} LackingIsHealthy()
    requires Dag(Lacking())
    ensures 2 in Lacking() && Healthy(Lacking(), Scope(Lacking(), 2, T), false)
  {
    hide Dag, Scope, ReachesItself;
    LackingIsRanked();
    forall d: Id, t: Token | d in Lacking()
      ensures HealthyAt(Lacking(), d, t, false)
    {
      RankedHasNoCycle(Lacking()[d].providers, (t: Token) => 0, t);
    }
  }

  lemma {:induction false} StartedWell(before: World, after: World, r: Outcome, k: nat)
    requires Dag(Lacking()) && Live(Lacking(), before) && Live(Lacking(), after) && 2 in Lacking()
    requires Resolved(Lacking(), before, after, 2, T, None, None, r, k)
    requires Explained(Lacking(), before, after, false, r)
    requires Founded(Lacking(), Scope(Lacking(), 2, T), Some(T), r)
    requires Healthy(Lacking(), Scope(Lacking(), 2, T), false) && Obliged(after.log)
    ensures r == Ok(7)
  {
    hide Dag, Live, Resolved, Lacking, Explained, Founded, Healthy, Scope;
    ModeMisleads(before, after, None, None, r, k);
    OnlyMissing(Lacking(), before, after, Scope(Lacking(), 2, T), T, false, r);
  }

  lemma LackingIsRanked()
    ensures forall c | c in Lacking() :: Ranked(Lacking()[c].providers, (t: Token) => 0)
  {
  }

  // ------------------------------------------------- two providers of one request-scoped token

  /** A required field of a constructed instance was given what its token resolved to. */
  lemma FieldOf(g: Graph, w: World, c: Id, p: Normalized, v: Value, t: Token) returns (raw: Value)
    requires Dag(g) && c in g && Made(g, w, c, p, v) && p.recipe.Construct? && p.recipe.fields == [Needing(t)]
    ensures Origin(g, w, c, t, raw) && Assigned(v, 0, raw) in w.log
  {
    hide Dag, Origin;
    assert Filled(g, w, c, p.recipe.fields[0], 0, v);
    raw :| Origin(g, w, c, t, raw) && Assigned(v, 0, raw) in w.log;
  }

  /** Containers 1 and 2 both provide T to requests. Building that of container 2 takes U of container 1,
      which is given the T of container 1. */
  ghost function Nesting(): Graph {
    map[1 := Node(map[T := Normalized(T, Request, Construct(12, [])),
                      U := Normalized(U, Transient, Construct(11, [Needing(T)]))],
                  [], {U}, None, 0),
        2 := Node(map[T := Normalized(T, Request, Construct(10, [Needing(U)]))], [1], {}, None, 1)]
  }

  lemma NestingIsDag()
    ensures Dag(Nesting())
  {
    hide Dag, NodeFits;
    assert NodeFits(Nesting(), 1) && NodeFits(Nesting(), 2) by { NestingFits(); }
    FitIsDag(Nesting());
  }

  lemma NestingFits()
    ensures NodeFits(Nesting(), 1) && NodeFits(Nesting(), 2)
  {
  }

  lemma {:induction false} NestingLocations()
    requires Dag(Nesting())
    ensures var g := Nesting();
            && Locations(g, 1, T) == [1] && Locations(g, 2, T) == [2]
            && Locations(g, 2, U) == [1] && Locations(g, 1, U) == [1]
  {
    hide Dag;
    assert ChildLocations(Nesting(), 2, U, 1) == [];
    assert ChildLocations(Nesting(), 2, U, 0) == [1];
  }

  lemma NestingNodes()
    ensures var g := Nesting(); g.Keys == {1, 2} && g[1].providers.Keys == {T, U} && g[2].providers.Keys == {T}
    ensures var g := Nesting();
            && g[1].providers[T] == Normalized(T, Request, Construct(12, []))
            && g[2].providers[T] == Normalized(T, Request, Construct(10, [Needing(U)]))
            && g[1].providers[U] == Normalized(U, Transient, Construct(11, [Needing(T)]))
  {
  }

  /** Whoever asks container 2 for T first gets the instance 10. It replaces the instance 12, which the U made on
      the way keeps. */
  lemma {:induction false} NestedIsReplaced(before: World, after: World, v: Value)
    requires Dag(Nesting()) && Live(Nesting(), after) && Obliged(after.log) && before.log == []
    requires Served(Nesting(), before, after, 2, T, Some(map[]), Ok(v))
    ensures v == 10 && Provided(2, T, 10) in after.log && Provided(1, T, 12) in after.log
    ensures Assigned(10, 0, 11) in after.log && Assigned(11, 0, 12) in after.log
            && Nested(Nesting(), before, after, 2, T)
  {
    hide Dag, Live, Made, Locations, Nesting, Constructed, Unstuck, Obliged;
    var g := Nesting();
    NestingNodes();
    NestingLocations();
    var built :| Constructed(g, before, built, after, 2, T, v);
    ConstructedFacts(g, before, built, after, 2, T, v);
    ConstructedValue(g, built, 2, g[2].providers[T], v);
    var u := FieldOf(g, built, 2, g[2].providers[T], v, U);
    HeldIsMade(g, built, 1, U, u);
    ConstructedValue(g, built, 1, g[1].providers[U], u);
    var t := FieldOf(g, built, 1, g[1].providers[U], u, T);
    var maker :| Provided(maker, T, t) in built.log;
    AttestedAt(g, built, Provided(maker, T, t));
    assert maker == 1;
    ConstructedValue(g, built, 1, g[1].providers[T], t);
    var i :| 0 <= i < |built.log| && built.log[i] == Provided(1, T, t);
    assert NestedAt(g, after.log, i, 2, T);
  }

  lemma ConstructedFacts(g: Graph, before: World, built: World, after: World, e: Id, token: Token, v: Value)
    requires Constructed(g, before, built, after, e, token, v) && before.log == [] && Obliged(after.log)
    ensures Live(g, built) && Dag(g) && e in g && token in g[e].providers && Made(g, built, e, g[e].providers[token], v)
    ensures built.log <= after.log && after.log == built.log + [Provided(e, token, v)] && Obliged(built.log)
    ensures forall x :: Provided(e, token, x) !in built.log
  {
    hide Live, Dag, Made, Unstuck;
    LiveDag(g, built);
  }

  lemma {:induction false} NestingIsComplete()
    requires Dag(Nesting())
    ensures Complete(Nesting()) && Visible(Nesting(), 2, T)
  {
    hide Dag, Nesting, Locations, Visible;
    NestingNodes();
    NestingLocations();
    VisibleIffLocated(Nesting(), 2, T);
    VisibleIffLocated(Nesting(), 2, U);
    VisibleIffLocated(Nesting(), 1, T);
    forall e, t, u | e in Nesting() && t in Nesting()[e].providers && Requires(Nesting()[e].providers[t], u)
      ensures Visible(Nesting(), e, u)
    {
      assert e == 1 || e == 2;
      assert t == T || t == U;
    }
  }

  lemma NestingIsRanked()
    ensures forall c | c in Nesting() :: Ranked(Nesting()[c].providers, (t: Token) => if t == U then 1 else 0)
  {
  }

  lemma WireTwo(a: Container, b: Container, g: Graph)
    requires a.id == 1 && b.id == 2 && 1 in g && 2 in g && a.Matches({a, b}, g[1]) && b.Matches({a, b}, g[2])
    ensures Container.Wired({a, b}, g)
  {
  }

  method NestingContainers() returns (inner: Container, outer: Container, ghost all: set<Container>)
    ensures inner in all && outer in all && inner.id == 1 && outer.id == 2
    ensures fresh(all) && Prepared(all, Nesting())
  {
    hide Normalize, Nesting, Container.Wired, Container.Apart, Registered, Container.ToCell, BlankCell,
      Container.Matches;
    inner := Equipped(1, {U}, null, [], [ClassProvider(T, ClassInfo(12, Some(Request), [])),
                                         ClassProvider(U, ClassInfo(11, Some(Transient), [Needing(T)]))]);
    outer := Equipped(2, {}, null, [inner], [ClassProvider(T, ClassInfo(10, Some(Request), [Needing(U)]))]);
    all := {inner, outer};
    NestingRegistered();
    Fit(inner, all, Nesting()[1]);
    Fit(outer, all, Nesting()[2]);
    WireTwo(inner, outer, Nesting());
  }

  lemma {:induction false} NestingRegistered()
    ensures var g := Nesting();
            && 1 in g && 2 in g
            && g[1] == Node(Registered(map[], [ClassProvider(T, ClassInfo(12, Some(Request), [])),
                                               ClassProvider(U, ClassInfo(11, Some(Transient), [Needing(T)]))]),
                            [], {U}, None, 0)
            && g[2] == Node(Registered(map[], [ClassProvider(T, ClassInfo(10, Some(Request), [Needing(U)]))]),
                            [1], {}, None, 1)
  {
    var t, u := ClassProvider(T, ClassInfo(12, Some(Request), [])),
              ClassProvider(U, ClassInfo(11, Some(Transient), [Needing(T)]));
    RegisterOne(map[], ClassProvider(T, ClassInfo(10, Some(Request), [Needing(U)])));
    assert [t, u][1..] == [u];
    RegisterOne(map[T := Normalize(t)], u);
  }

  /** Whose instance is whose. */
  lemma NestingMakers(w: World)
    requires Live(Nesting(), w) && Obliged(w.log)
    ensures forall maker, v | Provided(maker, T, v) in w.log :: (maker == 1 && v == 12) || (maker == 2 && v == 10)
  {
    hide Live, Dag, Nesting, Made, Obliged, Unstuck, Requires;
    LiveDag(Nesting(), w);
    NestingNodes();
    forall maker, v | Provided(maker, T, v) in w.log
      ensures (maker == 1 && v == 12) || (maker == 2 && v == 10)
    {
      AttestedAt(Nesting(), w, Provided(maker, T, v));
      ConstructedValue(Nesting(), w, maker, Nesting()[maker].providers[T], v);
    }
  }

  lemma {:induction false} FirstAnswer(before: World, after: World, s: Step)
    requires Dag(Nesting()) && Live(Nesting(), before) && Live(Nesting(), after) && Obliged(after.log)
             && before.log == []
    requires before.cells.Keys == after.cells.Keys == Nesting().Keys && s.c == 2 && s.token == T
             && s.cached == Some(map[]) && s.request.Some?
    requires Stepped(Nesting(), before, after, s)
    ensures s.r == Ok(10) && T in s.request.value && s.request.value[T] == 10 && Answerer(Nesting(), s) == Some(2)
    ensures Provided(1, T, 12) in after.log && Assigned(10, 0, 11) in after.log && Assigned(11, 0, 12) in after.log
  {
    hide Dag, Live, Nesting, Resolved, Explained, Served, Locations, Visible, Complete, Obliged, RequestKept,
      FirstMode, Nested, Reached, Scope, Stays, Requested, Advance;
    var g := Nesting();
    NestingNodes();
    NestingLocations();
    NestingIsComplete();
    NestingIsRanked();
    OnlyNotFound(g, before, after, s.r, (c: Id) => (t: Token) => if t == U then 1 else 0);
    CompleteIsExact(g, before, after, 2, T, s.context, s.request, s.r, s.k);
    ServedAtFirst(g, before, after, 2, T, s.cached, s.r, s.k);
    NestedIsReplaced(before, after, s.r.value);
    RequestIdentity(g, before, after, 2, T, s.context, s.cached, s.request, s.r, s.k);
  }

  /** A request-scoped token that the request holds is returned from there by the first container searched. */
  lemma {:induction false} SecondAnswer(g: Graph, before: World, after: World, s: Step, c: Id)
    requires Live(g, before) && Live(g, after) && Stepped(g, before, after, s) && Dag(g) && s.c == c && c in g
    requires s.cached.Some? && s.token in s.cached.value && RequestScoped(g, c, s.token)
    ensures after == before && s.r == Ok(s.cached.value[s.token]) && Answerer(g, s) == Some(c)
  {
    hide Live, Dag, Constructed, Traced, Explained, Advance, Scope, Answered, PassedOver;
    LiveDag(g, before);
    LiveDag(g, after);
    OwnScope(g, c, s.token);
    hide Locations;
    ServedAtFirst(g, before, after, c, s.token, s.cached, s.r, s.k);
  }

  /** One request in which the outer container is asked for T and then the inner one. Both answer with the
      instance the outer one made, though what was made within it holds another; the inner container's own
      provider is not run again. */
  method AskBoth() returns (first: Outcome, second: Outcome, ghost worlds: seq<World>, ghost steps: seq<Step>)
    ensures first == second == Ok(10)
    ensures OneRequest(Nesting(), worlds, steps) && |steps| == 2
    ensures steps[0].c == 2 && steps[0].token == T && steps[0].r == first
            && Answerer(Nesting(), steps[0]) == Some(2)
    ensures steps[1].c == 1 && steps[1].token == T && steps[1].r == second
            && Answerer(Nesting(), steps[1]) == Some(1)
    ensures Provided(1, T, 12) in worlds[1].log && Assigned(11, 0, 12) in worlds[1].log
            && Assigned(10, 0, 11) in worlds[1].log
    ensures worlds[2] == worlds[1] && forall maker, v | Provided(maker, T, v) in worlds[2].log ::
              v == 10 <==> maker == 2
  {
    hide *;
    var inner, outer;
    ghost var all;
    inner, outer, all := NestingContainers();
    var host := new Host(Obliging);
    var request := new RequestContext();
    NestingNodes();
    NestingIsDag();
    BeginAsking(all, Nesting(), host, request);
    first, worlds, steps := Ask(outer, T, host, request, all, Nesting(), [Blank(Nesting(), [])], []);
    StepFacts(all, Nesting(), host, request, worlds, steps, 0);
    NothingAsked();
    FirstAnswer(worlds[0], worlds[1], steps[0]);
    NestingMakers(worlds[1]);
    LastAsked(steps);
    second, worlds, steps := Ask(inner, T, host, request, all, Nesting(), worlds, steps);
    StepFacts(all, Nesting(), host, request, worlds, steps, 1);
    NestingScoped();
    SecondAnswer(Nesting(), worlds[1], worlds[2], steps[1], 1);
  }

  lemma NothingAsked()
    ensures Now([]) == Some(map[])
  {
  }

  lemma LastAsked(steps: seq<Step>)
    requires steps != []
    ensures Now(steps) == steps[|steps| - 1].request
  {
  }

  lemma NestingScoped()
    ensures RequestScoped(Nesting(), 1, T) && RequestScoped(Nesting(), 2, T)
  {
  }

  // ------------------------------------------------------------- a missing token that is found

  /** Containers 1 and 2 both provide T to requests, and what that of container 1 requires is nowhere. */
  ghost function Lending(): Graph {
    map[1 := Node(map[T := Normalized(T, Request, Construct(1, [Needing(U)]))], [], {}, None, 0),
        2 := Node(map[T := Normalized(T, Request, Construct(2, []))], [], {}, None, 0)]
  }

  lemma {:induction false} LendingFacts()
    ensures var g := Lending();
            && g.Keys == {1, 2} && T in g[1].providers && T in g[2].providers && g[1].providers[T].mode == Request
            && g[2].providers[T] == Normalized(T, Request, Construct(2, []))
            && g[1] == Node(Registered(map[], [ClassProvider(T, ClassInfo(1, Some(Request), [Needing(U)]))]), [], {},
                            None, 0)
            && g[2] == Node(Registered(map[], [ClassProvider(T, ClassInfo(2, Some(Request), []))]), [], {}, None, 0)
            && forall c | c in g :: Ranked(g[c].providers, (t: Token) => 0)
  {
    RegisterOne(map[], ClassProvider(T, ClassInfo(1, Some(Request), [Needing(U)])));
    RegisterOne(map[], ClassProvider(T, ClassInfo(2, Some(Request), [])));
  }

  lemma LendingIsDag()
    ensures Dag(Lending())
  {
    hide Dag, NodeFits;
    assert NodeFits(Lending(), 1) && NodeFits(Lending(), 2) by { LendingFits(); }
    FitIsDag(Lending());
  }

  lemma LendingFits()
    ensures NodeFits(Lending(), 1) && NodeFits(Lending(), 2)
  {
  }

  lemma {:induction false} LendingMisses()
    requires Dag(Lending())
    ensures 1 in Lending() && Missing(Lending(), 1, T)
    ensures 2 in Lending() && Locations(Lending(), 2, T) == [2] && !MissingAt(Lending(), 2, T)
  {
    hide Dag, LacksAt;
    var g := Lending();
    assert ChildLocations(g, 1, U, 0) == [] && Locations(g, 1, U) == [];
    assert Lacks(g, 1, 1, U);
    assert g[1].providers[T].recipe.fields[0].token == U;
    assert Requires(g[1].providers[T], U);
    assert Locations(g, 1, T) == [1];
    MissingEverywhere(g, 1, T);
  }

  lemma {:induction false} LentAnswer(before: World, after: World, s: Step)
    requires Dag(Lending()) && Live(Lending(), before) && Live(Lending(), after) && Obliged(after.log)
             && before.log == []
    requires before.cells.Keys == after.cells.Keys == Lending().Keys && s.c == 2 && s.token == T
             && s.cached == Some(map[]) && s.request.Some?
    requires Stepped(Lending(), before, after, s)
    ensures s.r == Ok(2) && T in s.request.value && s.request.value[T] == 2 && Answerer(Lending(), s) == Some(2)
  {
    hide Dag, Live, Lending, Resolved, Explained, Served, Locations, Obliged, RequestKept, FirstMode, Reached, Scope,
      Stays, Requested, Advance, MissingAt, Missing, Settled, Requires;
    var g := Lending();
    LendingFacts();
    LendingMisses();
    OnlyNotFound(g, before, after, s.r, (c: Id) => (t: Token) => 0);
    ModeAgrees(g, before, after, 2, T, s.context, s.request, s.r, s.k);
    ServedAtFirst(g, before, after, 2, T, s.cached, s.r, s.k);
    ServedValue(g, before, after, 2, T, s.r.value);
    RequestIdentity(g, before, after, 2, T, s.context, s.cached, s.request, s.r, s.k);
  }

  /** A fresh instance of a request-scoped class. */
  lemma {:induction false} ServedValue(g: Graph, before: World, after: World, c: Id, t: Token, v: Value)
    requires Served(g, before, after, c, t, Some(map[]), Ok(v)) && before.log == [] && Obliged(after.log)
    requires c in g && t in g[c].providers && g[c].providers[t].recipe.Construct?
    ensures v == g[c].providers[t].recipe.cls
  {
    hide Dag, Live, Obliged, Constructed, Made;
    var built :| Constructed(g, before, built, after, c, t, v);
    ConstructedFacts(g, before, built, after, c, t, v);
    ConstructedValue(g, built, c, g[c].providers[t], v);
  }

  method LendingContainers() returns (borrower: Container, lender: Container, ghost all: set<Container>)
    ensures borrower in all && lender in all && borrower.id == 1 && lender.id == 2
    ensures fresh(all) && Prepared(all, Lending())
  {
    hide Normalize, Lending, Container.Wired, Container.Apart, Registered, Container.ToCell, BlankCell,
      Container.Matches;
    borrower := Equipped(1, {}, null, [], [ClassProvider(T, ClassInfo(1, Some(Request), [Needing(U)]))]);
    lender := Equipped(2, {}, null, [], [ClassProvider(T, ClassInfo(2, Some(Request), []))]);
    all := {borrower, lender};
    LendingFacts();
    Fit(borrower, all, Lending()[1]);
    Fit(lender, all, Lending()[2]);
    WireTwo(borrower, lender, Lending());
  }

  /** In a request in which container 2 was asked for T before, container 1 answers with the instance of container 2,
      though T is missing in container 1. */
  method AskForMissing() returns (first: Outcome, second: Outcome, ghost worlds: seq<World>, ghost steps: seq<Step>)
    ensures first == second == Ok(2)
    ensures OneRequest(Lending(), worlds, steps) && |steps| == 2
    ensures steps[0].c == 2 && steps[0].token == T && steps[0].r == first
            && Answerer(Lending(), steps[0]) == Some(2)
    ensures steps[1].c == 1 && steps[1].token == T && steps[1].r == second
            && Answerer(Lending(), steps[1]) == Some(1)
    ensures Dag(Lending()) && 1 in Lending() && Missing(Lending(), 1, T) && !Settled(Lending(), 1, T)
  {
    hide *;
    var borrower, lender;
    ghost var all;
    borrower, lender, all := LendingContainers();
    var host := new Host(Obliging);
    var request := new RequestContext();
    LendingFacts();
    LendingIsDag();
    LendingMisses();
    BeginAsking(all, Lending(), host, request);
    first, worlds, steps := Ask(lender, T, host, request, all, Lending(), [Blank(Lending(), [])], []);
    StepFacts(all, Lending(), host, request, worlds, steps, 0);
    NothingAsked();
    LentAnswer(worlds[0], worlds[1], steps[0]);
    LastAsked(steps);
    second, worlds, steps := Ask(borrower, T, host, request, all, Lending(), worlds, steps);
    StepFacts(all, Lending(), host, request, worlds, steps, 1);
    LendingScoped();
    SecondAnswer(Lending(), worlds[1], worlds[2], steps[1], 1);
    StepParts(Lending(), worlds[1], worlds[2], steps[1]);
    NotFoundMeansMissing(Lending(), worlds[1], worlds[2], 1, T, steps[1].context, steps[1].request, steps[1].r,
                         steps[1].k);
  }

  lemma LendingScoped()
    ensures RequestScoped(Lending(), 1, T) && RequestScoped(Lending(), 2, T)
  {
  }

  // ------------------------------------------------------- an answer made by who was passed over

  /** Container 4 imports 2 and 3, which both export a T that they provide to requests. That of container 2 requires X
      of its import 1, which is given the T of container 1, and then U, which is nowhere. */
  ghost function Passing(): Graph {
    map[1 := Node(map[T := Normalized(T, Request, Construct(12, [])),
                      X := Normalized(X, Transient, Construct(11, [Needing(T)]))],
                  [], {X}, None, 0),
        2 := Node(map[T := Normalized(T, Request, Construct(20, [Needing(X), Needing(U)]))], [1], {T}, None, 1),
        3 := Node(map[T := Normalized(T, Request, Construct(13, []))], [], {T}, None, 0),
        4 := Node(map[], [2, 3], {}, None, 2)]
  }

  lemma PassingIsDag()
    ensures Dag(Passing())
  {
    hide Dag, NodeFits;
    PassingFits();
    FitIsDag(Passing());
  }

  lemma PassingFits()
    ensures forall c | c in Passing() :: NodeFits(Passing(), c)
  {
  }

  lemma PassingNodes()
    ensures var g := Passing();
            && g.Keys == {1, 2, 3, 4} && g[1].providers.Keys == {T, X} && g[2].providers.Keys == {T}
            && g[3].providers.Keys == {T}
            && g[4].providers == map[] && g[1].providers[T] == Normalized(T, Request, Construct(12, []))
            && g[1].providers[X] == Normalized(X, Transient, Construct(11, [Needing(T)]))
            && g[2].providers[T] == Normalized(T, Request, Construct(20, [Needing(X), Needing(U)]))
            && g[3].providers[T] == Normalized(T, Request, Construct(13, []))
  {
  }

  lemma {:induction false} PassingLocations()
    requires Dag(Passing())
    ensures var g := Passing();
            && g.Keys == {1, 2, 3, 4} && Locations(g, 4, T) == [2, 3] && Locations(g, 2, X) == [1]
            && Locations(g, 2, U) == []
            && Locations(g, 1, T) == [1] && Locations(g, 1, X) == [1] && Locations(g, 2, T) == [2]
            && Locations(g, 3, T) == [3]
  {
    hide Dag;
    var g := Passing();
    assert Locations(g, 2, T) == [2] && Locations(g, 3, T) == [3];
    assert ChildLocations(g, 4, T, 2) == [];
    assert ChildLocations(g, 4, T, 1) == [3];
    assert ChildLocations(g, 4, T, 0) == [2] + [3];
    assert Locations(g, 1, X) == [1];
    assert ChildLocations(g, 2, X, 1) == [] && ChildLocations(g, 2, U, 1) == [];
    assert ChildLocations(g, 2, X, 0) == [1];
    assert ChildLocations(g, 2, U, 0) == [];
  }

  /** Nothing is missing but U. */
  lemma {:induction false} PassingMisses()
    requires Dag(Passing())
    ensures 2 in Passing() && !Missing(Passing(), 2, X) && !MissingAt(Passing(), 3, T)
  {
    hide Dag, Locations, Passing, Missing;
    var g := Passing();
    PassingNodes();
    PassingLocations();
    MissingEverywhere(g, 2, X);
    MissingEverywhere(g, 1, T);
    assert !MissingAt(g, 1, T);
    assert 1 in Locations(g, 2, X) && 1 in Locations(g, 1, T);
  }

  /** No instance of T comes from container 2. */
  lemma {:induction false} PassingStuck(w: World, v: Value)
    requires Dag(Passing()) && Live(Passing(), w)
    ensures 2 in Passing() && T in Passing()[2].providers && !Made(Passing(), w, 2, Passing()[2].providers[T], v)
  {
    hide Dag, Live, Passing, Made;
    var g := Passing();
    PassingNodes();
    PassingLocations();
    var p := g[2].providers[T];
    assert p.recipe.fields[1] == Needing(U) && Requires(p, U);
    if Made(g, w, 2, p, v) {
      var x := RequiredOrigin(g, w, 2, p, v, U);
    }
  }

  /** What building T in container 2 may come to. */
  lemma {:induction false} PassingReach()
    requires Dag(Passing())
    ensures forall d | (d, T) in Spans(Passing(), [2], T) :: d == 1 || d == 2
  {
    hide Dag, Locations, Reach;
    var g := Passing();
    var s: set<(Id, Token)> := {(2, T), (1, X), (1, T)};
    PassingLocations();
    PassingEnclosed(s);
    ReachIsLeast(g, 2, T);
    assert [2][..0] == [];
    assert Spans(g, [2], T) == {} + Reach(g, 2, T);
  }

  lemma {:induction false} PassingEnclosed(s: set<(Id, Token)>)
    requires Dag(Passing()) && s == {(2, T), (1, X), (1, T)}
    ensures Enclosed(Passing(), s)
  {
    hide Dag, Locations, Passing;
    PassingNodes();
    PassingLocations();
    forall c: Id, t: Token, u: Token | (c, t) in s && c in Passing() && t in Passing()[c].providers
      && u in Declared(Passing()[c].providers[t])
      ensures Found(Passing(), s, c, u)
    {
    }
  }

  /** Passing over container 2 left the instance 12 in the request, made by container 1. */
  lemma {:induction false} PassingLeaves(before: World, middle: World, held: Option<map<Token, Value>>)
    requires Dag(Passing()) && Live(Passing(), middle) && before.log == [] && Obliged(middle.log)
    requires PassedOver(Passing(), before, middle, 2, T)
             && Traced(Passing(), before, middle, Spans(Passing(), [2], T), Some(map[]), held)
    ensures held.Some? && T in held.value && held.value[T] == 12 && Provided(1, T, 12) in middle.log
  {
    hide Dag, Live, Passing, Spans, Stays, Received, NoneOf, Missing, Origin, Made, Filled, Obliged, Requested;
    var g := Passing();
    PassingNodes();
    PassingMisses();
    var p := g[2].providers[T];
    var v, n: nat :| StoppedAtField(g, middle, 2, 20, p.recipe.fields, v, n);
    assert n == 1 && p.recipe.fields[0] == Needing(X);
    assert Filled(g, middle, 2, p.recipe.fields[0], 0, v);
    var i := PassingFilled(middle, v);
    assert middle.log[|before.log|..] == middle.log;
    ReceivedHas(map[], middle.log, i);
    var j := ReceivedFrom(map[], middle.log, T);
    PassingMaker(before, middle, held, j);
  }

  lemma {:induction false} PassingMaker(before: World, middle: World, held: Option<map<Token, Value>>, i: nat)
    requires Dag(Passing()) && Live(Passing(), middle) && before.log == [] && Obliged(middle.log)
    requires Traced(Passing(), before, middle, Spans(Passing(), [2], T), Some(map[]), held)
    requires i < |middle.log| && middle.log[i].Provided? && middle.log[i].token == T
    ensures middle.log[i] == Provided(1, T, 12) && middle.log[i] in middle.log
  {
    hide Dag, Live, Passing, Spans, Received, NoneOf, Made, Belongs, Obliged, Requested, Unstuck;
    var g, e := Passing(), middle.log[i];
    PassingNodes();
    PassingReach();
    assert Expected(g, e, Spans(g, [2], T));
    var d: Id, t: Token :| (d, t) in Spans(g, [2], T) && Belongs(g, e, d, t);
    BelongsToMaker(g, e, d, t);
    AttestedAt(g, middle, e);
    PassingStuck(middle, e.instance);
    ConstructedValue(g, middle, 1, g[1].providers[T], e.instance);
  }

  /** The X that was injected on the way had been given a T. */
  lemma {:induction false} PassingFilled(middle: World, v: Value) returns (i: nat)
    requires Dag(Passing()) && Live(Passing(), middle) && Obliged(middle.log)
    requires 2 in Passing() && Filled(Passing(), middle, 2, Needing(X), 0, v)
    ensures i < |middle.log| && middle.log[i].Provided? && middle.log[i].token == T
  {
    hide Dag, Live, Passing, Made, Locations, Obliged, Missing;
    var g := Passing();
    PassingNodes();
    PassingLocations();
    var raw :| Origin(g, middle, 2, X, raw);
    HeldIsMade(g, middle, 1, X, raw);
    var t := FieldOf(g, middle, 1, g[1].providers[X], raw, T);
    var maker :| Provided(maker, T, t) in middle.log;
    i :| 0 <= i < |middle.log| && middle.log[i] == Provided(maker, T, t);
  }

  lemma PassingScoped()
    ensures var g := Passing(); RequestScoped(g, 1, T) && RequestScoped(g, 2, T) && RequestScoped(g, 3, T)
    ensures forall c | c in Passing() :: Ranked(Passing()[c].providers, (t: Token) => if t == X then 1 else 0)
  {
  }

  lemma {:induction false} PassedAnswer(before: World, after: World, s: Step)
    requires Dag(Passing()) && Live(Passing(), before) && Live(Passing(), after) && Obliged(after.log)
             && before.log == []
    requires before.cells.Keys == after.cells.Keys == Passing().Keys && s.c == 4 && s.token == T
             && s.cached == Some(map[]) && s.request.Some?
    requires Stepped(Passing(), before, after, s)
    ensures s.r == Ok(12) && Answerer(Passing(), s) == Some(3)
    ensures Provided(1, T, 12) in after.log && forall v :: Provided(3, T, v) !in after.log
  {
    hide *;
    var g := Passing();
    PassingNodes();
    PassingLocations();
    PassingScoped();
    PassingMisses();
    StepParts(g, before, after, s);
    OnlyNotFound(g, before, after, s.r, (c: Id) => (t: Token) => if t == X then 1 else 0);
    NotAllMissing(g, before, after, 4, T, s.context, s.request, s.r, s.k, 3);
    AnswererExists(g, before, after, 4, T, s.context, s.request, s.r, s.k);
    PassedFirst(before, after, s);
    var middle, held := ServedBy(g, before, after, 4, T, s.cached, s.r, s.k);
    assert Locations(g, 4, T)[..1] == [2];
    PassedThen(before, middle, after, s.cached, held, s.r);
    AnswererIs(g, s);
  }

  lemma StepParts(g: Graph, before: World, after: World, s: Step)
    requires Live(g, before) && Live(g, after) && Stepped(g, before, after, s) && s.request.Some?
    ensures Dag(g) && s.c in g && before.cells.Keys == after.cells.Keys == g.Keys
    ensures Resolved(g, before, after, s.c, s.token, s.context, s.request, s.r, s.k)
            && Explained(g, before, after, true, s.r)
    ensures Reached(g, before, after, s.c, s.token, s.cached, s.r, s.k)
  {
    hide Live, Resolved, Explained, Reached, Traced, Advance, Scope;
    LiveDag(g, before);
    LiveDag(g, after);
  }

  lemma {:induction false} ServedBy(g: Graph, before: World, after: World, c: Id, t: Token,
                                    cached: Option<map<Token, Value>>, r: Outcome, k: nat)
    returns (middle: World, held: Option<map<Token, Value>>)
    requires Dag(g) && c in g && Reached(g, before, after, c, t, cached, r, k) && r.Ok? && k < |Locations(g, c, t)|
    requires RequestScoped(g, Locations(g, c, t)[k], t)
    ensures ServedFrom(g, before, middle, after, Locations(g, c, t)[..k], Locations(g, c, t)[k], t, cached, held, r)
  {
    hide Dag, Locations, ServedFrom, Served;
    middle, held :| ServedFrom(g, before, middle, after, Locations(g, c, t)[..k], Locations(g, c, t)[k], t, cached,
                               held, r);
  }

  lemma {:induction false} AnswererIs(g: Graph, s: Step)
    requires Dag(g) && s.c in g && s.r.Ok? && s.k < |Locations(g, s.c, s.token)|
    ensures Answerer(g, s) == Some(Locations(g, s.c, s.token)[s.k])
  {
    hide Dag, Locations;
  }

  /** It is not container 2 that answers. */
  lemma {:induction false} PassedFirst(before: World, after: World, s: Step)
    requires Dag(Passing()) && before.log == [] && s.c == 4 && s.token == T && s.cached == Some(map[]) && s.r.Ok?
    requires 4 in Passing() && Locations(Passing(), 4, T) == [2, 3]
             && Reached(Passing(), before, after, 4, T, s.cached, s.r, s.k) && s.k < 2
    ensures s.k == 1
  {
    hide Dag, Live, Passing, Locations, Made;
    PassingScoped();
    if s.k == 0 {
      assert Locations(Passing(), 4, T)[..0] == [];
      ServedAtFirst(Passing(), before, after, 4, T, s.cached, s.r, s.k);
      var built :| Constructed(Passing(), before, built, after, 2, T, s.r.value);
      PassingStuck(built, s.r.value);
    }
  }

  /** Container 3 hands out what the request got on the way. */
  lemma {:induction false} PassedThen(before: World, middle: World, after: World, cached: Option<map<Token, Value>>,
                                      held: Option<map<Token, Value>>, r: Outcome)
    requires Dag(Passing()) && Obliged(after.log) && before.log == [] && cached == Some(map[]) && r.Ok?
    requires ServedFrom(Passing(), before, middle, after, [2], 3, T, cached, held, r)
    ensures r == Ok(12) && Provided(1, T, 12) in after.log && forall v :: Provided(3, T, v) !in after.log
  {
    hide Dag, Live, Passing, Traced, Spans, Constructed, Advance, PassedOver;
    assert Obliged(middle.log) by { ServedKeepsLog(Passing(), middle, after, 3, T, held, r); }
    assert 2 in [2];
    PassingLeaves(before, middle, held);
    forall v
      ensures Provided(3, T, v) !in middle.log
    {
      if i :| 0 <= i < |middle.log| && middle.log[i] == Provided(3, T, v) {
        PassingMaker(before, middle, held, i);
      }
    }
  }

  lemma ServedKeepsLog(g: Graph, before: World, after: World, e: Id, t: Token, held: Option<map<Token, Value>>,
                       r: Outcome)
    requires Served(g, before, after, e, t, held, r) && r.Ok?
    ensures before.log <= after.log
  {
    hide Live, Made;
  }

  method PassingContainers() returns (root: Container, ghost all: set<Container>)
    ensures root in all && root.id == 4 && fresh(all) && Prepared(all, Passing())
  {
    hide Normalize, Passing, Container.Wired, Container.Apart, Registered, Container.ToCell, BlankCell,
      Container.Matches;
    var one := Equipped(1, {X}, null, [],
                        [ClassProvider(T, ClassInfo(12, Some(Request), [])),
                         ClassProvider(X, ClassInfo(11, Some(Transient), [Needing(T)]))]);
    var two := Equipped(2, {T}, null, [one],
                        [ClassProvider(T, ClassInfo(20, Some(Request), [Needing(X), Needing(U)]))]);
    var three := Equipped(3, {T}, null, [], [ClassProvider(T, ClassInfo(13, Some(Request), []))]);
    root := Equipped(4, {}, null, [two, three], []);
    all := {one, two, three, root};
    PassingRegistered();
    Fit(one, all, Passing()[1]);
    Fit(two, all, Passing()[2]);
    Fit(three, all, Passing()[3]);
    Fit(root, all, Passing()[4]);
    WireFour(one, two, three, root, Passing());
  }

  lemma WireFour(a: Container, b: Container, c: Container, d: Container, g: Graph)
    requires a.id == 1 && b.id == 2 && c.id == 3 && d.id == 4 && 1 in g && 2 in g && 3 in g && 4 in g
    requires a.Matches({a, b, c, d}, g[1]) && b.Matches({a, b, c, d}, g[2]) && c.Matches({a, b, c, d}, g[3])
             && d.Matches({a, b, c, d}, g[4])
    ensures Container.Wired({a, b, c, d}, g)
  {
    hide Container.Matches;
  }

  lemma {:induction false} PassingRegistered()
    ensures var g := Passing();
            && 1 in g && 2 in g && 3 in g && 4 in g
            && g[1] == Node(Registered(map[], [ClassProvider(T, ClassInfo(12, Some(Request), [])),
                                               ClassProvider(X, ClassInfo(11, Some(Transient), [Needing(T)]))]),
                            [], {X}, None, 0)
            && g[2] == Node(Registered(map[], [ClassProvider(T, ClassInfo(20, Some(Request),
                                                                          [Needing(X), Needing(U)]))]),
                            [1], {T}, None, 1)
            && g[3] == Node(Registered(map[], [ClassProvider(T, ClassInfo(13, Some(Request), []))]),
                            [], {T}, None, 0)
            && g[4] == Node(Registered(map[], []), [2, 3], {}, None, 2)
  {
    var t, x := ClassProvider(T, ClassInfo(12, Some(Request), [])),
              ClassProvider(X, ClassInfo(11, Some(Transient), [Needing(T)]));
    RegisterOne(map[], ClassProvider(T, ClassInfo(20, Some(Request), [Needing(X), Needing(U)])));
    RegisterOne(map[], ClassProvider(T, ClassInfo(13, Some(Request), [])));
    assert [t, x][1..] == [x];
    RegisterOne(map[T := Normalize(t)], x);
  }

  /** Container 4 is asked for T. Container 3 answers, after container 2 was passed over, with an instance that neither
      of them made. */
  method AskThrough() returns (r: Outcome, ghost worlds: seq<World>, ghost steps: seq<Step>)
    ensures r == Ok(12)
    ensures OneRequest(Passing(), worlds, steps) && |steps| == 1
    ensures steps[0].c == 4 && steps[0].token == T && steps[0].r == r
            && Answerer(Passing(), steps[0]) == Some(3)
    ensures Provided(1, T, 12) in worlds[1].log && forall v :: Provided(3, T, v) !in worlds[1].log
  {
    hide *;
    var root;
    ghost var all;
    root, all := PassingContainers();
    var host := new Host(Obliging);
    var request := new RequestContext();
    PassingIsDag();
    BeginAsking(all, Passing(), host, request);
    r, worlds, steps := Ask(root, T, host, request, all, Passing(), [Blank(Passing(), [])], []);
    StepFacts(all, Passing(), host, request, worlds, steps, 0);
    NothingAsked();
    PassedAnswer(worlds[0], worlds[1], steps[0]);
  }
}
