/** What a caller of the injector can rely on, over one resolution and over whole runs. */
module InjectorTheorems {
  import opened Basics
  import opened InjectorGraph
  import opened InjectorState
  import opened InjectorResolution

  // ------------------------------------------------------------ dependency cycles

  /** A reported cycle is real: some container declares every step of the chain, and the last
      token of the chain reaches itself. */
  lemma CircularIsReal(g: Graph, before: World, after: World, inRequest: bool, chain: seq<Token>) returns (d: Id)
    requires Explained(g, before, after, inRequest, Err(CircularDependency(chain)))
    ensures d in g && Chain(g[d].providers, chain) && |chain| >= 2 && ReachesItself(g[d].providers, chain[|chain| - 1])
  {
    d :| d in g && CycleWitness(g[d].providers, chain);
    CycleReachesItself(g[d].providers, chain);
  }

  /** When the dependencies inside every container can be ranked, no cycle is ever reported. */
  lemma AcyclicNeverCircular(g: Graph, before: World, after: World, inRequest: bool, r: Outcome,
                             rank: Id -> Token -> nat)
    requires Explained(g, before, after, inRequest, r)
    requires forall c | c in g :: Ranked(g[c].providers, rank(c))
    ensures !(r.Err? && r.error.CircularDependency?)
  {
    if r.Err? && r.error.CircularDependency? {
      var d := CircularIsReal(g, before, after, inRequest, r.error.chain);
      RankedHasNoCycle(g[d].providers, rank(d), r.error.chain[|r.error.chain| - 1]);
    }
  }

  /** Conversely, a container never answers with a value for a token on a circle of its own required tokens. */
  lemma {:induction false} CyclicNeverAnswers(g: Graph, before: World, after: World, c: Id, e: Id, ts: seq<Token>,
                                              i: nat, context: Option<string>, request: Option<map<Token, Value>>,
                                              r: Outcome, k: nat)
    requires Live(g, before) && Live(g, after) && Dag(g) && c in g && Circle(g, e, ts) && i < |ts|
    requires before.cells.Keys == after.cells.Keys == g.Keys
             && Resolved(g, before, after, c, ts[i], context, request, r, k)
    ensures r.Ok? ==> Locations(g, c, ts[i])[k] != e
  {
    hide Live, PassedOver, Locations, Delivered, HeldAt, Dag, Circle, Unstuck;
    CircleIsLost(g, e, ts, i);
    LostNeverAnswers(g, before, after, c, ts[i], context, request, r, k);
  }

  /** No container answers for a token that is lost there. */
  lemma {:induction false} LostNeverAnswers(g: Graph, before: World, after: World, c: Id, token: Token,
                                            context: Option<string>, request: Option<map<Token, Value>>, r: Outcome,
                                            k: nat)
    requires Live(g, after) && Dag(g) && c in g && before.cells.Keys == after.cells.Keys == g.Keys
    requires Resolved(g, before, after, c, token, context, request, r, k)
    ensures r.Ok? ==> !Lost(g, Locations(g, c, token)[k], token)
  {
    hide Live, PassedOver, Locations, Delivered, HeldAt, Dag, Lost;
    if r.Ok? {
      HeldIsNotLost(g, after, Locations(g, c, token)[k], token, r.value);
    }
  }

  // ---------------------------------------------------------------- missing tokens

  /** "Not found" is reported only for a token that is missing; and a missing token never resolves to a value, if
      requests cannot get it, or what it lacks, from elsewhere. */
  lemma {:induction false} NotFoundMeansMissing(g: Graph, before: World, after: World, c: Id, token: Token,
                                                context: Option<string>, request: Option<map<Token, Value>>,
                                                r: Outcome, k: nat)
    requires Live(g, before) && Live(g, after) && Dag(g) && c in g && before.cells.Keys == after.cells.Keys == g.Keys
    requires Resolved(g, before, after, c, token, context, request, r, k)
    ensures NotFound(r) ==> Missing(g, c, token)
    ensures Settled(g, c, token) && Missing(g, c, token) ==> !r.Ok?
  {
    hide Live, Dag, Resolved, Missing, MissingAt, Lost, Locations;
    ResolvedOrigin(g, before, after, c, token, context, request, r, k);
    if r.Ok? && Settled(g, c, token) && Missing(g, c, token) {
      MissingEverywhere(g, c, token);
      AnswererExists(g, before, after, c, token, context, request, r, k);
      assert AllLack(g, c, token, k);
      LostNeverAnswers(g, before, after, c, token, context, request, r, k);
    }
  }

  lemma {:induction false} AnswererExists(g: Graph, before: World, after: World, c: Id, token: Token,
                                          context: Option<string>, request: Option<map<Token, Value>>, r: Outcome,
                                          k: nat)
    requires Dag(g) && c in g && before.cells.Keys == after.cells.Keys == g.Keys
    requires Resolved(g, before, after, c, token, context, request, r, k) && r.Ok?
    ensures k < |Locations(g, c, token)| && Locations(g, c, token)[k] in Locations(g, c, token)
  {
    hide Dag, Locations, PassedOver, Answered;
  }

  /** A token that no chain of exporting imports leads to a provider of is never found, and asking for it has
      no effect. */
  lemma InvisibleIsNotFound(g: Graph, before: World, after: World, c: Id, token: Token, context: Option<string>,
                            request: Option<map<Token, Value>>, r: Outcome, k: nat)
    requires Dag(g) && c in g && before.cells.Keys == after.cells.Keys == g.Keys
    requires Resolved(g, before, after, c, token, context, request, r, k) && !Visible(g, c, token)
    ensures NotFound(r) && after == before
  {
    hide Locations, Visible, PassedOver, Answered;
    VisibleIffLocated(g, c, token);
  }

  /** When every required token can be seen from where it is required, "not found" is reported
      exactly for invisible tokens, and it is always the first location that answers. */
  lemma {:induction false} CompleteIsExact(g: Graph, before: World, after: World, c: Id, token: Token,
                                           context: Option<string>, request: Option<map<Token, Value>>, r: Outcome,
                                           k: nat)
    requires Dag(g) && c in g && before.cells.Keys == after.cells.Keys == g.Keys && Complete(g)
    requires Resolved(g, before, after, c, token, context, request, r, k)
    ensures NotFound(r) <==> !Visible(g, c, token)
    ensures !NotFound(r) ==>
              k == 0 && FirstMode(g, c, token) == Some(g[Locations(g, c, token)[k]].providers[token].mode)
  {
    hide Answered, Locations, Visible;
    VisibleIffLocated(g, c, token);
    forall e | PassedOver(g, before, after, e, token)
      ensures false
    {
      TriedIsMissing(g, after, e, token);
      var u :| Requires(g[e].providers[token], u) && Missing(g, e, u);
      CompleteMissing(g, e, u);
    }
    if Locations(g, c, token) != [] {
      assert Locations(g, c, token)[0] in Locations(g, c, token);
    }
  }

  /** The container that answers with a value is the first location whose provider lacks nothing, so it
      depends on the graph alone. */
  lemma {:induction false} AnswererIsFixed(g: Graph, before: World, after: World, c: Id, token: Token,
                                           context: Option<string>, request: Option<map<Token, Value>>, r: Outcome,
                                           k: nat)
    requires Live(g, after) && Dag(g) && c in g && Settled(g, c, token)
             && before.cells.Keys == after.cells.Keys == g.Keys
    requires Resolved(g, before, after, c, token, context, request, r, k) && r.Ok?
    ensures k < |Locations(g, c, token)| && !MissingAt(g, Locations(g, c, token)[k], token)
    ensures forall i | 0 <= i < k :: MissingAt(g, Locations(g, c, token)[i], token)
  {
    hide Live, Locations, MissingAt, Answered, Dag, Lost, Tried;
    AnswererExists(g, before, after, c, token, context, request, r, k);
    LostNeverAnswers(g, before, after, c, token, context, request, r, k);
    forall i | 0 <= i < k
      ensures MissingAt(g, Locations(g, c, token)[i], token)
    {
      TriedIsMissing(g, after, Locations(g, c, token)[i], token);
    }
    assert AllLack(g, c, token, k) <==> MissingAt(g, Locations(g, c, token)[k], token);
  }

  /** The look-up of the mode and the resolution agree on the provider unless the first provider cannot
      be built for want of a required token; and a value then comes from another provider. */
  lemma {:induction false} ModeAgrees(g: Graph, before: World, after: World, c: Id, token: Token,
                                      context: Option<string>, request: Option<map<Token, Value>>, r: Outcome, k: nat)
    requires Dag(g) && c in g && before.cells.Keys == after.cells.Keys == g.Keys && Locations(g, c, token) != []
    requires Resolved(g, before, after, c, token, context, request, r, k)
    ensures !MissingAt(g, Locations(g, c, token)[0], token) ==>
              !NotFound(r) && k == 0
                && FirstMode(g, c, token) == Some(g[Locations(g, c, token)[k]].providers[token].mode)
    ensures r.Ok? && Live(g, after) && Settled(g, c, token) ==>
              k < |Locations(g, c, token)|
              && (Locations(g, c, token)[k] == Locations(g, c, token)[0] <==>
                    !MissingAt(g, Locations(g, c, token)[0], token))
  {
    hide Answered, Locations, MissingAt, Live, Settled, Tried;
    var first := Locations(g, c, token)[0];
    assert first in Locations(g, c, token);
    if PassedOver(g, before, after, first, token) {
      TriedIsMissing(g, after, first, token);
    }
    if r.Ok? && Live(g, after) && Settled(g, c, token) {
      AnswererIsFixed(g, before, after, c, token, context, request, r, k);
    }
  }

  // ----------------------------------------------------------------------- success

  /** Application code throws nothing from this event on. */
  ghost predicate Untroubled(log: seq<Event>, from: nat) {
    forall i | from <= i < |log| && log[i].Called? :: log[i].reply.Returns?
  }

  /** No provider that can be come to asks for itself, and none is request-scoped unless a request runs. */
  ghost predicate Healthy(g: Graph, s: set<(Id, Token)>, inRequest: bool) {
    forall d: Id, t: Token | (d, t) in s && d in g :: HealthyAt(g, d, t, inRequest)
  }

  ghost predicate HealthyAt(g: Graph, d: Id, t: Token, inRequest: bool)
    requires d in g
  {
    !ReachesItself(g[d].providers, t) && (RequestScoped(g, d, t) ==> inRequest)
  }

  /** When application code throws nothing and all that can be come to is healthy, the only error is that the token
      is missing; so, inside a request and outside, a token is resolved exactly when it is not missing. */
  lemma {:induction false} Succeeds(g: Graph, before: World, after: World, c: Id, token: Token,
                                    context: Option<string>, request: Option<map<Token, Value>>, r: Outcome, k: nat)
    requires Live(g, before) && Live(g, after) && Dag(g) && c in g && before.cells.Keys == after.cells.Keys == g.Keys
    requires Resolved(g, before, after, c, token, context, request, r, k)
    requires Explained(g, before, after, request.Some?, r) && Founded(g, Scope(g, c, token), Some(token), r)
    requires Healthy(g, Scope(g, c, token), request.Some?) && Untroubled(after.log, |before.log|)
    ensures r.Err? ==> NotFound(r) && Missing(g, c, token)
    ensures Settled(g, c, token) ==> (r.Ok? <==> !Missing(g, c, token))
  {
    hide Live, Dag, Resolved, Missing, Settled, Scope, Explained, Founded;
    NotFoundMeansMissing(g, before, after, c, token, context, request, r, k);
    if r.Err? {
      OnlyMissing(g, before, after, Scope(g, c, token), token, request.Some?, r);
    }
  }

  lemma OnlyMissing(g: Graph, before: World, after: World, s: set<(Id, Token)>, token: Token, inRequest: bool,
                    r: Outcome)
    requires Dag(g) && Explained(g, before, after, inRequest, r) && Founded(g, s, Some(token), r)
    requires Healthy(g, s, inRequest) && Untroubled(after.log, |before.log|)
    ensures r.Ok? || NotFound(r)
  {
    hide Dag, Wanting, HealthyAt, RequestScoped;
    if r.Err? {
      match r.error
      case CircularDependency(chain) => NoCircle(g, s, inRequest, chain);
      case NoRequestContext(u) => NothingScoped(g, s, inRequest, u);
      case Failed(error) => NothingThrown(before.log, after.log, error);
      case TokenNotFound(_) =>
    }
  }

  lemma NoCircle(g: Graph, s: set<(Id, Token)>, inRequest: bool, chain: seq<Token>)
    requires Healthy(g, s, inRequest) && chain != []
    ensures !Circular(g, s, chain)
  {
    hide CycleWitness, ReachesItself;
    var t := chain[|chain| - 1];
    forall d: Id | (d, t) in s && d in g
      ensures !CycleWitness(g[d].providers, chain)
    {
      assert HealthyAt(g, d, t, inRequest);
      if CycleWitness(g[d].providers, chain) {
        CycleReachesItself(g[d].providers, chain);
      }
    }
  }

  lemma NothingScoped(g: Graph, s: set<(Id, Token)>, inRequest: bool, u: Token)
    requires Healthy(g, s, inRequest)
    ensures !inRequest ==> forall d: Id | (d, u) in s :: !RequestScoped(g, d, u)
  {
    hide ReachesItself;
    forall d: Id | (d, u) in s && d in g
      ensures HealthyAt(g, d, u, inRequest)
    {
    }
  }

  lemma NothingThrown(before: seq<Event>, after: seq<Event>, error: int)
    requires Untroubled(after, |before|)
    ensures forall i, call | |before| <= i < |after| :: after[i] != Called(call, Throws(error))
  {
    forall i, call | |before| <= i < |after|
      ensures after[i] != Called(call, Throws(error))
    {
      assert after[i].Called? ==> after[i].reply.Returns?;
    }
  }

  // ---------------------------------------------------------------- request scope

  /** Within one request a request-scoped token keeps its instance, whichever container is asked: what
      was cached before the call is what the call returns, and what it returns is cached for the next. */
  lemma {:induction false} RequestIdentity(g: Graph, before: World, after: World, c: Id, token: Token,
                                           context: Option<string>, cached: Option<map<Token, Value>>,
                                           request: Option<map<Token, Value>>, r: Outcome, k: nat)
    requires Dag(g) && c in g && before.cells.Keys == after.cells.Keys == g.Keys
    requires Resolved(g, before, after, c, token, context, request, r, k)
             && RequestKept(before.log, after.log, cached, request)
    requires r.Ok? && RequestScoped(g, Locations(g, c, token)[k], token)
    ensures request.Some? && token in request.value && request.value[token] == r.value
    ensures cached.Some? && (token in cached.value ==> cached.value[token] == r.value)
  {
    hide Locations, PassedOver, HeldAt, RequestKept;
    RequestKeeps(before.log, after.log, cached, request);
  }

  /** Who made a request-scoped value: the request-scoped provider of some container, and that of the
      container that answered when no other can make one. */
  lemma {:induction false} RequestMaker(g: Graph, before: World, after: World, c: Id, token: Token,
                                        context: Option<string>, request: Option<map<Token, Value>>, r: Outcome, k: nat)
    returns (maker: Id)
    requires Live(g, after) && Dag(g) && c in g && before.cells.Keys == after.cells.Keys == g.Keys
    requires Resolved(g, before, after, c, token, context, request, r, k)
    requires r.Ok? && RequestScoped(g, Locations(g, c, token)[k], token)
    ensures Provided(maker, token, r.value) in after.log && Attested(g, after, Provided(maker, token, r.value))
    ensures NoRival(g, Everything(g), token, Locations(g, c, token)[k]) ==> maker == Locations(g, c, token)[k]
  {
    hide Locations, PassedOver, Live, Dag, Made, Delivered, Unstuck;
    assert ProvidedFor(after.log, token, r.value);
    maker :| Provided(maker, token, r.value) in after.log;
    AttestedAt(g, after, Provided(maker, token, r.value));
  }

  /** Among these providers no other than that of `e` makes instances of the token for requests. */
  ghost predicate NoRival(g: Graph, s: set<(Id, Token)>, token: Token, e: Id)
    requires Dag(g)
  {
    forall d: Id | d != e && (d, token) in s && RequestScoped(g, d, token) :: !Unstuck(g, d, token)
  }

  /** The container that answers made the value with its own provider exactly when the request had no instance of
      the token before the call, or had one of that container's; provided that what was passed over before it cannot
      come to another container's provider of the token. For an answer of the first location nothing is to be
      provided. */
  lemma {:induction false} MadeHere(g: Graph, before: World, after: World, c: Id, token: Token, context: Option<string>,
                        cached: Option<map<Token, Value>>, request: Option<map<Token, Value>>, r: Outcome, k: nat)
    requires Live(g, after) && Dag(g) && c in g && before.cells.Keys == after.cells.Keys == g.Keys
    requires Resolved(g, before, after, c, token, context, request, r, k)
             && Reached(g, before, after, c, token, cached, r, k)
    requires r.Ok? && RequestScoped(g, Locations(g, c, token)[k], token)
    requires NoRival(g, Spans(g, Locations(g, c, token)[..k], token), token, Locations(g, c, token)[k])
    ensures cached.Some?
    ensures var e := Locations(g, c, token)[k];
            Provided(e, token, r.value) in after.log <==>
              token !in cached.value || Provided(e, token, cached.value[token]) in before.log
  {
    hide Live, Dag, Locations, Served, Spans, PassedOver, Answered, Traced, NoRival;
    AnswererExists(g, before, after, c, token, context, request, r, k);
    var ls := Locations(g, c, token);
    var middle, held :| ServedFrom(g, before, middle, after, ls[..k], ls[k], token, cached, held, r);
    MadeHereFrom(g, before, middle, after, ls[..k], ls[k], token, cached, held, r.value);
  }

  lemma {:induction false} MadeHereFrom(g: Graph, before: World, middle: World, after: World, tried: seq<Id>, e: Id,
                                        token: Token, cached: Option<map<Token, Value>>,
                                        held: Option<map<Token, Value>>, v: Value)
    requires Dag(g) && ServedFrom(g, before, middle, after, tried, e, token, cached, held, Ok(v))
    requires NoRival(g, Spans(g, tried, token), token, e)
    ensures cached.Some?
    ensures Provided(e, token, v) in after.log <==>
              token !in cached.value || Provided(e, token, cached.value[token]) in before.log
  {
    hide Live, Dag, Spans, PassedOver, NoRival, Stays, Received, NoneOf, Constructed, Advance;
    AdvanceKeeps(before, middle);
    RequestKeeps(before.log, middle.log, cached, held);
    KeepsKeys(before, middle);
    if token !in held.value {
      var built :| Constructed(g, middle, built, after, e, token, v);
      ConstructedLast(g, middle, built, after, e, token, v);
    } else if token in cached.value {
      HeldSince(g, before, middle, e, token, cached, held);
    } else {
      HeldFromHere(g, before, middle, tried, e, token, cached, held);
    }
  }

  /** What the request held before was not provided again. */
  lemma HeldSince(g: Graph, before: World, middle: World, e: Id, token: Token, cached: Option<map<Token, Value>>,
                  held: Option<map<Token, Value>>)
    requires RequestKept(before.log, middle.log, cached, held) && cached.Some? && token in cached.value
    ensures forall v :: Provided(e, token, v) in middle.log <==> Provided(e, token, v) in before.log
  {
    hide Received;
    forall j | |before.log| <= j < |middle.log|
      ensures !(middle.log[j].Provided? && middle.log[j].token == token)
    {
      assert middle.log[j] == middle.log[|before.log|..][j - |before.log|];
    }
    forall v | Provided(e, token, v) in middle.log
      ensures Provided(e, token, v) in before.log
    {
      var i :| 0 <= i < |middle.log| && middle.log[i] == Provided(e, token, v);
      assert before.log[i] == middle.log[i];
    }
  }

  /** What the request received meanwhile came from the only provider of the token there. */
  lemma {:induction false} HeldFromHere(g: Graph, before: World, middle: World, tried: seq<Id>, e: Id, token: Token,
                                        cached: Option<map<Token, Value>>, held: Option<map<Token, Value>>)
    requires Dag(g) && Live(g, middle) && Traced(g, before, middle, Spans(g, tried, token), cached, held)
    requires cached.Some? && held.Some? && token !in cached.value && token in held.value
             && NoRival(g, Spans(g, tried, token), token, e)
    ensures Provided(e, token, held.value[token]) in middle.log
  {
    hide Live, Dag, Spans, Received, NoneOf, Unstuck, Made, Belongs;
    var i := ReceivedFrom(cached.value, middle.log[|before.log|..], token);
    var x := middle.log[|before.log| + i];
    assert x == middle.log[|before.log|..][i] && x in middle.log;
    assert Expected(g, x, Spans(g, tried, token));
    AttestedAt(g, middle, x);
    var d: Id, t: Token :| (d, t) in Spans(g, tried, token) && Belongs(g, x, d, t);
    assert d == x.maker && t == token by { BelongsToMaker(g, x, d, t); }
  }

  lemma BelongsToMaker(g: Graph, x: Event, d: Id, t: Token)
    requires Belongs(g, x, d, t) && x.Provided?
    ensures d == x.maker && t == x.token
  {
  }

  /** Another container than `e` put an instance of the token into the request, made by its own request-scoped
      provider. */
  ghost predicate NestedAt(g: Graph, log: seq<Event>, i: nat, e: Id, token: Token)
    requires i < |log|
  {
    log[i].Provided? && log[i].token == token && log[i].maker != e && RequestScoped(g, log[i].maker, token)
  }

  ghost predicate Nested(g: Graph, before: World, after: World, e: Id, token: Token) {
    exists i :: |before.log| <= i < |after.log| && NestedAt(g, after.log, i, e, token)
  }

  /** During the call the request got no instance of the token but the last thing it got. */
  ghost predicate OnlyInstance(before: World, after: World, token: Token) {
    forall i | |before.log| <= i < |after.log| && after.log[i].Provided? && after.log[i].token == token ::
        i == |after.log| - 1
  }

  /** An instance constructed for a request replaces another one exactly when another container's provider
      of the token ran within the construction; which is never, when none can be come to. */
  lemma OneInstance(g: Graph, before: World, after: World, e: Id, token: Token, s: set<(Id, Token)>,
                    cached: Option<map<Token, Value>>, v: Value)
    requires Live(g, after) && Dag(g) && RequestScoped(g, e, token)
    requires cached.Some? && token !in cached.value && Served(g, before, after, e, token, cached, Ok(v))
             && Stays(g, before, after, s)
    ensures |before.log| < |after.log| && after.log[|after.log| - 1] == Provided(e, token, v)
    ensures OnlyInstance(before, after, token) <==> !Nested(g, before, after, e, token)
    ensures NoRival(g, s, token, e) ==> !Nested(g, before, after, e, token)
  {
    hide Live, Constructed, NestedAt, Stays, NoRival, Dag;
    var built :| Constructed(g, before, built, after, e, token, v);
    ConstructedLast(g, before, built, after, e, token, v);
    forall i | |before.log| <= i < |after.log|
      ensures NestedAt(g, after.log, i, e, token) <==>
                i < |after.log| - 1 && after.log[i].Provided? && after.log[i].token == token
      ensures NoRival(g, s, token, e) ==> !NestedAt(g, after.log, i, e, token)
    {
      NestedOnly(g, before, built, after, e, token, s, v, i);
    }
  }

  /** A call answered by the first container searched puts more than one instance of the token into the request exactly
      when another container's provider of it runs meanwhile; which is never, when the call can come to no other. */
  lemma {:induction false} OneInstanceAtFirst(g: Graph, before: World, after: World, c: Id, token: Token,
                                              cached: Option<map<Token, Value>>, request: Option<map<Token, Value>>,
                                              r: Outcome)
    requires Live(g, after) && Dag(g) && c in g && Locations(g, c, token) != []
             && RequestScoped(g, Locations(g, c, token)[0], token)
    requires Reached(g, before, after, c, token, cached, r, 0)
             && Traced(g, before, after, Scope(g, c, token), cached, request)
    requires cached.Some? && token !in cached.value && r.Ok?
    ensures OnlyInstance(before, after, token) <==> !Nested(g, before, after, Locations(g, c, token)[0], token)
    ensures NoRival(g, Scope(g, c, token), token, Locations(g, c, token)[0]) ==> OnlyInstance(before, after, token)
  {
    hide Live, Dag, Locations, Served, Reached, Stays, NoRival, Nested, OnlyInstance, Scope, RequestKept;
    ServedAtFirst(g, before, after, c, token, cached, r, 0);
    OneInstance(g, before, after, Locations(g, c, token)[0], token, Scope(g, c, token), cached, r.value);
  }

  lemma ConstructedLast(g: Graph, before: World, built: World, after: World, e: Id, token: Token, v: Value)
    requires Constructed(g, before, built, after, e, token, v)
    ensures |before.log| <= |built.log| == |after.log| - 1 && after.log[|built.log|] == Provided(e, token, v)
    ensures forall i | |before.log| <= i < |built.log| :: after.log[i] == built.log[i]
    ensures NoneBy(built.log, |before.log|, e, token)
  {
    hide Live, Made;
  }

  lemma NestedOnly(g: Graph, before: World, built: World, after: World, e: Id, token: Token, s: set<(Id, Token)>,
                   v: Value, i: nat)
    requires Live(g, after) && Dag(g) && Constructed(g, before, built, after, e, token, v)
             && |before.log| <= i < |after.log|
    requires RequestScoped(g, e, token) && Stays(g, before, after, s)
    ensures NestedAt(g, after.log, i, e, token) <==>
              i < |after.log| - 1 && after.log[i].Provided? && after.log[i].token == token
    ensures NoRival(g, s, token, e) ==> !NestedAt(g, after.log, i, e, token)
  {
    hide Live, Constructed, Made, Unstuck, Dag, Belongs;
    ConstructedLast(g, before, built, after, e, token, v);
    if i < |built.log| && after.log[i].Provided? && after.log[i].token == token {
      AttestedAt(g, after, after.log[i]);
      assert Expected(g, after.log[i], s);
      var d: Id, t: Token :| (d, t) in s && Belongs(g, after.log[i], d, t);
      BelongsToMaker(g, after.log[i], d, t);
    }
  }

  // ------------------------------------------------------------------- whole runs

  /** One resolution. `room` names the request it ran in, if any; `cached` and `request` are the
      instances of that request before and after it. */
  datatype Step = Step(c: Id, token: Token, context: Option<string>, room: Option<nat>,
                       cached: Option<map<Token, Value>>,
                       request: Option<map<Token, Value>>, r: Outcome, k: nat)

  /** A run of the injector: one completed resolution after another. */
  ghost predicate Run(g: Graph, worlds: seq<World>, steps: seq<Step>) {
    && |worlds| == |steps| + 1
    && (forall i | 0 <= i < |worlds| :: Live(g, worlds[i]))
    && (forall i | 0 <= i < |steps| :: Stepped(g, worlds[i], worlds[i + 1], steps[i]))
  }

  ghost predicate Stepped(g: Graph, before: World, after: World, s: Step)
    requires Live(g, before) && Live(g, after)
  {
    && s.c in g && Advance(before, after) && Resolved(g, before, after, s.c, s.token, s.context, s.request, s.r, s.k)
    && Explained(g, before, after, s.request.Some?, s.r) && Founded(g, Scope(g, s.c, s.token), Some(s.token), s.r)
    && Reached(g, before, after, s.c, s.token, s.cached, s.r, s.k)
    && Traced(g, before, after, Scope(g, s.c, s.token), s.cached, s.request) && (s.room.Some? <==> s.request.Some?)
  }

  /** A request starts each step with the instances its step before left. */
  ghost predicate Rooms(steps: seq<Step>) {
    forall i, j | 0 <= i < j < |steps| && steps[i].room == steps[j].room && Between(steps, i, j) ::
        steps[j].cached == steps[i].request
  }

  /** The request of step `i` runs no step before `j`. */
  ghost predicate Between(steps: seq<Step>, i: nat, j: nat)
    requires i < |steps| && j <= |steps|
  {
    forall m | i < m < j :: steps[m].room != steps[i].room
  }

  /** The container that answered a step with a value. */
  ghost function Answerer(g: Graph, s: Step): Option<Id>
    requires Dag(g)
  {
    if s.c in g && s.r.Ok? && s.k < |Locations(g, s.c, s.token)| then Some(Locations(g, s.c, s.token)[s.k]) else None
  }

  lemma {:induction false} RunAdvances(g: Graph, worlds: seq<World>, steps: seq<Step>, i: nat, j: nat)
    requires Run(g, worlds, steps) && i <= j < |worlds|
    ensures Advance(worlds[i], worlds[j])
    decreases j - i
  {
    hide Live, Keeps, Resolved, Reached, Traced, Explained, Guarded, Scope;
    InnerItself(worlds[i]);
    InnerAdvance(worlds[i], worlds[i]);
    if i < j {
      RunAdvances(g, worlds, steps, i, j - 1);
      assert Live(g, worlds[j - 1]) && Live(g, worlds[j]) && Stepped(g, worlds[j - 1], worlds[j], steps[j - 1]);
      AdvanceTransitive(worlds[i], worlds[j - 1], worlds[j]);
    }
  }

  /** So in every run each healthy step succeeds exactly when its token is not missing. */
  lemma StepSucceeds(g: Graph, worlds: seq<World>, steps: seq<Step>, i: nat)
    requires Dag(g) && Run(g, worlds, steps) && i < |steps| && steps[i].c in g
    requires Healthy(g, Scope(g, steps[i].c, steps[i].token), steps[i].request.Some?)
    requires i + 1 < |worlds| && Untroubled(worlds[i + 1].log, |worlds[i].log|)
    ensures steps[i].r.Err? ==> NotFound(steps[i].r) && Missing(g, steps[i].c, steps[i].token)
    ensures Settled(g, steps[i].c, steps[i].token) ==>
              (steps[i].r.Ok? <==> !Missing(g, steps[i].c, steps[i].token))
  {
    hide Live, Dag, Resolved, Missing, Settled, Scope, Explained, Founded, Healthy, Untroubled, Reached, Traced;
    var s := steps[i];
    assert Live(g, worlds[i]) && Live(g, worlds[i + 1]) && Stepped(g, worlds[i], worlds[i + 1], s);
    LiveDag(g, worlds[i]);
    LiveDag(g, worlds[i + 1]);
    Succeeds(g, worlds[i], worlds[i + 1], s.c, s.token, s.context, s.request, s.r, s.k);
  }

  /** Singleton identity over a run: two steps answered by the same container for the same singleton
      token return the same instance, which the container recorded exactly once. */
  lemma SingletonIdentity(g: Graph, worlds: seq<World>, steps: seq<Step>, i: nat, j: nat, e: Id)
    requires Dag(g) && Run(g, worlds, steps) && i <= j < |steps| && steps[i].token == steps[j].token
    requires Answerer(g, steps[i]) == Answerer(g, steps[j]) == Some(e)
    requires e in g && steps[i].token in g[e].providers && g[e].providers[steps[i].token].mode == Singleton
    ensures steps[i].r == steps[j].r
    ensures forall w | i < w < |worlds| ::
              e in worlds[w].cells && steps[i].token in worlds[w].cells[e].singletons
              && worlds[w].cells[e].singletons[steps[i].token] == steps[i].r.value
    ensures forall w, a, b | i < w < |worlds| && e in worlds[w].cells && 0 <= a < b < |worlds[w].cells[e].builds| ::
              !(worlds[w].cells[e].builds[a] == steps[i].token && worlds[w].cells[e].builds[b] == steps[i].token)
  {
    hide Live, Keeps, Run, Locations, PassedOver;
    var t := steps[i].token;
    AnswerStays(g, worlds, steps, i, e);
    AnswerStays(g, worlds, steps, j, e);
    assert worlds[j + 1].cells[e].singletons[t] == steps[i].r.value == steps[j].r.value;
    forall w, a, b | i < w < |worlds| && e in worlds[w].cells && 0 <= a < b < |worlds[w].cells[e].builds|
      ensures !(worlds[w].cells[e].builds[a] == t && worlds[w].cells[e].builds[b] == t)
    {
      WorldIsLive(g, worlds, steps, w);
      LiveFacts(g, worlds[w], e);
      HeldSingleton(g[e].providers, worlds[w].cells[e], t, steps[i].r.value);
    }
  }

  lemma WorldIsLive(g: Graph, worlds: seq<World>, steps: seq<Step>, i: nat)
    requires Run(g, worlds, steps) && i < |worlds|
    ensures Live(g, worlds[i]) && |worlds| == |steps| + 1
  {
    hide Live, Stepped;
  }

  /** What a singleton step returned is cached in every later world. */
  lemma AnswerStays(g: Graph, worlds: seq<World>, steps: seq<Step>, i: nat, e: Id)
    requires Dag(g) && Run(g, worlds, steps) && i < |steps| && Answerer(g, steps[i]) == Some(e)
    requires e in g && steps[i].token in g[e].providers && g[e].providers[steps[i].token].mode == Singleton
    ensures |worlds| == |steps| + 1
    ensures forall w | i < w < |worlds| ::
              e in worlds[w].cells && steps[i].token in worlds[w].cells[e].singletons
              && worlds[w].cells[e].singletons[steps[i].token] == steps[i].r.value
  {
    hide Live, Keeps, PassedOver, Explained, Reached, Traced, Scope;
    var s := steps[i];
    assert Live(g, worlds[i]) && Live(g, worlds[i + 1]) && Stepped(g, worlds[i], worlds[i + 1], s);
    assert s.token in worlds[i + 1].cells[e].singletons && worlds[i + 1].cells[e].singletons[s.token] == s.r.value;
    forall w | i < w < |worlds|
      ensures e in worlds[w].cells && s.token in worlds[w].cells[e].singletons
              && worlds[w].cells[e].singletons[s.token] == s.r.value
    {
      RunAdvances(g, worlds, steps, i + 1, w);
      KeepsKeys(worlds[i + 1], worlds[w]);
    }
  }

  /** Once a singleton has been returned from its first location, every later request for it from the
      same container returns that instance and changes nothing. */
  lemma LaterRequestsAreCached(g: Graph, worlds: seq<World>, steps: seq<Step>, i: nat, j: nat, e: Id)
    requires Dag(g) && Run(g, worlds, steps) && i < j < |steps|
    requires Answerer(g, steps[i]) == Some(e) && steps[i].k == 0
    requires e in g && steps[i].token in g[e].providers && g[e].providers[steps[i].token].mode == Singleton
    requires steps[j].c == steps[i].c && steps[j].token == steps[i].token
    ensures steps[j].r == steps[i].r && |worlds| == |steps| + 1 && worlds[j + 1] == worlds[j]
  {
    hide Live, Keeps, PassedOver, Explained, Answered, Locations, Reached, Traced, Scope;
    AnswerStays(g, worlds, steps, i, e);
    assert Live(g, worlds[j]) && Live(g, worlds[j + 1]) && Stepped(g, worlds[j], worlds[j + 1], steps[j]);
  }

  /** Named contexts over a run: two steps in the same context, answered by the same container for the
      same transient token, return the same instance. */
  lemma ContextIdentity(g: Graph, worlds: seq<World>, steps: seq<Step>, i: nat, j: nat, e: Id)
    requires Dag(g) && Run(g, worlds, steps) && i <= j < |steps| && steps[i].token == steps[j].token
    requires steps[i].context.Some? && steps[i].context == steps[j].context
    requires Answerer(g, steps[i]) == Answerer(g, steps[j]) == Some(e)
    requires e in g && steps[i].token in g[e].providers && g[e].providers[steps[i].token].mode == Transient
    ensures steps[i].r == steps[j].r
  {
    hide Live, Keeps, Run, Locations;
    ContextHolds(g, worlds, steps, i, e);
    ContextHolds(g, worlds, steps, j, e);
    RunAdvances(g, worlds, steps, i + 1, j + 1);
    KeepsKeys(worlds[i + 1], worlds[j + 1]);
  }

  lemma ContextHolds(g: Graph, worlds: seq<World>, steps: seq<Step>, i: nat, e: Id)
    requires Dag(g) && Run(g, worlds, steps) && i < |steps| && Answerer(g, steps[i]) == Some(e)
             && steps[i].context.Some?
    requires e in g && steps[i].token in g[e].providers && g[e].providers[steps[i].token].mode == Transient
    ensures |worlds| == |steps| + 1 && e in worlds[i + 1].cells && steps[i].r.Ok?
    ensures var cache := Cache(worlds[i + 1].cells[e].contexts, steps[i].context.value);
            steps[i].token in cache && cache[steps[i].token] == steps[i].r.value
  {
    hide Live, Keeps, PassedOver, Explained, Locations, Reached, Traced, Scope, HeldAt;
    assert Live(g, worlds[i]) && Live(g, worlds[i + 1]) && Stepped(g, worlds[i], worlds[i + 1], steps[i]);
    LiveDag(g, worlds[i + 1]);
  }

  /** Request scope over a run: two steps of one request for one request-scoped token return the same
      instance, whichever containers were asked and whichever answered. */
  lemma {:induction false} RequestIdentityOverRun(g: Graph, worlds: seq<World>, steps: seq<Step>, i: nat, j: nat)
    requires Dag(g) && Run(g, worlds, steps) && Rooms(steps) && i <= j < |steps| && steps[i].token == steps[j].token
    requires steps[i].room.Some? && steps[i].room == steps[j].room
    requires InRequestMode(g, steps[i]) && InRequestMode(g, steps[j])
    ensures steps[i].r == steps[j].r
  {
    hide Run, Rooms, InRequestMode;
    StepKeeps(g, worlds, steps, i);
    StepKeeps(g, worlds, steps, j);
    if i < j {
      RoomGrows(g, worlds, steps, i, j);
    }
  }

  /** A request-scoped provider answered the step with a value. */
  ghost predicate InRequestMode(g: Graph, s: Step)
    requires Dag(g)
  {
    Answerer(g, s).Some? && RequestScoped(g, Answerer(g, s).value, s.token)
  }

  /** Everything that was held is held, with the same instance. */
  ghost predicate HeldStill(a: Option<map<Token, Value>>, b: Option<map<Token, Value>>) {
    a.Some? == b.Some? && (a.Some? ==> Submap(a.value, b.value))
  }

  lemma {:induction false} StepKeeps(g: Graph, worlds: seq<World>, steps: seq<Step>, i: nat)
    requires Dag(g) && Run(g, worlds, steps) && i < |steps|
    ensures HeldStill(steps[i].cached, steps[i].request)
    ensures InRequestMode(g, steps[i]) ==>
              steps[i].r.Ok? && steps[i].request.Some? && steps[i].token in steps[i].request.value
              && steps[i].request.value[steps[i].token] == steps[i].r.value
  {
    hide Live, Locations, Explained, Advance, RequestKept, Stays, Reached, Resolved, Scope;
    var s := steps[i];
    assert Live(g, worlds[i]) && Live(g, worlds[i + 1]) && Stepped(g, worlds[i], worlds[i + 1], s);
    RequestKeeps(worlds[i].log, worlds[i + 1].log, s.cached, s.request);
    if InRequestMode(g, s) {
      LiveDag(g, worlds[i]);
      LiveDag(g, worlds[i + 1]);
      RequestIdentity(g, worlds[i], worlds[i + 1], s.c, s.token, s.context, s.cached, s.request, s.r, s.k);
    }
  }

  /** What a request held after one step it still holds before any later one of its own. */
  lemma {:induction false} RoomGrows(g: Graph, worlds: seq<World>, steps: seq<Step>, i: nat, j: nat)
    requires Dag(g) && Run(g, worlds, steps) && Rooms(steps) && i < j < |steps| && steps[i].room == steps[j].room
    ensures HeldStill(steps[i].request, steps[j].cached)
    decreases j - i
  {
    hide Run;
    if !Between(steps, i, j) {
      var m :| i < m < j && steps[m].room == steps[i].room;
      RoomGrows(g, worlds, steps, i, m);
      StepKeeps(g, worlds, steps, m);
      RoomGrows(g, worlds, steps, m, j);
    }
  }

  /** One container's answers for one token all come from the same container, if its search is settled. */
  lemma SameAnswerer(g: Graph, worlds: seq<World>, steps: seq<Step>, i: nat, j: nat)
    requires Dag(g) && Run(g, worlds, steps) && i < |steps| && j < |steps|
    requires steps[i].c == steps[j].c && steps[i].token == steps[j].token && steps[i].r.Ok? && steps[j].r.Ok?
    requires steps[i].c in g && Settled(g, steps[i].c, steps[i].token)
    ensures Answerer(g, steps[i]).Some? && Answerer(g, steps[i]) == Answerer(g, steps[j])
  {
    hide Live, Locations, Settled, MissingAt, Dag, Run;
    FixedAt(g, worlds, steps, i);
    FixedAt(g, worlds, steps, j);
  }

  lemma {:induction false} FixedAt(g: Graph, worlds: seq<World>, steps: seq<Step>, i: nat)
    requires Dag(g) && Run(g, worlds, steps) && i < |steps| && steps[i].r.Ok? && steps[i].c in g
             && Settled(g, steps[i].c, steps[i].token)
    ensures var s := steps[i];
            && s.k < |Locations(g, s.c, s.token)| && !MissingAt(g, Locations(g, s.c, s.token)[s.k], s.token)
            && forall m | 0 <= m < s.k :: MissingAt(g, Locations(g, s.c, s.token)[m], s.token)
  {
    hide Live, Locations, Settled, MissingAt, Dag, Explained, Advance, Resolved, Reached, Traced, Scope;
    var s := steps[i];
    assert Live(g, worlds[i]) && Live(g, worlds[i + 1]) && Stepped(g, worlds[i], worlds[i + 1], s);
    LiveDag(g, worlds[i]);
    LiveDag(g, worlds[i + 1]);
    AnswererIsFixed(g, worlds[i], worlds[i + 1], s.c, s.token, s.context, s.request, s.r, s.k);
  }

  /** So the values one container returns over a run for one singleton token are one instance. */
  lemma SingletonIdentityPerContainer(g: Graph, worlds: seq<World>, steps: seq<Step>, i: nat, j: nat, e: Id)
    requires Dag(g) && Run(g, worlds, steps) && i <= j < |steps| && steps[i].c in g
             && Settled(g, steps[i].c, steps[i].token)
    requires steps[i].c == steps[j].c && steps[i].token == steps[j].token && steps[j].r.Ok?
             && Answerer(g, steps[i]) == Some(e)
    requires e in g && steps[i].token in g[e].providers && g[e].providers[steps[i].token].mode == Singleton
    ensures steps[i].r == steps[j].r
  {
    hide Run, Settled;
    SameAnswerer(g, worlds, steps, i, j);
    SingletonIdentity(g, worlds, steps, i, j, e);
  }
}
