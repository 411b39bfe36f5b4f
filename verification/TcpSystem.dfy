/** A TCP client and server together, over any number of connections that may fail at any time. */
module TcpSystem {
  import opened Basics
  import opened TcpCodec
  import opened PendingRequests
  import opened TcpTransport

  /** One connection: what was written to it, what is in flight, and what each end has done with it. The
      client has read `received` bodies and decoded those in `got`. */
  datatype Link = Link(
    sent: seq<Inbound>,
    toServer: Bytes,
    taken: nat,
    busy: Option<Inbound>,
    log: seq<Dispatch>,
    toClient: Bytes,
    received: nat,
    got: seq<Response>,
    cut: bool,
    serverUp: bool,
    clientUp: bool)

  const NEW_LINK := Link([], [], 0, None, [], [], 0, [], false, true, true)

  ghost predicate Lawful(wire: Wire) {
    && (forall f :: wire.decodeInbound(wire.encodeInbound(f)) == Some(f))
    && (forall r :: wire.decodeResponse(wire.encodeResponse(r)) == Some(r))
  }

  /** The length of the body fits its prefix. */
  predicate Fits(body: Bytes) {
    |body| < TWO_TO_THE_32
  }

  function InboundBodies(wire: Wire, fs: seq<Inbound>): seq<Bytes> {
    seq(|fs|, i requires 0 <= i < |fs| => wire.encodeInbound(fs[i]))
  }

  function ResponseBodies(wire: Wire, rs: seq<Response>): seq<Bytes> {
    seq(|rs|, i requires 0 <= i < |rs| => wire.encodeResponse(rs[i]))
  }

  // -------------------------------------------------------------- steps of a link

  /** The client writes a frame. After a cut nothing arrives any more. */
  function Written(wire: Wire, l: Link, f: Inbound): Link {
    l.(sent := l.sent + [f], toServer := if l.cut then l.toServer else l.toServer + Frame(wire.encodeInbound(f)))
  }

  /** The server reads a frame: a message is then being handled, an event is dispatched at once. */
  function Taken(wire: Wire, l: Link, eventResult: Result): Link
    requires Parse(l.toServer).Body?
  {
    var p := Parse(l.toServer);
    match wire.decodeInbound(p.body)
    case None => l.(toServer := p.rest, serverUp := false)
    case Some(f) =>
      var next := l.(toServer := p.rest, taken := l.taken + 1);
      if f.Message? then next.(busy := Some(f)) else next.(log := l.log + [Dispatch(f, eventResult, false)])
  }

  /** The handler answers; the response may or may not get onto the wire. */
  function Replied(wire: Wire, l: Link, result: Result, written: bool): Link
    requires l.busy.Some? && l.busy.value.Message?
  {
    var sent := written && !l.cut;
    l.(busy := None, log := l.log + [Dispatch(l.busy.value, result, sent)],
       toClient := if sent then l.toClient + Frame(wire.encodeResponse(Response(l.busy.value.id, result)))
           else l.toClient)
  }

  /** The client reads a body and decodes it, if it can. */
  function Fetched(wire: Wire, l: Link): Link
    requires Parse(l.toClient).Body?
  {
    var p := Parse(l.toClient);
    var reply := wire.decodeResponse(p.body);
    l.(toClient := p.rest, received := l.received + 1, got := l.got + if reply.Some? then [reply.value] else [])
  }

  /** The network fails: parts of what was in flight are lost, from some byte on. */
  function CutOff(l: Link, i: nat, j: nat): Link
    requires i <= |l.toServer| && j <= |l.toClient|
  {
    l.(toServer := l.toServer[..i], toClient := l.toClient[..j], cut := true)
  }

  // -------------------------------------------------------- invariant of a link

  ghost predicate InFlight(bytes: Bytes, bodies: seq<Bytes>, cut: bool) {
    if cut then bytes <= Stream(bodies) else bytes == Stream(bodies)
  }

  ghost predicate LinkValid(wire: Wire, l: Link) {
    && l.taken <= |l.sent| && l.received <= |ResponsesTo(l.log)| && l.got == ResponsesTo(l.log)[..l.received]
    && (l.busy.Some? ==> l.busy.value.Message?)
    && FramesOf(l.log) + (if l.busy.Some? then [l.busy.value] else []) == l.sent[..l.taken]
    && (forall f | f in l.sent :: Fits(wire.encodeInbound(f)))
    && (forall r | r in ResponsesTo(l.log) :: Fits(wire.encodeResponse(r)))
    && InFlight(l.toServer, InboundBodies(wire, l.sent[l.taken..]), l.cut)
    && InFlight(l.toClient, ResponseBodies(wire, ResponsesTo(l.log)[l.received..]), l.cut)
  }

  /** A body read from a stream that was cut somewhere is the body that was sent first. */
  lemma CutParse(bytes: Bytes, body: Bytes, tail: Bytes)
    requires bytes <= Frame(body) + tail && Parse(bytes).Body? && Fits(body)
    ensures Parse(bytes).body == body && Parse(bytes).rest <= tail
  {
    hide BigEndian, FromBigEndian;
    BigEndianRoundTrip(|body|);
    var s := Frame(body) + tail;
    assert s[..LENGTH_PREFIX_BYTES] == BigEndian(|body|);
    assert bytes == s[..|bytes|];
    assert bytes[..LENGTH_PREFIX_BYTES] == s[..LENGTH_PREFIX_BYTES];
    var n := LENGTH_PREFIX_BYTES + |body|;
    assert s[LENGTH_PREFIX_BYTES..n] == body && s[n..] == tail;
    assert bytes[LENGTH_PREFIX_BYTES..n] == s[LENGTH_PREFIX_BYTES..n];
    assert bytes[n..] == tail[..|bytes| - n];
  }

  /** What is read from the wire is the first body in flight. */
  lemma FirstInFlight(bytes: Bytes, bodies: seq<Bytes>, cut: bool)
    requires InFlight(bytes, bodies, cut) && Parse(bytes).Body? && forall b | b in bodies :: Fits(b)
    ensures bodies != [] && Parse(bytes).body == bodies[0] && InFlight(Parse(bytes).rest, bodies[1..], cut)
  {
    hide Parse, Frame, Fits;
    NothingToParse();
    if bodies != [] {
      assert bodies[0] in bodies;
      if cut {
        CutParse(bytes, bodies[0], Stream(bodies[1..]));
      } else {
        WholeParse(bodies[0], Stream(bodies[1..]));
      }
    }
  }

  lemma WholeParse(body: Bytes, tail: Bytes)
    requires Fits(body) && Parse(Frame(body) + tail).Body?
    ensures Parse(Frame(body) + tail) == Body(body, tail)
  {
    hide Parse, Frame;
    ParseFrame(body, tail);
  }

  lemma WrittenKeeps(wire: Wire, l: Link, f: Inbound)
    requires LinkValid(wire, l) && Fits(wire.encodeInbound(f))
    ensures LinkValid(wire, Written(wire, l, f))
  {
    hide FramesOf, ResponsesTo, Stream, Frame;
    var next := Written(wire, l, f);
    var bodies := InboundBodies(wire, l.sent[l.taken..]);
    assert next.sent[..l.taken] == l.sent[..l.taken];
    assert InboundBodies(wire, next.sent[l.taken..]) == bodies + [wire.encodeInbound(f)];
    StreamMore(bodies, wire.encodeInbound(f));
  }

  lemma TakenKeeps(wire: Wire, l: Link, eventResult: Result)
    requires Lawful(wire) && LinkValid(wire, l) && l.busy.None? && Parse(l.toServer).Body?
    ensures LinkValid(wire, Taken(wire, l, eventResult))
  {
    hide FramesOf, ResponsesTo, Stream, Parse, InFlight, ResponseBodies, InboundBodies, Fits, Lawful;
    TakenIsNext(wire, l);
    var f := l.sent[l.taken];
    var before, rs := FramesOf(l.log), ResponsesTo(l.log);
    assert before == l.sent[..l.taken] by { assert before + [] == before; }
    assert l.sent[..l.taken + 1] == l.sent[..l.taken] + [f];
    if f.Notice? {
      DispatchOne(wire, l.log, Dispatch(f, eventResult, false));
      assert rs + [] == rs && (before + [f]) + [] == before + [f];
    }
  }

  /** The server reads the first frame it has not taken yet. */
  lemma TakenIsNext(wire: Wire, l: Link)
    requires Lawful(wire) && LinkValid(wire, l) && Parse(l.toServer).Body?
    ensures l.taken < |l.sent| && wire.decodeInbound(Parse(l.toServer).body) == Some(l.sent[l.taken])
    ensures InFlight(Parse(l.toServer).rest, InboundBodies(wire, l.sent[l.taken + 1..]), l.cut)
  {
    hide FramesOf, ResponsesTo, Stream, Parse, InFlight, ResponseBodies, Fits;
    var waiting := l.sent[l.taken..];
    var bodies := InboundBodies(wire, waiting);
    FirstInFlight(l.toServer, bodies, l.cut);
    assert bodies[0] == wire.encodeInbound(waiting[0]) && waiting[0] == l.sent[l.taken];
    assert bodies[1..] == InboundBodies(wire, l.sent[l.taken + 1..]);
  }

  lemma RepliedKeeps(wire: Wire, l: Link, result: Result, written: bool)
    requires LinkValid(wire, l) && l.busy.Some?
    requires written ==> Fits(wire.encodeResponse(Response(l.busy.value.id, result)))
    ensures LinkValid(wire, Replied(wire, l, result, written))
  {
    hide FramesOf, ResponsesTo, Stream, Frame;
    var sent := written && !l.cut;
    var rs := ResponsesTo(l.log);
    var bodies := ResponseBodies(wire, rs[l.received..]);
    var r := Response(l.busy.value.id, result);
    DispatchOne(wire, l.log, Dispatch(l.busy.value, result, sent));
    if sent {
      assert ResponseBodies(wire, (rs + [r])[l.received..]) == bodies + [wire.encodeResponse(r)];
      StreamMore(bodies, wire.encodeResponse(r));
    } else {
      assert rs + [] == rs;
    }
  }

  lemma FetchedKeeps(wire: Wire, l: Link)
    requires Lawful(wire) && LinkValid(wire, l) && Parse(l.toClient).Body?
    ensures LinkValid(wire, Fetched(wire, l))
    ensures l.received < |ResponsesTo(l.log)|
    ensures wire.decodeResponse(Parse(l.toClient).body) == Some(ResponsesTo(l.log)[l.received])
  {
    hide FramesOf, ResponsesTo, Stream, Parse, InFlight, InboundBodies, Fits;
    var waiting := ResponsesTo(l.log)[l.received..];
    var bodies := ResponseBodies(wire, waiting);
    FirstInFlight(l.toClient, bodies, l.cut);
    assert bodies[0] == wire.encodeResponse(waiting[0]);
    assert bodies[1..] == ResponseBodies(wire, ResponsesTo(l.log)[l.received + 1..]);
    assert ResponsesTo(l.log)[..l.received + 1] == l.got + [waiting[0]];
  }

  lemma CutKeeps(wire: Wire, l: Link, i: nat, j: nat)
    requires LinkValid(wire, l) && i <= |l.toServer| && j <= |l.toClient|
    ensures LinkValid(wire, CutOff(l, i, j))
  {
    hide FramesOf, ResponsesTo, Stream, InboundBodies, ResponseBodies;
  }

  // ------------------------------------------------------------------ the system

  datatype System = System(links: seq<Link>, current: Option<nat>, desk: Desk, requests: map<Id, (Payload, Payload)>)

  const START := System([], None, EMPTY, map[])

  datatype Action =
    | Connect
    | SendMessage(id: Id, pattern: Payload, data: Payload, written: bool)
    | Emit(pattern: Payload, data: Payload)
    | FailWrite(id: Id, error: int)
    | Take(k: nat, eventResult: Result)
    | Answer(k: nat, result: Result, written: bool)
    | StopServer(k: nat)
    | Receive(k: nat)
    | StopClient(k: nat)
    | Close
    | Cut(k: nat, i: nat, j: nat)

  predicate Can(wire: Wire, s: System, a: Action) {
    match a
    case Connect => s.current.None?
    case SendMessage(id, pattern, data, written) =>
      && id !in s.desk.issued && (s.current.Some? ==> s.current.value < |s.links|)
      && (written ==> Fits(wire.encodeInbound(Message(pattern, data, id))))
    case Emit(pattern, data) => s.current.Some? && s.current.value < |s.links|
          && Fits(wire.encodeInbound(Notice(pattern, data)))
    case FailWrite(id, _) => id in s.desk.issued
    case Take(k, _) => k < |s.links| && s.links[k].serverUp && s.links[k].busy.None? && Parse(s.links[k].toServer).Body?
    case Answer(k, result, written) =>
      && k < |s.links| && s.links[k].busy.Some? && s.links[k].busy.value.Message?
      && (written ==> Fits(wire.encodeResponse(Response(s.links[k].busy.value.id, result))))
    case StopServer(k) => k < |s.links| && s.links[k].busy.None?
    case Receive(k) => k < |s.links| && s.links[k].clientUp && Parse(s.links[k].toClient).Body?
    case StopClient(k) => k < |s.links| && s.links[k].clientUp
    case Close => true
    case Cut(k, i, j) => k < |s.links| && i <= |s.links[k].toServer| && j <= |s.links[k].toClient|
  }

  function Put(s: System, k: nat, l: Link): System
    requires k < |s.links|
  {
    s.(links := s.links[k := l])
  }

  function Next(wire: Wire, s: System, a: Action): System
    requires Can(wire, s, a)
  {
    match a
    case Connect => s.(links := s.links + [NEW_LINK], current := Some(|s.links|))
    case SendMessage(id, pattern, data, written) =>
      var asked := s.(requests := s.requests[id := (pattern, data)]);
      if s.current.None? then asked.(desk := Step(s.desk, Thrown(id, 0), false))
      else
        var k := s.current.value;
        var issued := asked.(desk := Step(s.desk, Sent(id), false));
        if written then Put(issued, k, Written(wire, s.links[k], Message(pattern, data, id))) else issued
    case Emit(pattern, data) => var k := s.current.value; Put(s, k, Written(wire, s.links[k], Notice(pattern, data)))
    case FailWrite(id, error) => s.(desk := Step(s.desk, WriteFailed(id, error), false))
    case Take(k, eventResult) => Put(s, k, Taken(wire, s.links[k], eventResult))
    case Answer(k, result, written) => Put(s, k, Replied(wire, s.links[k], result, written))
    case StopServer(k) => Put(s, k, s.links[k].(serverUp := false))
    case Receive(k) =>
        Put(s, k, Fetched(wire, s.links[k])).(desk := Received(wire, s.desk, Parse(s.links[k].toClient).body))
    case StopClient(k) => Put(s, k, s.links[k].(clientUp := false)).(desk := Step(s.desk, Shut, false), current := None)
    case Close => s.(desk := Step(s.desk, Shut, false), current := None)
    case Cut(k, i, j) => Put(s, k, CutOff(s.links[k], i, j))
  }

  /** The server dispatched this request's own pattern and data, with this result. */
  ghost predicate Dispatched(s: System, id: Id, result: Result) {
    exists k, j :: 0 <= k < |s.links| && 0 <= j < |s.links[k].log| && Answers(s, k, j, id, result)
  }

  ghost predicate Answers(s: System, k: nat, j: nat, id: Id, result: Result)
    requires k < |s.links| && j < |s.links[k].log|
  {
    && id in s.requests && s.links[k].log[j].frame == Message(s.requests[id].0, s.requests[id].1, id)
    && s.links[k].log[j].result == result
  }

  ghost predicate Justified(s: System, id: Id, x: Settlement) {
    match x
    case Resolved(v) => Dispatched(s, id, Value(v))
    case Rejected(Remote(m)) => Dispatched(s, id, Failed(m))
    case _ => true
  }

  /** Every message on a connection is the request of its id. */
  ghost predicate Registered(s: System, l: Link) {
    forall i | 0 <= i < |l.sent| && l.sent[i].Message? ::
      && l.sent[i].id in s.requests && s.requests[l.sent[i].id] == (l.sent[i].pattern, l.sent[i].data)
      && l.sent[i].id in s.desk.issued
  }

  /** No id is used for two messages. */
  ghost predicate OneMessageEach(s: System) {
    forall k, i, m, j |
      0 <= k < |s.links| && 0 <= i < |s.links[k].sent| && 0 <= m < |s.links| && 0 <= j < |s.links[m].sent| ::
      (s.links[k].sent[i].Message? && s.links[m].sent[j].Message?
       && s.links[k].sent[i].id == s.links[m].sent[j].id) ==> k == m && i == j
  }

  ghost predicate Invariant(wire: Wire, s: System) {
    && (forall k | 0 <= k < |s.links| :: LinkValid(wire, s.links[k]) && Registered(s, s.links[k]))
    && (s.current.Some? ==> s.current.value < |s.links|)
    && Valid(s.desk, false) && OneMessageEach(s)
    && (forall id | id in s.requests :: id in s.desk.issued)
    && (forall id | id in s.desk.settled :: Justified(s, id, s.desk.settled[id]))
  }

  /** Nothing that was dispatched or asked is forgotten. */
  ghost predicate Grows(s: System, t: System) {
    && |s.links| <= |t.links| && (forall k | 0 <= k < |s.links| :: s.links[k].log <= t.links[k].log)
    && (forall id | id in s.requests :: id in t.requests && t.requests[id] == s.requests[id])
  }

  lemma JustifiedStays(s: System, t: System, id: Id, x: Settlement)
    requires Grows(s, t) && Justified(s, id, x)
    ensures Justified(t, id, x)
  {
    if x.Resolved? {
      DispatchedStays(s, t, id, Value(x.value));
    } else if x.reason.Remote? {
      DispatchedStays(s, t, id, Failed(x.reason.message));
    }
  }

  lemma DispatchedStays(s: System, t: System, id: Id, result: Result)
    requires Grows(s, t) && Dispatched(s, id, result)
    ensures Dispatched(t, id, result)
  {
    var k, j :| 0 <= k < |s.links| && 0 <= j < |s.links[k].log| && Answers(s, k, j, id, result);
    assert t.links[k].log[j] == s.links[k].log[j];
    assert Answers(t, k, j, id, result);
  }

  /** A response in flight is the dispatch of the request with its id. */
  lemma ResponseIsDispatched(wire: Wire, s: System, k: nat, i: nat)
    requires Invariant(wire, s) && k < |s.links| && i < |ResponsesTo(s.links[k].log)|
    ensures var r := ResponsesTo(s.links[k].log)[i]; Dispatched(s, r.id, r.result)
  {
    hide Valid, Justified, InFlight;
    var l := s.links[k];
    var from := ResponsesFollowMessages(l.log);
    var j := from[i];
    FramesAt(l.log, j);
    assert l.sent[j] == l.sent[..l.taken][j] == l.log[j].frame;
    assert Registered(s, l);
    assert Answers(s, k, j, l.log[j].frame.id, l.log[j].result);
  }

  lemma {:induction false} FramesAt(log: seq<Dispatch>, j: nat)
    requires j < |log|
    ensures |FramesOf(log)| == |log| && FramesOf(log)[j] == log[j].frame
    decreases |log|
  {
    var n := |log| - 1;
    if j < n {
      FramesAt(log[..n], j);
    } else if n > 0 {
      FramesAt(log[..n], 0);
    }
  }

  // ------------------------------------------------------------ every step is safe

  /** A step that changes one connection, and nothing that was sent on it. */
  lemma OneLink(wire: Wire, s: System, k: nat, l: Link)
    requires Invariant(wire, s) && k < |s.links| && LinkValid(wire, l) && l.sent == s.links[k].sent
             && s.links[k].log <= l.log
    ensures Invariant(wire, Put(s, k, l)) && Grows(s, Put(s, k, l))
  {
    hide LinkValid, Valid, Justified;
    var t := Put(s, k, l);
    assert forall m | 0 <= m < |t.links| :: t.links[m].sent == s.links[m].sent;
    assert OneMessageEach(t);
    forall id | id in s.desk.settled
      ensures Justified(t, id, s.desk.settled[id])
    {
      JustifiedStays(s, t, id, s.desk.settled[id]);
    }
    assert forall m | 0 <= m < |t.links| :: Registered(s, s.links[m]) && Registered(t, t.links[m]);
  }

  /** A step of the client's bookkeeping, with the new settlements justified. */
  lemma OneEvent(wire: Wire, s: System, e: Event, current: Option<nat>)
    requires Invariant(wire, s) && Possible(s.desk, e, false) && (current == None || current == s.current)
    requires e.Answered? ==> Justified(s, e.id, e.settlement)
    ensures var t := s.(desk := Step(s.desk, e, false), current := current); Invariant(wire, t) && Grows(s, t)
  {
    hide LinkValid, Valid, OneMessageEach;
    var t := s.(desk := Step(s.desk, e, false), current := current);
    StepKeeps(s.desk, e, false);
    OneMessageStays(s, t);
    forall id | id in t.desk.settled
      ensures Justified(t, id, t.desk.settled[id])
    {
      if id in s.desk.settled {
        JustifiedStays(s, t, id, s.desk.settled[id]);
      } else if e.Answered? {
        JustifiedStays(s, t, e.id, e.settlement);
      }
    }
    assert forall m | 0 <= m < |t.links| :: Registered(s, s.links[m]) && Registered(t, t.links[m]);
  }

  lemma OneMessageStays(s: System, t: System)
    requires OneMessageEach(s) && t.links == s.links
    ensures OneMessageEach(t)
  {
  }

  /** A new request: its id is new everywhere. */
  lemma OneRequest(wire: Wire, s: System, id: Id, pattern: Payload, data: Payload, e: Event)
    requires Invariant(wire, s) && id !in s.desk.issued && (e == Sent(id) || e == Thrown(id, 0))
    ensures var t := s.(requests := s.requests[id := (pattern, data)], desk := Step(s.desk, e, false));
            Invariant(wire, t) && Grows(s, t)
  {
    hide LinkValid, Valid, OneMessageEach;
    var u := s.(desk := Step(s.desk, e, false));
    OneEvent(wire, s, e, s.current);
    var t := u.(requests := s.requests[id := (pattern, data)]);
    OneMessageStays(s, t);
    assert Grows(u, t) && Grows(s, t);
    forall x | x in t.desk.settled
      ensures Justified(t, x, t.desk.settled[x])
    {
      JustifiedStays(u, t, x, u.desk.settled[x]);
    }
    assert forall m | 0 <= m < |t.links| :: Registered(s, s.links[m]) && Registered(t, t.links[m]);
    assert id in t.desk.issued;
  }

  lemma OneFrame(wire: Wire, s: System, k: nat, f: Inbound)
    requires Invariant(wire, s) && k < |s.links| && Fits(wire.encodeInbound(f))
    requires f.Message? ==> f.id in s.requests && s.requests[f.id] == (f.pattern, f.data)
    requires f.Message? ==> forall m, i | 0 <= m < |s.links| && 0 <= i < |s.links[m].sent|
                 && s.links[m].sent[i].Message? :: s.links[m].sent[i].id != f.id
    ensures var t := Put(s, k, Written(wire, s.links[k], f)); Invariant(wire, t) && Grows(s, t)
  {
    hide LinkValid, Valid, Justified;
    var t := Put(s, k, Written(wire, s.links[k], f));
    WrittenKeeps(wire, s.links[k], f);
    forall id | id in s.desk.settled
      ensures Justified(t, id, s.desk.settled[id])
    {
      JustifiedStays(s, t, id, s.desk.settled[id]);
    }
    assert forall m | 0 <= m < |t.links| :: Registered(s, s.links[m]) && Registered(t, t.links[m]);
  }

  lemma NextKeeps(wire: Wire, s: System, a: Action)
    requires Lawful(wire) && Invariant(wire, s) && Can(wire, s, a)
    ensures Invariant(wire, Next(wire, s, a)) && Grows(s, Next(wire, s, a))
  {
    hide LinkValid, Valid, Justified, Lawful, Invariant, Grows, Step, Parse, Written, Taken, Replied, Received;
    match a
    case Connect => NewLink(wire, s);
    case SendMessage(id, pattern, data, written) =>
      SendKeeps(wire, s, id, pattern, data, written);
    case Emit(pattern, data) => OneFrame(wire, s, s.current.value, Notice(pattern, data));
    case FailWrite(id, error) => OneEvent(wire, s, WriteFailed(id, error), s.current);
    case Take(k, eventResult) =>
      LinkFacts(wire, s, k);
      TakenKeeps(wire, s.links[k], eventResult);
      TakenSent(wire, s.links[k], eventResult);
      OneLink(wire, s, k, Taken(wire, s.links[k], eventResult));
    case Answer(k, result, written) =>
      LinkFacts(wire, s, k);
      RepliedKeeps(wire, s.links[k], result, written);
      TakenReply(wire, s.links[k], result, written);
      OneLink(wire, s, k, Replied(wire, s.links[k], result, written));
    case StopServer(k) =>
      LinkFacts(wire, s, k);
      OneLink(wire, s, k, s.links[k].(serverUp := false));
    case Receive(k) => ReceiveKeeps(wire, s, k);
    case StopClient(k) =>
      LinkFacts(wire, s, k);
      var t := Put(s, k, s.links[k].(clientUp := false));
      OneLink(wire, s, k, s.links[k].(clientUp := false));
      OneEvent(wire, t, Shut, None);
      GrowsTwice(s, t, Next(wire, s, a));
    case Close => OneEvent(wire, s, Shut, None);
    case Cut(k, i, j) =>
      LinkFacts(wire, s, k);
      CutKeeps(wire, s.links[k], i, j);
      OneLink(wire, s, k, CutOff(s.links[k], i, j));
  }

  lemma LinkFacts(wire: Wire, s: System, k: nat)
    requires Invariant(wire, s) && k < |s.links|
    ensures LinkValid(wire, s.links[k])
    ensures LinkValid(wire, s.links[k].(serverUp := false)) && LinkValid(wire, s.links[k].(clientUp := false))
  {
    hide Valid, Justified;
  }

  lemma TakenSent(wire: Wire, l: Link, eventResult: Result)
    requires Parse(l.toServer).Body?
    ensures Taken(wire, l, eventResult).sent == l.sent && l.log <= Taken(wire, l, eventResult).log
  {
  }

  lemma TakenReply(wire: Wire, l: Link, result: Result, written: bool)
    requires l.busy.Some? && l.busy.value.Message?
    ensures Replied(wire, l, result, written).sent == l.sent && l.log <= Replied(wire, l, result, written).log
  {
  }

  lemma GrowsTwice(s: System, t: System, u: System)
    requires Grows(s, t) && Grows(t, u)
    ensures Grows(s, u)
  {
  }

  lemma NewLink(wire: Wire, s: System)
    requires Invariant(wire, s) && s.current.None?
    ensures var t := s.(links := s.links + [NEW_LINK], current := Some(|s.links|)); Invariant(wire, t) && Grows(s, t)
  {
    hide Valid, Justified, LinkValid, OneMessageEach;
    var t := s.(links := s.links + [NEW_LINK], current := Some(|s.links|));
    NewIsValid(wire);
    NewSendsNothing(s);
    forall id | id in s.desk.settled
      ensures Justified(t, id, s.desk.settled[id])
    {
      JustifiedStays(s, t, id, s.desk.settled[id]);
    }
    assert forall m | 0 <= m < |s.links| :: t.links[m] == s.links[m] && Registered(s, s.links[m]) && Registered(t,
               t.links[m]);
  }

  lemma NewSendsNothing(s: System)
    requires OneMessageEach(s)
    ensures OneMessageEach(s.(links := s.links + [NEW_LINK], current := Some(|s.links|)))
  {
  }

  lemma NewIsValid(wire: Wire)
    ensures LinkValid(wire, NEW_LINK)
  {
    assert NEW_LINK.sent[..0] == [] && NEW_LINK.sent[0..] == [];
  }

  lemma SendKeeps(wire: Wire, s: System, id: Id, pattern: Payload, data: Payload, written: bool)
    requires Invariant(wire, s) && Can(wire, s, SendMessage(id, pattern, data, written))
    ensures var t := Next(wire, s, SendMessage(id, pattern, data, written)); Invariant(wire, t) && Grows(s, t)
  {
    hide LinkValid, Valid, Justified, Invariant, Grows, Step, Written;
    var e := if s.current.None? then Thrown(id, 0) else Sent(id);
    var t := s.(requests := s.requests[id := (pattern, data)], desk := Step(s.desk, e, false));
    OneRequest(wire, s, id, pattern, data, e);
    if s.current.Some? && written {
      NeverSent(wire, s, id);
      OneFrame(wire, t, s.current.value, Message(pattern, data, id));
      GrowsTwice(s, t, Next(wire, s, SendMessage(id, pattern, data, written)));
    }
  }

  lemma NeverSent(wire: Wire, s: System, id: Id)
    requires Invariant(wire, s) && id !in s.desk.issued
    ensures forall m, i | 0 <= m < |s.links| && 0 <= i < |s.links[m].sent| && s.links[m].sent[i].Message? ::
              s.links[m].sent[i].id != id
  {
    hide LinkValid, Valid, Justified;
    assert forall m | 0 <= m < |s.links| :: Registered(s, s.links[m]);
  }

  lemma ReceiveKeeps(wire: Wire, s: System, k: nat)
    requires Lawful(wire) && Invariant(wire, s) && Can(wire, s, Receive(k))
    ensures Invariant(wire, Next(wire, s, Receive(k))) && Grows(s, Next(wire, s, Receive(k)))
  {
    hide LinkValid, Valid, Lawful, Invariant, Grows, Step, Parse, Dispatched;
    var l := s.links[k];
    LinkFacts(wire, s, k);
    FetchedKeeps(wire, l);
    var r := ResponsesTo(l.log)[l.received];
    ResponseIsDispatched(wire, s, k, l.received);
    var e := Answered(r.id, Outcome(r.result));
    OneEvent(wire, s, e, s.current);
    var t := s.(desk := Step(s.desk, e, false), current := s.current);
    OneLink(wire, t, k, Fetched(wire, l));
    GrowsTwice(s, t, Put(t, k, Fetched(wire, l)));
  }

  // ------------------------------------------------------------------ whole runs

  ghost predicate Runs(wire: Wire, states: seq<System>, actions: seq<Action>) {
    && |states| == |actions| + 1 && states[0] == START
    && forall i | 0 <= i < |actions| :: Can(wire, states[i], actions[i]) && states[i + 1] == Next(wire, states[i],
           actions[i])
  }

  lemma {:induction false} RunIsSafe(wire: Wire, states: seq<System>, actions: seq<Action>, i: nat)
    requires Lawful(wire) && Runs(wire, states, actions) && i < |states|
    ensures Invariant(wire, states[i])
    decreases i
  {
    hide Next, Can;
    if i > 0 {
      RunIsSafe(wire, states, actions, i - 1);
      NextKeeps(wire, states[i - 1], actions[i - 1]);
    }
  }

  /** Replies are never cross-wired: in every run, a request that was resolved with a value, or rejected with
      the server's error, was dispatched by the server with its own pattern and data and that very outcome. */
  lemma NoCrossWiring(wire: Wire, states: seq<System>, actions: seq<Action>, i: nat, id: Id)
    requires Lawful(wire) && Runs(wire, states, actions) && i < |states| && id in states[i].desk.settled
    ensures match states[i].desk.settled[id]
            case Resolved(v) => Dispatched(states[i], id, Value(v))
            case Rejected(Remote(m)) => Dispatched(states[i], id, Failed(m))
            case _ => true
  {
    hide LinkValid, Valid, Dispatched;
    RunIsSafe(wire, states, actions, i);
    assert Justified(states[i], id, states[i].desk.settled[id]);
  }

  // -------------------------------------------------------- how requests are settled

  /** The action that gives a request this outcome. */
  ghost predicate Gives(wire: Wire, s: System, a: Action, id: Id, x: Settlement)
    requires Can(wire, s, a)
  {
    match a
    case Receive(k) => Tells(wire.decodeResponse(Parse(s.links[k].toClient).body), id, x)
    case StopClient(_) => x == Rejected(Closed)
    case Close => x == Rejected(Closed)
    case FailWrite(y, error) => y == id && x == Rejected(Local(error))
    case SendMessage(y, _, _, _) => y == id && s.current.None? && x == Rejected(Local(0))
    case _ => false
  }

  predicate Tells(reply: Option<Response>, id: Id, x: Settlement) {
    match reply
    case Some(Response(y, Value(value))) => y == id && x == Resolved(value)
    case Some(Response(y, Failed(message))) => y == id && x == Rejected(Remote(message))
    case None => false
  }

  /** A request is settled by what gives it an outcome, and by nothing else. */
  lemma GivenIsSettled(wire: Wire, s: System, a: Action, id: Id)
    requires Valid(s.desk, false) && Can(wire, s, a) && id !in s.desk.settled
    ensures var t := Next(wire, s, a);
            && (id in t.desk.settled ==> Gives(wire, s, a, id, t.desk.settled[id]))
            && (forall x | Gives(wire, s, a, id, x) && (id in s.desk.pending || a.SendMessage?) ::
                  id in t.desk.settled && t.desk.settled[id] == x)
  {
    hide Parse, Written, Taken, Replied, Fetched, CutOff, Fits;
  }

  lemma {:induction false} SettledStay(wire: Wire, states: seq<System>, actions: seq<Action>, i: nat, j: nat)
    requires Lawful(wire) && Runs(wire, states, actions) && i <= j < |states|
    ensures Later(states[i].desk, states[j].desk) && states[j].desk.orphaned == states[i].desk.orphaned
    decreases j - i
  {
    hide Next, Can, Invariant;
    if i < j {
      SettledStay(wire, states, actions, i, j - 1);
      RunIsSafe(wire, states, actions, j - 1);
      DeskIsLater(wire, states[j - 1], actions[j - 1]);
    }
  }

  lemma DeskIsLater(wire: Wire, s: System, a: Action)
    requires Invariant(wire, s) && Can(wire, s, a)
    ensures Later(s.desk, Next(wire, s, a).desk) && Next(wire, s, a).desk.orphaned == s.desk.orphaned
  {
    hide Parse, Written, Taken, Replied, Fetched, CutOff, Fits, LinkValid, Registered, OneMessageEach, Justified;
  }

  /** In every run, what a settled request was told was given to it by an action: its own response, its own failed
      write, or the end of a connection. */
  lemma {:induction false} SettledByAction(wire: Wire, states: seq<System>, actions: seq<Action>, i: nat, id: Id)
    returns (j: nat)
    requires Lawful(wire) && Runs(wire, states, actions) && i < |states| && id in states[i].desk.settled
    ensures j < i && id !in states[j].desk.settled && Can(wire, states[j], actions[j])
    ensures Gives(wire, states[j], actions[j], id, states[i].desk.settled[id])
    decreases i
  {
    hide Next, Can, Invariant, Valid, Gives;
    if id in states[i - 1].desk.settled {
      SettledStay(wire, states, actions, i - 1, i);
      j := SettledByAction(wire, states, actions, i - 1, id);
    } else {
      j := i - 1;
      RunIsSafe(wire, states, actions, j);
      DeskIsValid(wire, states[j]);
      GivenIsSettled(wire, states[j], actions[j], id);
    }
  }

  lemma DeskIsValid(wire: Wire, s: System)
    requires Invariant(wire, s)
    ensures Valid(s.desk, false)
  {
    hide LinkValid, Registered, OneMessageEach, Justified, Valid;
  }

  /** And conversely: the first outcome that is given to a waiting request is what its caller gets, for good. */
  lemma {:induction false} FirstOutcomeIsFinal(wire: Wire, states: seq<System>, actions: seq<Action>, j: nat, i: nat,
                                               id: Id, x: Settlement)
    requires Lawful(wire) && Runs(wire, states, actions) && j < i < |states|
    requires id in states[j].desk.pending && id !in states[j].desk.settled && Can(wire, states[j], actions[j])
    requires Gives(wire, states[j], actions[j], id, x)
    ensures id in states[i].desk.settled && states[i].desk.settled[id] == x
  {
    hide Next, Can, Invariant, Valid, Gives;
    RunIsSafe(wire, states, actions, j);
    DeskIsValid(wire, states[j]);
    PendingIsIssued(states[j].desk, id);
    GivenIsSettled(wire, states[j], actions[j], id);
    SettledStay(wire, states, actions, j + 1, i);
  }

  lemma PendingIsIssued(d: Desk, id: Id)
    requires Valid(d, false) && id in d.pending
    ensures id in d.issued
  {
  }

  /** In every run, a request whose response the client has read is settled: with the outcome of that response, unless
      its write had failed or a connection had ended before. */
  lemma {:induction false} ReadIsSettled(wire: Wire, states: seq<System>, actions: seq<Action>, i: nat, k: nat, n: nat)
    requires Lawful(wire) && Runs(wire, states, actions) && i < |states|
    requires k < |states[i].links| && n < |states[i].links[k].got|
    ensures var r := states[i].links[k].got[n];
            && r.id in states[i].desk.settled
            && match states[i].desk.settled[r.id]
               case Resolved(value) => r.result == Value(value)
               case Rejected(Remote(message)) => r.result == Failed(message)
               case Rejected(reason) => reason == Closed || reason.Local?
  {
    hide Next, Can, Valid, Justified, InFlight, Dispatched, Invariant, LinkValid, Gives;
    var s := states[i];
    RunIsSafe(wire, states, actions, i);
    GotIsSettled(wire, states, actions, i, k, n);
    var r := s.links[k].got[n];
    NoCrossWiring(wire, states, actions, i, r.id);
    var j := SettledByAction(wire, states, actions, i, r.id);
    GivenKinds(wire, states[j], actions[j], r.id, s.desk.settled[r.id]);
    GotIsResponse(wire, s, k, n);
    ResponseIsDispatched(wire, s, k, n);
    if s.desk.settled[r.id].Resolved? {
      SameDispatch(wire, states, actions, i, r.id, r.result, Value(s.desk.settled[r.id].value));
    } else if s.desk.settled[r.id].reason.Remote? {
      SameDispatch(wire, states, actions, i, r.id, r.result, Failed(s.desk.settled[r.id].reason.message));
    }
  }

  lemma GivenKinds(wire: Wire, s: System, a: Action, id: Id, x: Settlement)
    requires Can(wire, s, a) && Gives(wire, s, a, id, x)
    ensures x.Resolved? || x.reason.Remote? || x.reason == Closed || x.reason.Local?
  {
  }

  lemma GotIsResponse(wire: Wire, s: System, k: nat, n: nat)
    requires Invariant(wire, s) && k < |s.links| && n < |s.links[k].got|
    ensures n < |ResponsesTo(s.links[k].log)| && s.links[k].got[n] == ResponsesTo(s.links[k].log)[n]
  {
    hide Valid, Justified, InFlight;
    LinkFacts(wire, s, k);
  }

  /** A request has one result. */
  lemma {:induction false} SameDispatch(wire: Wire, states: seq<System>, actions: seq<Action>, i: nat, id: Id,
                                        a: Result, b: Result)
    requires Lawful(wire) && Runs(wire, states, actions) && i < |states|
    requires Dispatched(states[i], id, a) && Dispatched(states[i], id, b)
    ensures a == b
  {
    hide Next, Can, Invariant;
    var s := states[i];
    var k, n :| 0 <= k < |s.links| && 0 <= n < |s.links[k].log| && Answers(s, k, n, id, a);
    var l, m :| 0 <= l < |s.links| && 0 <= m < |s.links[l].log| && Answers(s, l, m, id, b);
    DispatchedOnce(wire, states, actions, i, k, n, l, m);
  }

  lemma {:induction false} GotIsSettled(wire: Wire, states: seq<System>, actions: seq<Action>, i: nat, k: nat, n: nat)
    requires Lawful(wire) && Runs(wire, states, actions) && i < |states|
    requires k < |states[i].links| && n < |states[i].links[k].got|
    ensures states[i].links[k].got[n].id in states[i].desk.settled
    decreases i
  {
    hide Next, Can, Valid, Invariant, LinkValid, Runs;
    if i > 0 {
      RunsAtStart(wire, states, actions);
      var s, a := states[i - 1], actions[i - 1];
      RunIsSafe(wire, states, actions, i - 1);
      RunsAt(wire, states, actions, i - 1);
      SettledStay(wire, states, actions, 0, i - 1);
      SettledStay(wire, states, actions, i - 1, i);
      GotGrows(wire, s, a, k, n);
      if k < |s.links| && n < |s.links[k].got| {
        GotIsSettled(wire, states, actions, i - 1, k, n);
      }
    } else {
      RunsAtStart(wire, states, actions);
    }
  }

  lemma RunsAt(wire: Wire, states: seq<System>, actions: seq<Action>, i: nat)
    requires Runs(wire, states, actions) && i < |actions|
    ensures i + 1 < |states| && Can(wire, states[i], actions[i]) && states[i + 1] == Next(wire, states[i], actions[i])
  {
  }

  lemma RunsAtStart(wire: Wire, states: seq<System>, actions: seq<Action>)
    requires Runs(wire, states, actions)
    ensures |states| > 0 && |states| == |actions| + 1 && states[0] == START
  {
  }

  /** What the client reads on a connection is kept, and settles the request it is about. */
  lemma GotGrows(wire: Wire, s: System, a: Action, k: nat, n: nat)
    requires Lawful(wire) && Invariant(wire, s) && Can(wire, s, a) && s.desk.orphaned == {}
    requires k < |Next(wire, s, a).links| && n < |Next(wire, s, a).links[k].got|
    ensures var t := Next(wire, s, a);
            if k < |s.links| && n < |s.links[k].got| then t.links[k].got[n] == s.links[k].got[n]
            else t.links[k].got[n].id in t.desk.settled
  {
    hide Parse, Fits, LinkValid, Registered, OneMessageEach, Justified, Lawful, InFlight, ResponsesTo, Frame, Invariant;
    if a == Receive(k) && n >= |s.links[k].got| {
      LinkFacts(wire, s, k);
      FetchedKeeps(wire, s.links[k]);
      ResponseIsIssued(wire, s, k, s.links[k].received);
      IssuedIsSettled(wire, s, ResponsesTo(s.links[k].log)[s.links[k].received]);
    }
  }

  lemma ResponseIsIssued(wire: Wire, s: System, k: nat, i: nat)
    requires Invariant(wire, s) && k < |s.links| && i < |ResponsesTo(s.links[k].log)|
    ensures ResponsesTo(s.links[k].log)[i].id in s.desk.issued
  {
    hide LinkValid, Registered, OneMessageEach, Justified;
    ResponseIsDispatched(wire, s, k, i);
  }

  /** A response leaves its request settled: no request of this client is ever orphaned. */
  lemma IssuedIsSettled(wire: Wire, s: System, r: Response)
    requires Invariant(wire, s) && r.id in s.desk.issued && s.desk.orphaned == {}
    ensures r.id in Step(s.desk, Answered(r.id, Outcome(r.result)), false).settled
  {
    hide LinkValid, Registered, OneMessageEach, Justified;
  }

  // ------------------------------------------------------------- nothing is left waiting

  /** The connection was never cut, and every message that was dispatched on it got its response onto the wire. */
  ghost predicate Sound(l: Link) {
    !l.cut && forall j | 0 <= j < |l.log| && l.log[j].frame.Message? :: l.log[j].sent
  }

  /** Nothing is under way on the connection. */
  predicate Quiet(l: Link) {
    l.toServer == [] && l.toClient == [] && l.busy.None?
  }

  /** The action does not damage the connection. */
  predicate Spares(a: Action, k: nat) {
    match a
    case Cut(m, _, _) => m != k
    case Answer(m, _, written) => m == k ==> written
    case _ => true
  }

  lemma SoundStays(wire: Wire, s: System, a: Action, k: nat)
    requires Can(wire, s, a) && Spares(a, k) && k < |Next(wire, s, a).links| && (k < |s.links| ==> Sound(s.links[k]))
    ensures Sound(Next(wire, s, a).links[k])
  {
    hide Parse, Fits, Frame, Step, Received;
  }

  lemma {:induction false} SparedIsSound(wire: Wire, states: seq<System>, actions: seq<Action>, i: nat, k: nat)
    requires Runs(wire, states, actions) && i < |states| && k < |states[i].links|
    requires forall j | 0 <= j < i && j < |actions| :: Spares(actions[j], k)
    ensures Sound(states[i].links[k])
    decreases i
  {
    hide Next, Can, Runs, Spares, Sound;
    RunsAtStart(wire, states, actions);
    if i > 0 {
      RunsAt(wire, states, actions, i - 1);
      if k < |states[i - 1].links| {
        SparedIsSound(wire, states, actions, i - 1, k);
      }
      SoundStays(wire, states[i - 1], actions[i - 1], k);
    }
  }

  lemma {:induction false} NothingInFlight(bodies: seq<Bytes>)
    ensures bodies != [] ==> Stream(bodies) != []
  {
    hide BigEndian;
    if bodies != [] {
      assert |Frame(bodies[0])| <= |Stream(bodies)|;
    }
  }

  /** On a connection without damage and with nothing under way, every frame was dispatched and every response read. */
  lemma QuietIsDone(wire: Wire, s: System, k: nat)
    requires Invariant(wire, s) && k < |s.links| && Sound(s.links[k]) && Quiet(s.links[k])
    ensures var l := s.links[k]; FramesOf(l.log) == l.sent && l.got == ResponsesTo(l.log)
  {
    hide Stream, Valid, Justified, Registered, OneMessageEach, ResponsesTo, FramesOf;
    var l := s.links[k];
    LinkFacts(wire, s, k);
    NothingInFlight(InboundBodies(wire, l.sent[l.taken..]));
    NothingInFlight(ResponseBodies(wire, ResponsesTo(l.log)[l.received..]));
    assert l.taken == |l.sent| && l.sent[..l.taken] == l.sent;
    assert FramesOf(l.log) + [] == FramesOf(l.log);
  }

  /** In every run, when a connection that no action has damaged is quiet, every message sent on it is settled. */
  lemma {:induction false} QuietIsSettled(wire: Wire, states: seq<System>, actions: seq<Action>, i: nat, k: nat, m: nat)
    requires Lawful(wire) && Runs(wire, states, actions) && i < |states| && k < |states[i].links|
    requires (forall j | 0 <= j < i && j < |actions| :: Spares(actions[j], k)) && Quiet(states[i].links[k])
    requires m < |states[i].links[k].sent| && states[i].links[k].sent[m].Message?
    ensures states[i].links[k].sent[m].id in states[i].desk.settled
  {
    hide Next, Can, Runs, Spares, Invariant, Quiet, ResponsesTo, FramesOf;
    var l := states[i].links[k];
    RunIsSafe(wire, states, actions, i);
    SparedIsSound(wire, states, actions, i, k);
    QuietIsDone(wire, states[i], k);
    var from := ResponsesFollowMessages(l.log);
    FramesHave(l.log, l.sent);
    FramesAt(l.log, m);
    var n :| 0 <= n < |from| && from[n] == m;
    GotIsSettled(wire, states, actions, i, k, n);
  }

  lemma {:induction false} FramesHave(log: seq<Dispatch>, fs: seq<Inbound>)
    requires FramesOf(log) == fs
    ensures |log| == |fs|
  {
    if log != [] {
      FramesAt(log, 0);
    }
  }

  /** In every run, on every connection: the server has dispatched exactly the first frames that were sent, in
      order; the responses it wrote belong to message frames, one each at most, in the order of the requests; and
      what the client has read and decoded are the first of them, each with the id of its request and the
      result of its dispatch. */
  lemma ResponsesFollowRequests(wire: Wire, states: seq<System>, actions: seq<Action>, i: nat, k: nat)
    returns (from: seq<nat>)
    requires Lawful(wire) && Runs(wire, states, actions) && i < |states| && k < |states[i].links|
    ensures var l := states[i].links[k];
            && FramesOf(l.log) <= l.sent && l.got <= ResponsesTo(l.log) && |l.got| == l.received
            && |from| == |ResponsesTo(l.log)|
            && (forall x, y | 0 <= x < y < |from| :: from[x] < from[y])
            && (forall x | 0 <= x < |from| ::
                  && from[x] < |l.log| && from[x] < |l.sent| && l.sent[from[x]].Message?
                  && ResponsesTo(l.log)[x] == Response(l.sent[from[x]].id, l.log[from[x]].result))
  {
    hide Valid, Justified, InFlight;
    RunIsSafe(wire, states, actions, i);
    var l := states[i].links[k];
    LinkFacts(wire, states[i], k);
    from := ResponsesFollowMessages(l.log);
    assert FramesOf(l.log) <= l.sent[..l.taken];
    forall x | 0 <= x < |from|
      ensures from[x] < |l.log| && from[x] < |l.sent| && l.sent[from[x]].Message?
      ensures ResponsesTo(l.log)[x] == Response(l.sent[from[x]].id, l.log[from[x]].result)
    {
      FramesAt(l.log, from[x]);
      assert l.sent[..l.taken][from[x]] == l.log[from[x]].frame;
    }
  }

  /** In every run, no request is dispatched twice, on whatever connections. */
  lemma DispatchedOnce(wire: Wire, states: seq<System>, actions: seq<Action>, n: nat, k: nat, i: nat, m: nat, j: nat)
    requires Lawful(wire) && Runs(wire, states, actions) && n < |states|
    requires var s := states[n];
             && k < |s.links| && m < |s.links| && i < |s.links[k].log| && j < |s.links[m].log|
             && s.links[k].log[i].frame.Message? && s.links[m].log[j].frame.Message?
             && s.links[k].log[i].frame.id == s.links[m].log[j].frame.id
    ensures k == m && i == j
  {
    hide Valid, Justified, InFlight;
    RunIsSafe(wire, states, actions, n);
    var s := states[n];
    LogIsSent(wire, s, k, i);
    LogIsSent(wire, s, m, j);
  }

  lemma LogIsSent(wire: Wire, s: System, k: nat, i: nat)
    requires Invariant(wire, s) && k < |s.links| && i < |s.links[k].log|
    ensures i < |s.links[k].sent| && s.links[k].sent[i] == s.links[k].log[i].frame
  {
    hide Valid, Justified, InFlight;
    var l := s.links[k];
    LinkFacts(wire, s, k);
    FramesAt(l.log, i);
    assert l.sent[..l.taken][i] == l.log[i].frame;
  }
}
