/** The two ends of a TCP microservice connection. */
module TcpTransport {
  import opened Basics
  import opened TcpCodec
  import opened PendingRequests

  /** What a client sends: a message expects a response, an event does not. */
  datatype Inbound = Message(pattern: Payload, data: Payload, id: Id) | Notice(pattern: Payload, data: Payload)

  datatype Result = Value(value: Payload) | Failed(message: Payload)

  datatype Response = Response(id: Id, result: Result)

  /** The serialisation of both kinds of frame. */
  datatype Wire = Wire(
    encodeInbound: Inbound -> Bytes,
    decodeInbound: Bytes -> Option<Inbound>,
    encodeResponse: Response -> Bytes,
    decodeResponse: Bytes -> Option<Response>)

  function Outcome(r: Result): Settlement {
    match r
    case Value(value) => Resolved(value)
    case Failed(message) => Rejected(Remote(message))
  }

  // ---------------------------------------------------------------------- server

  /** One call of a handler. `sent` says whether the response could be written. */
  datatype Dispatch = Dispatch(frame: Inbound, result: Result, sent: bool)

  /** The frames a server handles: those before the first body that cannot be decoded. */
  function Decoded(wire: Wire, bodies: seq<Bytes>): seq<Inbound> {
    if bodies == [] || wire.decodeInbound(bodies[0]).None? then []
    else [wire.decodeInbound(bodies[0]).value] + Decoded(wire, bodies[1..])
  }

  function FramesOf(log: seq<Dispatch>): seq<Inbound> {
    if log == [] then [] else FramesOf(log[..|log| - 1]) + [log[|log| - 1].frame]
  }

  /** The responses to the messages among the dispatched frames, in order. */
  function ResponsesTo(log: seq<Dispatch>): seq<Response> {
    if log == [] then [] else
      var last := log[|log| - 1];
      ResponsesTo(log[..|log| - 1]) + if last.frame.Message? && last.sent then [Response(last.frame.id, last.result)]
          else []
  }

  function ResponseStream(wire: Wire, rs: seq<Response>): Bytes {
    if rs == [] then [] else ResponseStream(wire, rs[..|rs| - 1]) + Frame(wire.encodeResponse(rs[|rs| - 1]))
  }

  lemma {:induction false} DispatchOne(wire: Wire, log: seq<Dispatch>, d: Dispatch)
    ensures FramesOf(log + [d]) == FramesOf(log) + [d.frame]
    ensures ResponsesTo(log + [d]) == ResponsesTo(log) + if d.frame.Message?
            && d.sent then [Response(d.frame.id, d.result)] else []
    ensures ResponseStream(wire, ResponsesTo(log + [d])) ==
              ResponseStream(wire, ResponsesTo(log)) + if d.frame.Message?
                && d.sent then Frame(wire.encodeResponse(Response(d.frame.id, d.result))) else []
  {
    assert (log + [d])[..|log|] == log;
    if d.frame.Message? && d.sent {
      var rs := ResponsesTo(log);
      assert (rs + [Response(d.frame.id, d.result)])[..|rs|] == rs;
    } else {
      assert ResponsesTo(log + [d]) == ResponsesTo(log);
    }
  }

  /** What is written is the stream of the responses, in order. */
  lemma {:induction false} ResponsesAreWritten(wire: Wire, rs: seq<Response>)
    ensures ResponseStream(wire, rs) == Stream(seq(|rs|, i requires 0 <= i < |rs| => wire.encodeResponse(rs[i])))
  {
    hide Frame;
    var bodies := seq(|rs|, i requires 0 <= i < |rs| => wire.encodeResponse(rs[i]));
    if rs != [] {
      var front := rs[..|rs| - 1];
      var before := seq(|front|, i requires 0 <= i < |front| => wire.encodeResponse(front[i]));
      ResponsesAreWritten(wire, front);
      StreamMore(before, wire.encodeResponse(rs[|rs| - 1]));
      assert bodies == before + [wire.encodeResponse(rs[|rs| - 1])];
    }
  }

  lemma {:induction false} StreamMore(bodies: seq<Bytes>, b: Bytes)
    ensures Stream(bodies + [b]) == Stream(bodies) + Frame(b)
  {
    hide Frame;
    if bodies == [] {
      assert bodies + [b] == [b] && [b][1..] == [];
      assert Stream([b]) == Frame(b) + Stream([]);
    } else {
      assert (bodies + [b])[1..] == bodies[1..] + [b];
      StreamMore(bodies[1..], b);
      assert Stream(bodies + [b]) == Frame(bodies[0]) + Stream(bodies[1..] + [b]);
    }
  }

  /** A connection as the server sees it. `handle` is what the handlers answer, `writes` which responses
      can be written. */
  class ServerConnection {
    const wire: Wire
    const conn: Conn
    const handle: (nat, Inbound) -> Result
    const writes: nat -> bool
    var log: seq<Dispatch>
    var outgoing: Bytes

    constructor (wire: Wire, conn: Conn, handle: (nat, Inbound) -> Result, writes: nat -> bool)
      ensures this.wire == wire && this.conn == conn && this.handle == handle && this.writes == writes
      ensures log == [] && outgoing == []
    {
      this.wire, this.conn, this.handle, this.writes, log, outgoing := wire, conn, handle, writes, [], [];
    }

    /** A dispatch with the answer of the handler; only messages are responded to. */
    predicate Handled(i: nat, d: Dispatch) {
      d.result == handle(i, d.frame) && (d.sent <==> d.frame.Message? && writes(i))
    }

    method HandleMessage(frame: Inbound)
      requires frame.Message? && outgoing == ResponseStream(wire, ResponsesTo(log))
      modifies `log, `outgoing
      ensures log == old(log) + [Dispatch(frame, handle(|old(log)|, frame), writes(|old(log)|))]
      ensures FramesOf(log) == FramesOf(old(log)) + [frame] && outgoing == ResponseStream(wire, ResponsesTo(log))
    {
      var result := handle(|log|, frame);
      var sent := writes(|log|);
      DispatchOne(wire, log, Dispatch(frame, result, sent));
      log := log + [Dispatch(frame, result, sent)];
      if sent {
        var bytes := EncodeFrame(wire.encodeResponse(Response(frame.id, result)));
        outgoing := outgoing + bytes[..];
      }
    }

    method HandleEvent(frame: Inbound)
      requires frame.Notice? && outgoing == ResponseStream(wire, ResponsesTo(log))
      modifies `log
      ensures log == old(log) + [Dispatch(frame, handle(|old(log)|, frame), false)]
      ensures FramesOf(log) == FramesOf(old(log)) + [frame] && outgoing == ResponseStream(wire, ResponsesTo(log))
    {
      DispatchOne(wire, log, Dispatch(frame, handle(|log|, frame), false));
      log := log + [Dispatch(frame, handle(|log|, frame), false)];
    }

    /** Handles frames until the stream ends or a frame cannot be read. Every frame is dispatched once, in
        order; the responses written are those of the messages, in the order of the messages. */
    method HandleConnection()
      requires log == [] && outgoing == []
      modifies this, conn`incoming, conn`calls
      ensures outgoing == ResponseStream(wire, ResponsesTo(log))
      ensures forall i | 0 <= i < |log| :: Handled(i, log[i])
      ensures FramesOf(log) <= Decoded(wire, ParseAll(old(conn.incoming)).0)
      ensures conn.Reliable() ==> FramesOf(log) == Decoded(wire, ParseAll(old(conn.incoming)).0)
    {
      hide ResponseStream, ResponsesTo, FramesOf, Parse, ParseAll, Decoded;
      ghost var all := Decoded(wire, ParseAll(conn.incoming).0);
      NothingYet(wire);
      assert [] + all == all;
      while true
        invariant outgoing == ResponseStream(wire, ResponsesTo(log)) && forall i | 0 <= i < |log| :: Handled(i, log[i])
        invariant FramesOf(log) + Decoded(wire, ParseAll(conn.incoming).0) == all
        decreases |conn.incoming|
      {
        ghost var before := conn.incoming;
        var r := ReadFrame(conn);
        if !r.Read? {
          NothingParsed(wire, before);
          assert FramesOf(log) + [] == FramesOf(log);
          return;
        }
        ghost var more := ParseAll(conn.incoming).0;
        OneParsed(before);
        OneDecoded(wire, r.body, more);
        var frame := wire.decodeInbound(r.body);
        if frame.None? {
          return;
        }
        ConcatAssociative(FramesOf(log), [frame.value], Decoded(wire, more));
        if frame.value.Message? {
          HandleMessage(frame.value);
        } else {
          HandleEvent(frame.value);
        }
      }
    }
  }

  lemma {:induction false} NothingParsed(wire: Wire, s: Bytes)
    ensures !Parse(s).Body? ==> ParseAll(s).0 == [] && Decoded(wire, ParseAll(s).0) == []
  {
  }

  lemma {:induction false} OneParsed(s: Bytes)
    requires Parse(s).Body?
    ensures ParseAll(s).0 == [Parse(s).body] + ParseAll(Parse(s).rest).0 && |Parse(s).rest| < |s|
  {
  }

  lemma {:induction false} OneDecoded(wire: Wire, body: Bytes, more: seq<Bytes>)
    ensures Decoded(wire, [body] + more) ==
              if wire.decodeInbound(body).None? then [] else [wire.decodeInbound(body).value] + Decoded(wire, more)
  {
    assert ([body] + more)[1..] == more;
  }

  lemma {:induction false} NothingYet(wire: Wire)
    ensures FramesOf([]) == [] && ResponseStream(wire, ResponsesTo([])) == []
  {
  }

  /** The server handles the frames that the bodies encode, up to the first that encodes none. */
  lemma {:induction false} DecodedAre(wire: Wire, bodies: seq<Bytes>)
    ensures var fs := Decoded(wire, bodies);
            && |fs| <= |bodies| && (forall i | 0 <= i < |fs| :: wire.decodeInbound(bodies[i]) == Some(fs[i]))
            && (|fs| < |bodies| ==> wire.decodeInbound(bodies[|fs|]).None?)
  {
    if bodies != [] {
      DecodedAre(wire, bodies[1..]);
    }
  }

  /** A message is answered at most once, by its own dispatch, and no event is answered: each response
      belongs to a dispatched message of its own, in the same order, and each that could be sent is one of them. */
  lemma {:induction false} ResponsesFollowMessages(log: seq<Dispatch>) returns (from: seq<nat>)
    ensures |from| == |ResponsesTo(log)|
    ensures forall i, j | 0 <= i < j < |from| :: from[i] < from[j]
    ensures forall i | 0 <= i < |from| ::
              && from[i] < |log| && log[from[i]].frame.Message? && log[from[i]].sent
              && ResponsesTo(log)[i] == Response(log[from[i]].frame.id, log[from[i]].result)
    ensures forall j | 0 <= j < |log| && log[j].frame.Message? && log[j].sent :: j in from
  {
    from := [];
    if log != [] {
      var n := |log| - 1;
      var answered := log[n].frame.Message? && log[n].sent;
      var before := ResponsesFollowMessages(log[..n]);
      from := before + if answered then [n] else [];
      forall j | 0 <= j < |log| && log[j].frame.Message? && log[j].sent
        ensures j in from
      {
        assert j < n ==> log[..n][j] == log[j];
      }
      var rs := ResponsesTo(log);
      assert rs == ResponsesTo(log[..n]) + if answered then [Response(log[n].frame.id, log[n].result)] else [];
      forall i | 0 <= i < |from|
        ensures from[i] < |log| && log[from[i]].frame.Message? && log[from[i]].sent
        ensures rs[i] == Response(log[from[i]].frame.id, log[from[i]].result)
      {
        hide ResponsesTo;
        if i < |before| {
          assert log[..n][before[i]] == log[before[i]];
        }
      }
    }
  }

  // ---------------------------------------------------------------------- client

  /** What the caller of a waiting request learns from its response. */
  ghost predicate Told(before: map<Id, Settlement>, after: map<Id, Settlement>, id: Id, result: Result) {
    if id in before then after == before else
      match result
      case Value(value) => after == before[id := Resolved(value)]
      case Failed(message) => after == before[id := Rejected(Remote(message))]
  }

  class TcpClient {
    const wire: Wire
    const promises: Promises
    /** The bytes written to the current connection, if there is one. */
    var conn: Option<Bytes>
    var pending: set<Id>
    ghost var issued: set<Id>
    ghost var leaked: set<Id>

    constructor (wire: Wire)
      ensures this.wire == wire && fresh(promises) && View() == EMPTY && Valid(View(), false) && conn == None
    {
      this.wire := wire;
      promises := new Promises();
      conn, pending, issued, leaked := None, {}, {}, {};
    }

    ghost function View(): Desk
      reads this, promises
    {
      Desk(issued, pending, {}, promises.settled, leaked, {})
    }

    method Connect()
      modifies `conn
      ensures View() == old(View()) && conn == Some([])
    {
      conn := Some([]);
    }

    /** The part of sending that runs once a connection was made. The connection may be gone again by then;
        the write then throws although the id is already in the map. */
    method Send(id: Id, pattern: Payload, data: Payload)
      requires Valid(View(), false) && id !in issued
      modifies this, promises
      ensures Valid(View(), false)
      ensures View() == Step(old(View()), if old(conn).Some? then Sent(id) else Thrown(id, 0), false)
      ensures conn == match old(conn) case None => None case Some(bytes) =>
                Some(bytes + Frame(wire.encodeInbound(Message(pattern, data, id))))
    {
      pending := pending + {id};
      issued := issued + {id};
      if conn.None? {
        promises.Settle(id, Rejected(Local(0)));
        leaked := leaked + {id};
        return;
      }
      var bytes := EncodeFrame(wire.encodeInbound(Message(pattern, data, id)));
      conn := Some(conn.value + bytes[..]);
    }

    /** The write of a request failed later. */
    method OnWriteFailed(id: Id, error: int)
      requires Valid(View(), false) && id in issued
      modifies this, promises
      ensures Valid(View(), false) && View() == Step(old(View()), WriteFailed(id, error), false) && conn == old(conn)
      ensures pending == old(pending) - {id} && id in promises.settled
      ensures id !in old(promises.settled) ==> promises.settled == old(promises.settled)[id := Rejected(Local(error))]
    {
      pending := pending - {id};
      promises.Settle(id, Rejected(Local(error)));
    }

    /** One turn of the read loop. */
    method HandleFrame(body: Bytes)
      requires Valid(View(), false)
      modifies this, promises
      ensures Valid(View(), false) && View() == Received(wire, old(View()), body) && conn == old(conn)
      ensures match wire.decodeResponse(body)
              case None => View() == old(View())
              case Some(Response(id, result)) =>
                if id !in old(pending) then View() == old(View())
                else pending == old(pending) - {id} && Told(old(promises.settled), promises.settled, id, result)
    {
      var frame := wire.decodeResponse(body);
      if frame.None? || frame.value.id !in pending {
        return;
      }
      pending := pending - {frame.value.id};
      promises.Settle(frame.value.id, Outcome(frame.value.result));
    }

    /** The end of the read loop, or a close: both reject whatever is pending. */
    method RejectPending()
      requires Valid(View(), false)
      modifies this, promises
      ensures Valid(View(), false) && View() == Step(old(View()), Shut, false) && conn == None
    {
      promises.RejectEach(pending, Closed);
      pending := {};
      conn := None;
    }

    /** The read loop with nothing else going on: the first `n` responses in the stream are delivered, all of them
        when no read fails, and the rest is rejected. */
    method ReadLoop(stream: Conn) returns (ghost n: nat)
      requires Valid(View(), false)
      modifies this, promises, stream`incoming, stream`calls
      ensures Valid(View(), false) && conn == None && n <= |ParseAll(old(stream.incoming)).0|
      ensures stream.Reliable() ==> n == |ParseAll(old(stream.incoming)).0|
      ensures View() == Step(ReceivedAll(wire, old(View()), ParseAll(old(stream.incoming)).0[..n]), Shut, false)
    {
      ghost var start, all := View(), ParseAll(stream.incoming).0;
      n := 0;
      assert all[0..] == all;
      while true
        invariant Valid(View(), false) && n <= |all| && all[n..] == ParseAll(stream.incoming).0
        invariant View() == ReceivedAll(wire, start, all[..n])
        decreases |stream.incoming|
      {
        ghost var before := stream.incoming;
        var r := ReadFrame(stream);
        if !r.Read? {
          assert stream.Reliable() ==> ParseAll(before).0 == [];
          break;
        }
        assert ParseAll(before).0 == [r.body] + ParseAll(stream.incoming).0;
        assert all[n] == all[n..][0] == r.body && all[n + 1..] == all[n..][1..];
        ReceivedOne(wire, start, all[..n], r.body);
        assert all[..n + 1] == all[..n] + [r.body];
        HandleFrame(r.body);
        n := n + 1;
      }
      RejectPending();
    }
  }

  /** What a received body does to the pending requests: one that cannot be decoded is skipped. */
  function Received(wire: Wire, d: Desk, body: Bytes): Desk {
    match wire.decodeResponse(body)
    case None => d
    case Some(r) => Step(d, Answered(r.id, Outcome(r.result)), false)
  }

  function ReceivedAll(wire: Wire, d: Desk, bodies: seq<Bytes>): Desk
    decreases |bodies|
  {
    if bodies == [] then d else ReceivedAll(wire, Received(wire, d, bodies[0]), bodies[1..])
  }

  /** The first of the bodies that is a response to this request. */
  function FirstFor(wire: Wire, bodies: seq<Bytes>, id: Id): Option<Result>
    decreases |bodies|
  {
    if bodies == [] then None else
      match wire.decodeResponse(bodies[0])
      case Some(Response(x, result)) => if x == id then Some(result) else FirstFor(wire, bodies[1..], id)
      case None => FirstFor(wire, bodies[1..], id)
  }

  /** A waiting request learns from the first response with its id; without one it is rejected at the end. */
  lemma {:induction false} FirstResponseCounts(wire: Wire, d: Desk, bodies: seq<Bytes>, id: Id)
    requires Valid(d, false) && id in d.pending && id !in d.settled
    ensures var after := Step(ReceivedAll(wire, d, bodies), Shut, false);
            && id in after.settled && id !in after.pending
            && match FirstFor(wire, bodies, id)
               case Some(Value(value)) => after.settled[id] == Resolved(value)
               case Some(Failed(message)) => after.settled[id] == Rejected(Remote(message))
               case None => after.settled[id] == Rejected(Closed)
    decreases |bodies|
  {
    if bodies != [] {
      var next := Received(wire, d, bodies[0]);
      ReceivedKeeps(wire, d, bodies[0]);
      if id in next.settled {
        AllReceivedKeep(wire, next, bodies[1..]);
      } else {
        FirstResponseCounts(wire, next, bodies[1..], id);
      }
    }
  }

  lemma ReceivedKeeps(wire: Wire, d: Desk, body: Bytes)
    requires Valid(d, false)
    ensures Valid(Received(wire, d, body), false) && Later(d, Received(wire, d, body))
  {
    var reply := wire.decodeResponse(body);
    if reply.Some? {
      StepKeeps(d, Answered(reply.value.id, Outcome(reply.value.result)), false);
    }
  }

  lemma {:induction false} AllReceivedKeep(wire: Wire, d: Desk, bodies: seq<Bytes>)
    requires Valid(d, false)
    ensures Valid(ReceivedAll(wire, d, bodies), false) && Later(d, ReceivedAll(wire, d, bodies))
    decreases |bodies|
  {
    hide Received, Valid;
    if bodies != [] {
      ReceivedKeeps(wire, d, bodies[0]);
      AllReceivedKeep(wire, Received(wire, d, bodies[0]), bodies[1..]);
    }
  }

  lemma {:induction false} ReceivedOne(wire: Wire, d: Desk, bodies: seq<Bytes>, body: Bytes)
    ensures ReceivedAll(wire, d, bodies + [body]) == Received(wire, ReceivedAll(wire, d, bodies), body)
    decreases |bodies|
  {
    hide Received;
    if bodies == [] {
      assert [body][1..] == [] && bodies + [body] == [body];
    } else {
      assert (bodies + [body])[1..] == bodies[1..] + [body];
      ReceivedOne(wire, Received(wire, d, bodies[0]), bodies[1..], body);
    }
  }
}
