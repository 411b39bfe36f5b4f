/** The RabbitMQ microservice client. */
module RmqClients {
  import opened Basics
  import opened PendingRequests

  /** What publishing a message did: the broker's buffer may be full, and encoding or an absent channel throws. */
  datatype Publishing = Published | BufferFull | Threw(error: int)

  /** A reply's content: raw bytes, an object with an `err` member, another value, or not decodable. */
  datatype Content = Raw(bytes: Payload) | ErrorReply(err: Payload) | ValueReply(value: Payload) | Garbled

  function Outcome(c: Content): Settlement {
    match c
    case Raw(bytes) => Resolved(bytes)
    case ErrorReply(err) => Rejected(Remote(err))
    case ValueReply(value) => Resolved(value)
    case Garbled => Rejected(Unparsable)
  }

  /** What the caller of a waiting request learns from its reply. */
  ghost predicate Told(before: map<Id, Settlement>, after: map<Id, Settlement>, id: Id, content: Content) {
    if id in before then after == before else
      match content
      case Raw(bytes) => after == before[id := Resolved(bytes)]
      case ErrorReply(err) => after == before[id := Rejected(Remote(err))]
      case ValueReply(value) => after == before[id := Resolved(value)]
      case Garbled => after == before[id := Rejected(Unparsable)]
  }

  class RmqClient {
    const promises: Promises
    var connected: bool
    var pending: set<Id>
    ghost var issued: set<Id>
    ghost var leaked: set<Id>

    constructor ()
      ensures fresh(promises) && View() == EMPTY && Valid(View(), false) && !connected
    {
      promises := new Promises();
      connected, pending, issued, leaked := false, {}, {}, {};
    }

    ghost function View(): Desk
      reads this, promises
    {
      Desk(issued, pending, {}, promises.settled, leaked, {})
    }

    method Connect()
      modifies `connected
      ensures connected && View() == old(View())
    {
      connected := true;
    }

    /** The part of sending that runs once a connection was made. The channel may be gone again by then. */
    method Send(id: Id, publishing: Publishing)
      requires Valid(View(), false) && id !in issued
      modifies this, promises
      ensures connected == old(connected) && Valid(View(), false)
      ensures View() == Step(old(View()), Sending(id, if connected then publishing else Threw(0)), false)
      ensures match if connected then publishing else Threw(0)
              case Published => pending == old(pending) + {id} && promises.settled == old(promises.settled)
              case BufferFull =>
                pending == old(pending) && promises.settled == old(promises.settled)[id := Rejected(Refused)]
              case Threw(error) =>
                && pending == old(pending) + {id}
                && promises.settled == old(promises.settled)[id := Rejected(Local(error))]
    {
      pending := pending + {id};
      issued := issued + {id};
      match if connected then publishing else Threw(0) {
        case Published =>
        case BufferFull =>
          pending := pending - {id};
          promises.Settle(id, Rejected(Refused));
        case Threw(error) =>
          promises.Settle(id, Rejected(Local(error)));
          leaked := leaked + {id};
      }
    }

    method HandleReply(correlationId: Option<Id>, content: Content)
      requires Valid(View(), false)
      modifies this, promises
      ensures connected == old(connected) && Valid(View(), false)
      ensures View() == if correlationId.None? then old(View())
              else Step(old(View()), Answered(correlationId.value, Outcome(content)), false)
      ensures correlationId.Some? && correlationId.value in old(pending) ==>
                && pending == old(pending) - {correlationId.value}
                && Told(old(promises.settled), promises.settled, correlationId.value, content)
    {
      if correlationId.None? || correlationId.value !in pending {
        return;
      }
      pending := pending - {correlationId.value};
      promises.Settle(correlationId.value, Outcome(content));
    }

    method Close()
      requires Valid(View(), false)
      modifies this, promises
      ensures !connected && Valid(View(), false) && View() == Step(old(View()), Shut, false)
    {
      promises.RejectEach(pending, Closed);
      pending := {};
      connected := false;
    }
  }

  function Sending(id: Id, p: Publishing): Event {
    match p
    case Published => Sent(id)
    case BufferFull => NotSent(id)
    case Threw(error) => Thrown(id, error)
  }

  /** This client never loses a reply: whatever arrives for a waiting request settles it. The map can only
      disagree with the promises through a publish that throws, and that is harmless to every other request. */
  lemma OnlyThrowsAreFaults(d: Desk, id: Id, p: Publishing, content: Content)
    requires Valid(d, false)
    ensures Fault(d, Sending(id, p)) <==> p.Threw?
    ensures !Fault(d, Answered(id, Outcome(content))) && !Fault(d, Shut)
    ensures id in d.pending && id !in d.settled ==> Step(d, Answered(id, Outcome(content)),
                                                         false).settled[id] == Outcome(content)
  {
  }
}
