/** The RPC client for a message broker. Requests may time out. */
module AmqpClients {
  import opened Basics
  import opened PendingRequests

  /** What the request map keeps: whether the entry carries a timer. */
  datatype Entry = Entry(timer: bool)

  /** A decoded reply: an object with an `err` member, or a value. */
  datatype Reply = ErrorReply(err: Payload) | ValueReply(value: Payload)

  function Outcome(r: Reply): Settlement {
    match r
    case ErrorReply(err) => Rejected(Remote(err))
    case ValueReply(value) => Resolved(value)
  }

  /** What the caller of a waiting request learns from its reply. */
  ghost predicate Told(before: map<Id, Settlement>, after: map<Id, Settlement>, id: Id, content: Option<Reply>) {
    if id in before then after == before else
      match content
      case None => after == before
      case Some(ErrorReply(err)) => after == before[id := Rejected(Remote(err))]
      case Some(ValueReply(value)) => after == before[id := Resolved(value)]
  }

  class RpcClient {
    const timeout: Option<nat>
    const promises: Promises
    var pending: map<Id, Entry>
    /** The armed timers. */
    var timers: set<Id>
    ghost var issued: set<Id>
    ghost var leaked: set<Id>
    ghost var orphaned: set<Id>

    constructor (timeout: Option<nat>)
      ensures this.timeout == timeout && fresh(promises) && View() == EMPTY && Sane()
    {
      this.timeout := timeout;
      promises := new Promises();
      pending, timers, issued, leaked, orphaned := map[], {}, {}, {}, {};
    }

    ghost function View(): Desk
      reads this, promises
    {
      Desk(issued, pending.Keys, timers, promises.settled, leaked, orphaned)
    }

    ghost predicate Sane()
      reads this, promises
    {
      Valid(View(), timeout.Some?) && forall id | id in pending :: pending[id].timer == timeout.Some?
    }

    /** `failure` is what encoding or queueing the message throws, if anything. */
    method Request(id: Id, failure: Option<int>)
      requires Sane() && id !in issued
      modifies this, promises
      ensures Sane()
      ensures View() == Step(old(View()), if failure.None? then Sent(id) else Thrown(id, failure.value), timeout.Some?)
    {
      hide Valid;
      StepKeeps(View(), if failure.None? then Sent(id) else Thrown(id, failure.value), timeout.Some?);
      if timeout.Some? {
        timers := timers + {id};
      }
      pending := pending[id := Entry(timeout.Some?)];
      issued := issued + {id};
      if failure.Some? {
        promises.Settle(id, Rejected(Local(failure.value)));
        leaked := leaked + {id};
      }
      assert pending.Keys == old(pending.Keys) + {id};
      assert View() == Step(old(View()), if failure.None? then Sent(id) else Thrown(id, failure.value), timeout.Some?);
    }

    /** The callback of a request's timer. */
    method OnTimeout(id: Id)
      requires Sane() && id in timers
      modifies this, promises
      ensures Sane() && View() == Step(old(View()), Expired(id), timeout.Some?)
      ensures pending == old(pending) - {id} && timers == old(timers) - {id} && id in promises.settled
      ensures id !in old(promises.settled) ==> promises.settled == old(promises.settled)[id := Rejected(TimedOut)]
    {
      timers := timers - {id};
      pending := pending - {id};
      promises.Settle(id, Rejected(TimedOut));
    }

    /** `content` is the decoded message, or nothing when decoding throws. The entry is gone by then. */
    method HandleReply(correlationId: Option<Id>, content: Option<Reply>)
      requires Sane()
      modifies this, promises
      ensures Sane()
      ensures View() ==
                if correlationId.None? then old(View())
                else Step(old(View()), if content.Some? then Answered(correlationId.value, Outcome(content.value))
                          else Unreadable(correlationId.value),
                          timeout.Some?)
      ensures correlationId.Some? && correlationId.value in old(pending) ==>
                && pending == old(pending) - {correlationId.value} && timers == old(timers) - {correlationId.value}
                && Told(old(promises.settled), promises.settled, correlationId.value, content)
    {
      if correlationId.None? {
        return;
      }
      var id := correlationId.value;
      if id !in pending {
        return;
      }
      var entry := pending[id];
      pending := pending - {id};
      if entry.timer {
        timers := timers - {id};
      }
      if content.None? {
        orphaned := orphaned + {id};
        return;
      }
      promises.Settle(id, Outcome(content.value));
    }

    method Close()
      requires Sane()
      modifies this, promises
      ensures Sane() && View() == Step(old(View()), Shut, timeout.Some?)
    {
      hide Valid;
      UnsettledTimers();
      var todo := pending.Keys;
      while todo != {}
        invariant todo <= pending.Keys && pending == old(pending)
        invariant issued == old(issued) && leaked == old(leaked) && orphaned == old(orphaned)
        invariant promises.settled == RejectAll(old(promises.settled), pending.Keys - todo, Rejected(Closed))
        invariant timers == if timeout.Some? then todo else {}
      {
        var id :| id in todo;
        if pending[id].timer {
          timers := timers - {id};
        }
        promises.Settle(id, Rejected(Closed));
        RejectedOne(old(promises.settled), pending.Keys, todo, id);
        todo := todo - {id};
      }
      assert pending.Keys - {} == pending.Keys;
      StepKeeps(old(View()), Shut, timeout.Some?);
      pending := map[];
      assert pending.Keys == {};
      assert View() == Step(old(View()), Shut, timeout.Some?);
    }

    lemma UnsettledTimers()
      requires Sane()
      ensures timers == if timeout.Some? then pending.Keys else {}
      ensures forall id | id in pending :: pending[id].timer == timeout.Some?
    {
    }
  }

  lemma RejectedOne(settled: map<Id, Settlement>, all: set<Id>, todo: set<Id>, id: Id)
    requires id in todo && todo <= all
    ensures var before := RejectAll(settled, all - todo, Rejected(Closed));
            RejectAll(settled, all - (todo - {id}), Rejected(Closed)) == if id in before then before
                else before[id := Rejected(Closed)]
  {
  }
}
