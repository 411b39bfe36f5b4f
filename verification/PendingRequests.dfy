/** Requests that wait for a reply, as all request/reply clients keep them: under any interleaving of
    requests, replies, failures, timeouts and close. */
module PendingRequests {
  type Id = nat

  /** Payloads are compared, never looked into. */
  type Payload = int

  datatype Failure = Remote(message: Payload) | Closed | TimedOut | Refused | Unparsable | Local(error: int)

  datatype Settlement = Resolved(value: Payload) | Rejected(reason: Failure)

  /** `pending` are the ids in the client's map and `timers` those with an armed timer. `settled` is what
      callers see. `leaked` and `orphaned` record the requests that a fault has touched. */
  datatype Desk = Desk(
    issued: set<Id>,
    pending: set<Id>,
    timers: set<Id>,
    settled: map<Id, Settlement>,
    leaked: set<Id>,
    orphaned: set<Id>)

  datatype Event =
    | Sent(id: Id)                                // the request is on its way
    | NotSent(id: Id)                             // the transport refused it and said so
    | Thrown(id: Id, error: int)                  // sending threw after the id was put in the map
    | WriteFailed(id: Id, error: int)             // the write failed later
    | Answered(id: Id, settlement: Settlement)    // a reply arrived
    | Unreadable(id: Id)                          // a reply arrived that could not be decoded
    | Expired(id: Id)                             // the timer fired
    | Shut                                        // the connection is closed or lost

  const EMPTY: Desk := Desk({}, {}, {}, map[], {}, {})

  // The parts of a step.

  /** The first settlement of a promise is final. */
  function Settle(d: Desk, id: Id, s: Settlement): Desk {
    if id in d.settled then d else d.(settled := d.settled[id := s])
  }

  function Open(d: Desk, id: Id, timed: bool): Desk {
    d.(issued := d.issued + {id}, pending := d.pending + {id}, timers := if timed then d.timers + {id} else d.timers)
  }

  function Forget(d: Desk, id: Id): Desk {
    d.(pending := d.pending - {id}, timers := d.timers - {id})
  }

  /** All pending requests are rejected, those in `ids` only. */
  function RejectAll(settled: map<Id, Settlement>, ids: set<Id>, s: Settlement): map<Id, Settlement> {
    map id | id in settled.Keys + ids :: if id in settled then settled[id] else s
  }

  /** One event of a client; `timed` says whether its requests have timers. */
  function Step(d: Desk, e: Event, timed: bool): Desk {
    match e
    case Sent(id) => Open(d, id, timed)
    case NotSent(id) => Settle(Forget(Open(d, id, timed), id), id, Rejected(Refused))
    case Thrown(id, error) => Settle(Open(d, id, timed), id, Rejected(Local(error))).(leaked := d.leaked + {id})
    case WriteFailed(id, error) => Settle(Forget(d, id), id, Rejected(Local(error)))
    case Answered(id, s) => if id in d.pending then Settle(Forget(d, id), id, s) else d
    case Unreadable(id) => if id in d.pending then Forget(d, id).(orphaned := d.orphaned + {id}) else d
    case Expired(id) => Settle(Forget(d, id), id, Rejected(TimedOut))
    case Shut => d.(pending := {}, timers := {}, settled := RejectAll(d.settled, d.pending, Rejected(Closed)))
  }

  /** Ids are fresh when issued, only a request that was sent can fail to be written, and only armed timers fire. */
  predicate Possible(d: Desk, e: Event, timed: bool) {
    match e
    case Sent(id) => id !in d.issued
    case NotSent(id) => id !in d.issued
    case Thrown(id, _) => id !in d.issued
    case WriteFailed(id, _) => id in d.issued
    case Expired(id) => id in d.timers
    case _ => true
  }

  ghost predicate Valid(d: Desk, timed: bool) {
    && d.pending <= d.issued && d.settled.Keys <= d.issued && d.orphaned <= d.issued && d.leaked <= d.settled.Keys
    && d.timers == (if timed then d.pending else {})
    && (forall id | id in d.pending :: id in d.settled <==> id in d.leaked)
    && (forall id | id in d.issued && id !in d.settled :: id in d.pending || id in d.orphaned)
    && d.pending !! d.orphaned
  }

  /** The ids in the map are exactly those whose promise is unsettled. */
  ghost predicate Exact(d: Desk) {
    forall id | id in d.issued :: id in d.pending <==> id !in d.settled
  }

  ghost predicate Later(d: Desk, e: Desk) {
    d.issued <= e.issued && forall id | id in d.settled :: id in e.settled && e.settled[id] == d.settled[id]
  }

  /** Every event keeps the invariant, and settles no request twice. */
  lemma StepKeeps(d: Desk, e: Event, timed: bool)
    requires Valid(d, timed) && Possible(d, e, timed)
    ensures Valid(Step(d, e, timed), timed) && Later(d, Step(d, e, timed))
  {
  }

  // --------------------------------------------------------------- what events do

  /** Nothing happens to any other request. */
  ghost predicate OthersStay(d: Desk, after: Desk, id: Id) {
    && (forall x | x != id :: x in after.issued <==> x in d.issued)
    && (forall x | x != id :: x in after.pending <==> x in d.pending)
    && (forall x | x != id :: x in after.timers <==> x in d.timers)
    && (forall x | x != id :: x in after.settled <==> x in d.settled)
    && (forall x | x != id && x in d.settled :: x in after.settled && after.settled[x] == d.settled[x])
  }

  /** The request waits no longer, and its promise is settled in this way unless it was settled before. */
  ghost predicate Ended(d: Desk, after: Desk, id: Id, s: Settlement) {
    && id in after.issued && id !in after.pending && id !in after.timers && id in after.settled
    && after.settled[id] == (if id in d.settled then d.settled[id] else s) && OthersStay(d, after, id)
  }

  /** The request waits for its reply, with a timer if requests have them. */
  ghost predicate Waits(d: Desk, after: Desk, id: Id, timed: bool) {
    && id in after.issued && id in after.pending && (id in after.timers <==> timed) && OthersStay(d, after, id)
  }

  /** What callers see of an event. */
  ghost predicate Means(d: Desk, e: Event, after: Desk, timed: bool) {
    match e
    case Sent(id) => Waits(d, after, id, timed) && id !in after.settled
    case NotSent(id) => Ended(d, after, id, Rejected(Refused)) && id !in d.settled
    case Thrown(id, error) =>
      Waits(d, after, id, timed) && id !in d.settled && id in after.settled
        && after.settled[id] == Rejected(Local(error))
    case WriteFailed(id, error) => Ended(d, after, id, Rejected(Local(error)))
    case Answered(id, s) => if id in d.pending then Ended(d, after, id, s) else after == d
    case Unreadable(id) =>
      if id !in d.pending then after == d
      else id !in after.pending && id !in after.timers && after.settled == d.settled && OthersStay(d, after, id)
    case Expired(id) => Ended(d, after, id, Rejected(TimedOut))
    case Shut =>
      && after.issued == d.issued && after.pending == {} && after.timers == {}
      && (forall id :: id in after.settled <==> id in d.settled || id in d.pending)
      && (forall id | id in d.settled :: id in after.settled && after.settled[id] == d.settled[id])
      && (forall id | id in d.pending && id !in d.settled ::
            id in after.settled && after.settled[id] == Rejected(Closed))
  }

  lemma StepMeans(d: Desk, e: Event, timed: bool)
    requires Valid(d, timed) && Possible(d, e, timed)
    ensures Means(d, e, Step(d, e, timed), timed)
  {
    var after := Step(d, e, timed);
    if e.Shut? {
      assert forall id :: id in after.settled <==> id in d.settled.Keys + d.pending;
    }
  }

  /** A fault: sending throws after the id was put in the map, or the reply of a waiting request cannot
      be decoded. */
  predicate Fault(d: Desk, e: Event) {
    e.Thrown? || (e.Unreadable? && e.id in d.pending && e.id !in d.settled)
  }

  /** Exactly the faults break the correspondence of the map with the unsettled promises. */
  lemma ExactUnlessFault(d: Desk, e: Event, timed: bool)
    requires Valid(d, timed) && Possible(d, e, timed) && Exact(d)
    ensures Exact(Step(d, e, timed)) <==> !Fault(d, e)
  {
    if Fault(d, e) {
      assert e.id in Step(d, e, timed).issued;
    }
  }

  // ------------------------------------------------------------------ whole runs

  function After(events: seq<Event>, timed: bool): Desk {
    if events == [] then EMPTY else Step(After(events[..|events| - 1], timed), events[|events| - 1], timed)
  }

  ghost predicate Run(events: seq<Event>, timed: bool) {
    forall i | 0 <= i < |events| :: Possible(After(events[..i], timed), events[i], timed)
  }

  lemma RunPrefix(events: seq<Event>, i: nat, timed: bool)
    requires Run(events, timed) && i <= |events|
    ensures Run(events[..i], timed)
  {
    forall j | 0 <= j < i
      ensures Possible(After(events[..i][..j], timed), events[..i][j], timed)
    {
      assert events[..i][..j] == events[..j];
    }
  }

  lemma {:induction false} RunKeeps(events: seq<Event>, timed: bool)
    requires Run(events, timed)
    ensures Valid(After(events, timed), timed)
    decreases |events|
  {
    if events != [] {
      var n := |events| - 1;
      RunPrefix(events, n, timed);
      RunKeeps(events[..n], timed);
      StepKeeps(After(events[..n], timed), events[n], timed);
    }
  }

  /** The last step of a run. */
  lemma RunLast(events: seq<Event>, timed: bool)
    requires Run(events, timed) && events != []
    ensures var before, e := events[..|events| - 1], events[|events| - 1];
            && Run(before, timed) && Valid(After(before, timed), timed) && Possible(After(before, timed), e, timed)
            && After(events, timed) == Step(After(before, timed), e, timed)
  {
    hide Valid, Step, Possible;
    RunPrefix(events, |events| - 1, timed);
    RunKeeps(events[..|events| - 1], timed);
  }

  /** The first settlement of a request is final. */
  lemma {:induction false} FirstSettlementIsFinal(events: seq<Event>, i: nat, timed: bool)
    requires Run(events, timed) && i <= |events|
    ensures Later(After(events[..i], timed), After(events, timed))
    decreases |events|
  {
    hide Valid, Step, Possible, Run, After;
    if i < |events| {
      var n := |events| - 1;
      RunLast(events, timed);
      StepKeeps(After(events[..n], timed), events[n], timed);
      FirstSettlementIsFinal(events[..n], i, timed);
      assert events[..n][..i] == events[..i];
    } else {
      assert events[..i] == events;
    }
  }

  /** A run without faults keeps exactly the unsettled requests in the map, and exactly their timers armed. */
  lemma {:induction false} PendingIffUnsettled(events: seq<Event>, timed: bool)
    requires Run(events, timed) && forall i | 0 <= i < |events| :: !Fault(After(events[..i], timed), events[i])
    ensures var d := After(events, timed);
            && d.pending == d.issued - d.settled.Keys
            && d.timers == if timed then d.pending else {}
    decreases |events|
  {
    RunKeeps(events, timed);
    if events != [] {
      hide Step, Possible, Run, After, Fault;
      var n := |events| - 1;
      RunLast(events, timed);
      forall i | 0 <= i < n
        ensures !Fault(After(events[..n][..i], timed), events[..n][i])
      {
        assert events[..n][..i] == events[..i];
      }
      PendingIffUnsettled(events[..n], timed);
      assert Exact(After(events[..n], timed));
      ExactUnlessFault(After(events[..n], timed), events[n], timed);
    }
  }

  /** What settled a request: an event about that request alone, or the end of the connection. */
  predicate Settles(e: Event, id: Id, s: Settlement) {
    match e
    case NotSent(x) => x == id && s == Rejected(Refused)
    case Thrown(x, error) => x == id && s == Rejected(Local(error))
    case WriteFailed(x, error) => x == id && s == Rejected(Local(error))
    case Answered(x, t) => x == id && s == t
    case Expired(x) => x == id && s == Rejected(TimedOut)
    case Shut => s == Rejected(Closed)
    case _ => false
  }

  /** Every settlement has its cause in the run, at the event that made it. */
  lemma {:induction false} SettledByItsOwn(events: seq<Event>, id: Id, timed: bool) returns (i: nat)
    requires Run(events, timed) && id in After(events, timed).settled
    ensures i < |events| && Settles(events[i], id, After(events, timed).settled[id])
    ensures id !in After(events[..i], timed).settled && id in Step(After(events[..i], timed), events[i], timed).settled
    decreases |events|
  {
    var n := |events| - 1;
    RunPrefix(events, n, timed);
    if id in After(events[..n], timed).settled {
      RunKeeps(events[..n], timed);
      StepKeeps(After(events[..n], timed), events[n], timed);
      i := SettledByItsOwn(events[..n], id, timed);
      assert events[..n][..i] == events[..i];
    } else {
      i := n;
    }
  }

  /** The event ends the request: it is about this request, or the end of the connection while the request waits. */
  ghost predicate Ends(d: Desk, e: Event, id: Id) {
    match e
    case NotSent(x) => x == id
    case Thrown(x, _) => x == id
    case WriteFailed(x, _) => x == id
    case Expired(x) => x == id
    case Answered(x, _) => x == id && id in d.pending
    case Shut => id in d.pending
    case _ => false
  }

  lemma EndsOne(d: Desk, e: Event, id: Id, timed: bool)
    requires Valid(d, timed) && Possible(d, e, timed) && id !in d.settled
    ensures id in Step(d, e, timed).settled <==> Ends(d, e, id)
    ensures Ends(d, e, id) ==> id in Step(d, e, timed).settled && Settles(e, id, Step(d, e, timed).settled[id])
  {
  }

  /** The first event that ends a request settles it, for good. */
  lemma {:induction false} SettledByTheFirst(events: seq<Event>, i: nat, id: Id, timed: bool)
    requires Run(events, timed) && i < |events|
    requires Ends(After(events[..i], timed), events[i], id) && id !in After(events[..i], timed).settled
    ensures id in After(events, timed).settled && Settles(events[i], id, After(events, timed).settled[id])
  {
    hide Valid, Step, Possible, Ends, Settles;
    RunPrefix(events, i, timed);
    RunKeeps(events[..i], timed);
    EndsOne(After(events[..i], timed), events[i], id, timed);
    assert events[..i + 1][..i] == events[..i];
    FirstSettlementIsFinal(events, i + 1, timed);
  }

  /** In every run exactly those requests are settled that some event has ended. */
  lemma {:induction false} SettledIffEnded(events: seq<Event>, id: Id, timed: bool)
    requires Run(events, timed)
    ensures id in After(events, timed).settled <==>
              exists i :: 0 <= i < |events| && Ends(After(events[..i], timed), events[i], id)
  {
    hide Valid, Step, Possible, Ends, Settles;
    if i :| 0 <= i < |events| && Ends(After(events[..i], timed), events[i], id) {
      if id in After(events[..i], timed).settled {
        FirstSettlementIsFinal(events, i, timed);
      } else {
        SettledByTheFirst(events, i, id, timed);
      }
    }
    if id in After(events, timed).settled {
      var i := SettledByItsOwn(events, id, timed);
      RunPrefix(events, i, timed);
      RunKeeps(events[..i], timed);
      EndsOne(After(events[..i], timed), events[i], id, timed);
    }
  }

  /** After a close nothing is pending and no timer is armed, and every request issued before is settled,
      except those whose reply could not be decoded. */
  lemma {:induction false} ShutSettlesAll(events: seq<Event>, timed: bool)
    requires Run(events, timed) && events != [] && events[|events| - 1] == Shut
    ensures var d := After(events, timed);
            && d.pending == {} == d.timers
            && forall id | id in d.issued :: id in d.settled || id in d.orphaned
  {
    RunKeeps(events, timed);
  }

  lemma OrphanStays(d: Desk, e: Event, id: Id, timed: bool)
    requires Valid(d, timed) && Possible(d, e, timed) && id in d.orphaned && id !in d.settled
             && (e.WriteFailed? ==> e.id != id)
    ensures id in Step(d, e, timed).orphaned && id !in Step(d, e, timed).settled
  {
  }

  /** A request whose reply could not be decoded is never settled, not even by closing. */
  lemma {:induction false} OrphansStay(events: seq<Event>, i: nat, id: Id, timed: bool)
    requires Run(events, timed) && i <= |events|
    requires id in After(events[..i], timed).orphaned && id !in After(events[..i], timed).settled
    requires forall j | i <= j < |events| :: events[j].WriteFailed? ==> events[j].id != id
    ensures id in After(events, timed).orphaned && id !in After(events, timed).settled
    decreases |events|
  {
    hide Valid, Step, Possible, Run, After;
    if i < |events| {
      var n := |events| - 1;
      RunLast(events, timed);
      assert events[..n][..i] == events[..i];
      OrphansStay(events[..n], i, id, timed);
      OrphanStays(After(events[..n], timed), events[n], id, timed);
    } else {
      assert events[..i] == events;
    }
  }

  // --------------------------------------------------------------------- clients

  /** The promises handed to callers. */
  class Promises {
    var settled: map<Id, Settlement>

    constructor ()
      ensures settled == map[]
    {
      settled := map[];
    }

    method Settle(id: Id, s: Settlement)
      modifies this
      ensures settled == if id in old(settled) then old(settled) else old(settled)[id := s]
    {
      if id !in settled {
        settled := settled[id := s];
      }
    }

    method RejectEach(ids: set<Id>, reason: Failure)
      modifies this
      ensures settled == RejectAll(old(settled), ids, Rejected(reason))
    {
      var todo := ids;
      while todo != {}
        invariant todo <= ids && settled == RejectAll(old(settled), ids - todo, Rejected(reason))
      {
        var id :| id in todo;
        Settle(id, Rejected(reason));
        todo := todo - {id};
      }
    }
  }
}
