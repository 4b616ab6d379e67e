/**
 The broker's state as it is stored: a map of pending requests, a queue of ids
 and a wake flag. Every operation is proved to take the step that the ledger
 takes, so the map, the queue and the ledger never disagree.
 */
module BrokerModel {
  import opened Basics
  import opened BrokerTypes
  import opened Ledger
  import opened LedgerSafety

  datatype PendingState = Queued | InFlight(session: SessionId, attempt: nat)

  datatype PendingRequest = PendingRequest(
    packet: bytes,
    context: Option<RequestContext>,
    deadline: Instant,
    requestedAt: nat,
    deadlineTimestamp: nat,
    sequence: nat,
    attempt: nat,
    state: PendingState)

  type Pending = map<RequestId, PendingRequest>

  function Stored(e: Entry, state: PendingState): PendingRequest {
    PendingRequest(e.packet, e.context, e.deadline, e.requestedAt, e.deadlineTimestamp, e.sequence, e.attempt, state)
  }

  // ----- What the stored state stands for -----

  ghost predicate HoldsQueued(pending: Pending, es: seq<Entry>) {
    forall e <- es :: e.id in pending && pending[e.id] == Stored(e, Queued)
  }

  ghost predicate HoldsInFlight(pending: Pending, es: seq<Entry>, session: SessionId) {
    forall e <- es :: e.id in pending && pending[e.id] == Stored(e, InFlight(session, e.attempt))
  }

  ghost predicate Represents(pending: Pending, queue: seq<RequestId>, b: Book) {
    && (forall id :: id in pending <==> id in Ids(b.Entries()))
    && HoldsQueued(pending, b.queued)
    && (!b.agent.Disconnected? ==> HoldsInFlight(pending, b.inFlight, b.agent.session))
    && queue == Ids(b.queued)
  }

  ghost predicate InSequence(pending: Pending, ids: seq<RequestId>) {
    && (forall id <- ids :: id in pending)
    && forall i, j :: 0 <= i < j < |ids| ==> pending[ids[i]].sequence < pending[ids[j]].sequence
  }

  /**
   The queue is exactly the pending requests in state `Queued`, without
   repetition and in admission order; what is in flight belongs to the current
   session, carries its latest attempt and was admitted before all that is queued.
   */
  lemma QueueIsQueuedInAdmissionOrder(pending: Pending, queue: seq<RequestId>, b: Book)
    requires Shape(b) && Represents(pending, queue, b)
    ensures NoDuplicates(queue) && InSequence(pending, queue)
    ensures forall id :: id in queue <==> id in pending && pending[id].state.Queued?
    ensures forall id <- pending | pending[id].state.InFlight? ::
              b.agent.Holds(pending[id].state.session) && pending[id].state.attempt == pending[id].attempt
    ensures forall x <- pending, y <- pending | pending[x].state.InFlight? && pending[y].state.Queued? ::
              pending[x].sequence < pending[y].sequence
  {
    QueuedInSequence(pending, queue, b);
    forall id
      ensures id in queue <==> id in pending && pending[id].state.Queued?
    {
      PendingDetails(pending, queue, b, id);
      IdsMembers(b.queued, id);
    }
    hide Ordered;
    forall id <- pending | pending[id].state.InFlight?
      ensures b.agent.Holds(pending[id].state.session) && pending[id].state.attempt == pending[id].attempt
    {
      var e := PendingEntry(pending, queue, b, id);
    }
    forall x <- pending, y <- pending | pending[x].state.InFlight? && pending[y].state.Queued?
      ensures pending[x].sequence < pending[y].sequence
    {
      var ex := PendingEntry(pending, queue, b, x);
      var ey := PendingEntry(pending, queue, b, y);
      OrderedConcat(b.inFlight, b.queued);
    }
  }

  lemma QueuedInSequence(pending: Pending, queue: seq<RequestId>, b: Book)
    requires Shape(b) && Represents(pending, queue, b)
    ensures InSequence(pending, queue) && NoDuplicates(queue)
  {
    OrderedConcat(b.inFlight, b.queued);
    OrderedInSequence(pending, b.queued);
  }

  /** Two strictly ordered lists of the same ids are the same list. */
  lemma {:induction false} InSequenceUnique(pending: Pending, a: seq<RequestId>, b: seq<RequestId>)
    requires InSequence(pending, a) && InSequence(pending, b)
    requires forall id :: id in a <==> id in b
    ensures a == b
  {
    assert (a != [] ==> a[0] in b) && (b != [] ==> b[0] in a);
    if a != [] {
      var i :| 0 <= i < |b| && b[i] == a[0];
      var j :| 0 <= j < |a| && a[j] == b[0];
      assert i == 0 && j == 0;
      assert a == [a[0]] + a[1..] && b == [b[0]] + b[1..];
      forall id
        ensures id in a[1..] <==> id in b[1..]
      {
        assert id in a[1..] ==> id in a && id != a[0];
        assert id in b[1..] ==> id in b && id != b[0];
      }
      InSequenceUnique(pending, a[1..], b[1..]);
    }
  }

  // ----- Expiry -----

  function Drop(queue: seq<RequestId>, gone: set<RequestId>): seq<RequestId> {
    if queue == [] then []
    else (if queue[0] in gone then [] else [queue[0]]) + Drop(queue[1..], gone)
  }

  lemma {:induction false} DropIsKeep(es: seq<Entry>, gone: set<RequestId>, p: Entry -> bool)
    requires forall e <- es :: e.id in gone <==> !p(e)
    ensures Drop(Ids(es), gone) == Ids(Keep(es, p))
  {
    if es != [] {
      DropIsKeep(es[1..], gone, p);
      assert Ids(es)[1..] == Ids(es[1..]);
    }
  }

  function Withdrawal(pending: Pending, id: RequestId, result: Answer): seq<Effect>
    requires id in pending
  {
    (match pending[id].state
     case Queued => []
     case InFlight(session, attempt) => [Cancel(session, id, attempt)])
    + [Complete(id, result)]
  }

  function Withdrawals(pending: Pending, ids: seq<RequestId>, result: Answer): seq<Effect>
    requires forall id <- ids :: id in pending
  {
    if ids == [] then [] else Withdrawal(pending, ids[0], result) + Withdrawals(pending, ids[1..], result)
  }

  lemma {:induction false} WithdrawalsConcat(pending: Pending, a: seq<RequestId>, b: seq<RequestId>, result: Answer)
    requires forall id <- a + b :: id in pending
    ensures Withdrawals(pending, a + b, result) == Withdrawals(pending, a, result) + Withdrawals(pending, b, result)
  {
    if a == [] {
      assert a + b == b;
    } else {
      assert (a + b)[1..] == a[1..] + b;
      WithdrawalsConcat(pending, a[1..], b, result);
    }
  }

  lemma {:induction false} WithdrawalsAreRecalls(
    pending: Pending, es: seq<Entry>, session: Option<SessionId>, result: Answer)
    requires session.None? ==> HoldsQueued(pending, es)
    requires session.Some? ==> HoldsInFlight(pending, es, session.value)
    ensures forall id <- Ids(es) :: id in pending
    ensures Withdrawals(pending, Ids(es), result) == Recall(es, session, result)
  {
    if es != [] {
      WithdrawalsAreRecalls(pending, es[1..], session, result);
      assert Ids(es)[1..] == Ids(es[1..]);
      assert es[0] in es;
      assert forall id <- Ids(es) :: id == Ids(es)[0] || id in Ids(es)[1..];
    }
  }

  lemma OrderedInSequence(pending: Pending, es: seq<Entry>)
    requires Ordered(es)
    requires forall e <- es :: e.id in pending && pending[e.id].sequence == e.sequence
    ensures InSequence(pending, Ids(es))
  {
  }

  function OverdueIds(b: Book, now: Instant): seq<RequestId> {
    Ids(Overdue(b.inFlight, now) + Overdue(b.queued, now))
  }

  /** The entry that a pending id stands for. */
  lemma PendingEntry(pending: Pending, queue: seq<RequestId>, b: Book, id: RequestId) returns (e: Entry)
    requires Shape(b) && Represents(pending, queue, b) && id in pending
    ensures e in b.Entries() && e.id == id
    ensures pending[id] == Stored(e, pending[id].state)
    ensures pending[id].state.Queued? <==> e in b.queued
    ensures pending[id].state.InFlight? <==> e in b.inFlight
  {
    var i :| 0 <= i < |b.Entries()| && Ids(b.Entries())[i] == id;
    e := b.Entries()[i];
  }

  lemma OverdueExactlyPending(pending: Pending, queue: seq<RequestId>, b: Book, now: Instant, id: RequestId)
    requires Shape(b) && Represents(pending, queue, b)
    ensures id in OverdueIds(b, now) <==> id in pending && pending[id].deadline <= now
  {
    var o := OverdueAt(now);
    KeepMembers(b.inFlight, o);
    KeepMembers(b.queued, o);
    var es := Overdue(b.inFlight, now) + Overdue(b.queued, now);
    IdsMembers(es, id);
    if id in OverdueIds(b, now) {
      var x :| x in es && x.id == id;
      assert x in b.Entries() && x.deadline <= now;
      EntryIsPending(pending, queue, b, x);
    }
    if id in pending && pending[id].deadline <= now {
      var e := PendingEntry(pending, queue, b, id);
      assert o(e) && e in es;
    }
  }

  lemma EntryIsPending(pending: Pending, queue: seq<RequestId>, b: Book, x: Entry)
    requires Shape(b) && Represents(pending, queue, b) && x in b.Entries()
    ensures x.id in pending && pending[x.id].deadline == x.deadline && pending[x.id].sequence == x.sequence
  {
    IdsMembers(b.Entries(), x.id);
    var e := PendingEntry(pending, queue, b, x.id);
  }

  lemma OverdueInSequence(pending: Pending, queue: seq<RequestId>, b: Book, now: Instant)
    requires Shape(b) && Represents(pending, queue, b)
    ensures InSequence(pending, OverdueIds(b, now))
    ensures forall id <- OverdueIds(b, now) :: pending[id].deadline <= now
    ensures forall id <- pending | pending[id].deadline <= now :: id in OverdueIds(b, now)
  {
    var o := OverdueAt(now);
    KeepMembers(b.inFlight, o);
    KeepMembers(b.queued, o);
    SelectKeepsShape(b, o, o);
    var es := Overdue(b.inFlight, now) + Overdue(b.queued, now);
    assert Ordered(es) && forall x <- es :: x in b.Entries();
    hide Shape, Represents, Overdue;
    forall x <- es
      ensures x.id in pending && pending[x.id].sequence == x.sequence
    {
      EntryIsPending(pending, queue, b, x);
    }
    OrderedInSequence(pending, es);
    hide InSequence, Ordered, OverdueIds;
    forall id
      ensures id in OverdueIds(b, now) <==> id in pending && pending[id].deadline <= now
    {
      OverdueExactlyPending(pending, queue, b, now, id);
    }
  }

  lemma SelectRepresents(
    pending: Pending, queue: seq<RequestId>, b: Book, p: Entry -> bool, gone: set<RequestId>)
    requires Shape(b) && Represents(pending, queue, b)
    requires forall e <- b.Entries() :: e.id in gone <==> !p(e)
    ensures Represents(pending - gone, Drop(queue, gone),
                       b.(inFlight := Keep(b.inFlight, p), queued := Keep(b.queued, p)))
  {
    KeepMembers(b.inFlight, p);
    KeepMembers(b.queued, p);
    DropIsKeep(b.queued, gone, p);
    var c := b.(inFlight := Keep(b.inFlight, p), queued := Keep(b.queued, p));
    forall id
      ensures id in pending - gone <==> id in Ids(c.Entries())
    {
      IdsMembers(b.Entries(), id);
      IdsMembers(c.Entries(), id);
    }
  }

  // ----- Counting -----

  lemma PendingCount(pending: Pending, queue: seq<RequestId>, b: Book)
    requires Shape(b) && Represents(pending, queue, b)
    ensures |pending| == |b.Entries()|
  {
    NoDuplicatesCardinality(Ids(b.Entries()));
    assert pending.Keys == Elements(Ids(b.Entries()));
  }

  ghost predicate Occupies(p: PendingRequest, session: SessionId) {
    p.state.InFlight? && p.state.session == session
  }

  lemma OccupiedIsInFlight(pending: Pending, queue: seq<RequestId>, b: Book, session: SessionId, id: RequestId)
    requires Shape(b) && Represents(pending, queue, b) && b.agent.Holds(session)
    ensures id in pending && Occupies(pending[id], session) <==> id in Ids(b.inFlight)
  {
    IdsMembers(b.inFlight, id);
    if id in pending {
      var e := PendingEntry(pending, queue, b, id);
      OrderedConcat(b.inFlight, b.queued);
    }
  }

  lemma InFlightCount(pending: Pending, queue: seq<RequestId>, b: Book, session: SessionId)
    requires Shape(b) && Represents(pending, queue, b) && b.agent.Holds(session)
    ensures |set id | id in pending && Occupies(pending[id], session)| == |b.inFlight|
  {
    OrderedConcat(b.inFlight, b.queued);
    NoDuplicatesCardinality(Ids(b.inFlight));
    hide Shape, Represents, Occupies;
    var s := set id | id in pending && Occupies(pending[id], session);
    forall id
      ensures id in s <==> id in Elements(Ids(b.inFlight))
    {
      OccupiedIsInFlight(pending, queue, b, session, id);
    }
    assert s == Elements(Ids(b.inFlight));
  }

  // ----- The stored state -----

  class BrokerState {
    var agent: Agent
    var pending: Pending
    var queue: seq<RequestId>
    const maxPendingRequests: nat
    var nextSequence: nat
    var wakeAnnounced: bool

    ghost var book: Book

    ghost predicate Consistent()
      reads this
    {
      && book.agent == agent
      && book.maxPending == maxPendingRequests
      && book.nextSequence == nextSequence
      && book.wakeAnnounced == wakeAnnounced
      && Shape(book)
      && Represents(pending, queue, book)
    }

    ghost predicate Valid()
      reads this
    {
      Consistent() && Sound(book)
    }

    constructor (maxPendingRequests: nat)
      ensures Valid() && book == Opening(maxPendingRequests)
    {
      agent := Disconnected;
      pending := map[];
      queue := [];
      this.maxPendingRequests := maxPendingRequests;
      nextSequence := 0;
      wakeAnnounced := false;
      book := Opening(maxPendingRequests);
    }

    /** Apply one fact change, expire overdue work, then reconcile all gates. */
    method Apply(event: Event, now: Instant) returns (r: Result<seq<Effect>, ModelError>)
      requires Valid()
      requires event.Submit? ==> event.requestId !in pending
      modifies this
      ensures Valid()
      ensures book == Step(old(book), event, now).book
      ensures match Step(old(book), event, now)
              case Accepted(_, effects) => r == Success(effects)
              case Refused(_) => r == Failure(RemoteAlreadyConnected)
    {
      assert Fresh(book, event);
      hide Represents, Shape, Fresh, Expire, Change, Reconcile;
      StepKeepsSound(book, event, now);
      ExpireKeepsFresh(book, event, now);
      RefusedExactly(Expire(book, now).0, event);
      var recalls := ExpireOverdue(now);
      if event.Connected? && !agent.Disconnected? {
        return Failure(RemoteAlreadyConnected);
      }
      var immediate := Update(event);
      var effects := ReconcileGates();
      r := Success(recalls + immediate + effects);
    }

    /** Earliest deadline of any pending request. */
    method NextDeadline() returns (d: Option<Instant>)
      ensures d.None? <==> pending == map[]
      ensures d.Some? ==>
                && (exists id :: id in pending && pending[id].deadline == d.value)
                && (forall id <- pending :: d.value <= pending[id].deadline)
    {
      d := None;
      var rest := pending.Keys;
      while rest != {}
        invariant rest <= pending.Keys
        invariant d.None? <==> rest == pending.Keys
        invariant d.Some? ==> exists id :: id in pending && pending[id].deadline == d.value
        invariant d.Some? ==> forall id <- pending.Keys - rest :: d.value <= pending[id].deadline
        decreases rest
      {
        var id :| id in rest;
        if d.None? || pending[id].deadline < d.value {
          d := Some(pending[id].deadline);
        }
        rest := rest - {id};
      }
    }

    /** The given ids, collected in map order and sorted by admission sequence. */
    method SortBySequence(ids: set<RequestId>) returns (sorted: seq<RequestId>)
      requires ids <= pending.Keys
      requires forall x <- ids, y <- ids | x != y :: pending[x].sequence != pending[y].sequence
      ensures InSequence(pending, sorted)
      ensures forall id :: id in sorted <==> id in ids
    {
      sorted := [];
      var rest := ids;
      while rest != {}
        invariant rest <= ids
        invariant InSequence(pending, sorted)
        invariant forall id :: id in sorted <==> id in ids - rest
        decreases rest
      {
        var id :| id in rest;
        var k := |sorted|;
        while 0 < k && pending[id].sequence < pending[sorted[k - 1]].sequence
          invariant 0 <= k <= |sorted|
          invariant forall j | k <= j < |sorted| :: pending[id].sequence < pending[sorted[j]].sequence
        {
          k := k - 1;
        }
        assert 0 < k ==> sorted[k - 1] in ids - rest;
        InsertInSequence(pending, sorted, k, id);
        InsertMembers(sorted, k, id);
        sorted := sorted[..k] + [id] + sorted[k..];
        rest := rest - {id};
      }
    }

    method ExpireOverdue(now: Instant) returns (effects: seq<Effect>)
      requires Consistent()
      modifies `pending, `queue, `book
      ensures Consistent()
      ensures (book, effects) == Expire(old(book), now)
    {
      hide Represents, Shape, Live, Overdue, Recall;
      var ids, expired := CollectOverdue(now);
      queue := Drop(queue, expired);
      effects := Withdraw(ids, Failure(TimedOut));
      book := Expire(book, now).0;
    }

    method CollectOverdue(now: Instant) returns (ids: seq<RequestId>, expired: set<RequestId>)
      requires Consistent()
      ensures NoDuplicates(ids) && (forall id <- ids :: id in pending)
      ensures pending - Elements(ids) == pending - expired
      ensures Represents(pending - expired, Drop(queue, expired), Expire(book, now).0)
      ensures Shape(Expire(book, now).0)
      ensures Withdrawals(pending, ids, Failure(TimedOut)) == Expire(book, now).1
    {
      hide Represents, Shape, Expire;
      expired := set id | id in pending && pending[id].deadline <= now;
      DistinctSequences(pending, queue, book);
      ids := SortBySequence(expired);
      ExpiryTakesTheLedgerStep(pending, queue, book, now, ids, expired);
    }

    /** Change the facts that one event reports. */
    method Update(event: Event) returns (effects: seq<Effect>)
      requires Consistent() && Fresh(book, event)
      requires Change(book, event).Some?
      modifies this
      ensures Consistent()
      ensures Change(old(book), event) == Some((book, effects))
    {
      hide Represents, Shape, Fresh;
      effects := [];
      match event
      case Submit(_, _, _, _, _, _) =>
        effects := Admit(event);
      case Connected(session, capacity) =>
        AgentRepresents(pending, queue, book, Locked(session, capacity));
        ChangeKeepsShape(book, event);
        agent := Locked(session, capacity);
        wakeAnnounced := false;
        book := book.(agent := agent, wakeAnnounced := false);
      case AgentReady(session) =>
        if agent.Holds(session) {
          AgentRepresents(pending, queue, book, Ready(session, agent.capacity));
          ChangeKeepsShape(book, event);
          agent := Ready(session, agent.capacity);
          book := book.(agent := agent);
        }
      case AgentLocked(session) =>
        if agent.Holds(session) {
          AgentRepresents(pending, queue, book, Locked(session, agent.capacity));
          ChangeKeepsShape(book, event);
          agent := Locked(session, agent.capacity);
          book := book.(agent := agent);
        }
      case SessionClosed(session) =>
        if agent.Holds(session) {
          ChangeKeepsShape(book, event);
          RequeueSession(session);
          agent := Disconnected;
          wakeAnnounced := false;
          book := Requeue(book);
        }
      case Response(_, _, _, _) =>
        effects := Resolve(event);
      case CancelRequest(_) =>
        effects := Revoke(event);
      case Tick =>
    }

    method Admit(event: Event) returns (effects: seq<Effect>)
      requires event.Submit? && Consistent() && Fresh(book, event)
      modifies this
      ensures Consistent()
      ensures Change(old(book), event) == Some((book, effects))
    {
      hide Represents, Shape, Fresh;
      PendingCount(pending, queue, book);
      if |pending| >= maxPendingRequests {
        return [Complete(event.requestId, Failure(QueueFull))];
      }
      ChangeKeepsShape(book, event);
      AdmitRepresents(pending, queue, book, event);
      var request := PendingRequest(event.packet, event.context, event.deadline, event.requestedAt,
                                    event.deadlineTimestamp, nextSequence, 0, Queued);
      pending := pending[event.requestId := request];
      queue := queue + [event.requestId];
      nextSequence := nextSequence + 1;
      wakeAnnounced := false;
      book := Change(book, event).value.0;
      effects := [];
    }

    /** A response completes a request only in the session and attempt it is in flight with. */
    method Resolve(event: Event) returns (effects: seq<Effect>)
      requires event.Response? && Consistent()
      modifies this
      ensures Consistent()
      ensures Change(old(book), event) == Some((book, effects))
    {
      hide Represents, Shape, Find, Without;
      var id := event.requestId;
      PendingDetails(pending, queue, book, id);
      if id !in pending || pending[id].state != InFlight(event.sessionId, event.attempt) {
        return [];
      }
      ChangeKeepsShape(book, event);
      RemoveInFlightRepresents(pending, queue, book, id);
      pending := pending - {id};
      book := book.(inFlight := Without(book.inFlight, id));
      effects := [Complete(id, Success(event.packet))];
    }

    method Revoke(event: Event) returns (effects: seq<Effect>)
      requires event.CancelRequest? && Consistent()
      modifies this
      ensures Consistent()
      ensures Change(old(book), event) == Some((book, effects))
    {
      hide Represents, Shape, Find, Without;
      var id := event.requestId;
      PendingDetails(pending, queue, book, id);
      if id !in pending {
        return [];
      }
      ChangeKeepsShape(book, event);
      if Mentions(book.inFlight, id) {
        RemoveInFlightRepresents(pending, queue, book, id);
      } else {
        RemoveQueuedRepresents(pending, queue, book, id);
      }
      queue := Drop(queue, {id});
      assert Elements([id]) == {id};
      effects := Withdraw([id], Failure(Cancelled));
      book := Change(book, event).value.0;
    }

    /** Return one session's unfinished work to the front of the queue. */
    method RequeueSession(session: SessionId)
      requires Consistent() && agent.Holds(session)
      modifies `pending, `queue
      ensures Represents(pending, queue, Requeue(book))
    {
      hide Represents, Shape;
      var requeued := set id | id in pending && pending[id].state.InFlight? && pending[id].state.session == session;
      DistinctSequences(pending, queue, book);
      var ids := SortBySequence(requeued);
      RequeueRepresents(pending, queue, book, session, ids);
      pending := Requeued(pending, session);
      queue := ids + queue;
    }

    /** Dispatch to a connected session, or announce that an offline one is needed. */
    method ReconcileGates() returns (effects: seq<Effect>)
      requires Consistent()
      modifies this
      ensures Consistent()
      ensures (book, effects) == Reconcile(old(book))
    {
      hide Represents, Shape, Room, DispatchesOf, NextAttempts, Reasons;
      effects := [];
      if !agent.Disconnected? {
        effects := DispatchQueued();
      }
      FlagIrrelevant(pending, queue, book);
      if queue == [] || !agent.Disconnected? {
        wakeAnnounced := false;
        book := book.(wakeAnnounced := false);
      } else if !wakeAnnounced {
        var reasons := QueuedReasons();
        wakeAnnounced := true;
        effects := effects + [WakeRequired(reasons)];
        book := book.(wakeAnnounced := true);
      }
      assert Fill(old(book)).1 + [] == Fill(old(book)).1;
    }

    method DispatchQueued() returns (effects: seq<Effect>)
      requires Consistent() && !agent.Disconnected?
      modifies `pending, `queue, `book
      ensures Consistent()
      ensures (book, effects) == Fill(old(book))
    {
      hide Represents, Shape, Occupies, DispatchesOf, NextAttempts;
      ghost var b := book;
      InFlightCount(pending, queue, b, agent.session);
      FillKeepsShape(b);
      FlagIrrelevant(pending, queue, b);
      NothingDispatched(b);
      var inFlight := InFlightFor(agent.session);
      effects := [];
      ghost var k := 0;
      hide Fill, Dispatched;
      while inFlight < agent.capacity && queue != []
        invariant k <= Room(b) && inFlight == |b.inFlight| + k
        invariant |queue| == |b.queued| - k
        invariant book == Dispatched(b, k) && Represents(pending, queue, book)
        invariant effects == DispatchesOf(NextAttempts(b.queued[..k]), agent.session)
      {
        DispatchNext(pending, queue, b, k);
        // Every queued id is pending, so no queued id is skipped.
        var id := queue[0];
        queue := queue[1..];
        var p := pending[id];
        var attempt := p.attempt + 1;
        pending := pending[id := p.(attempt := attempt, state := InFlight(agent.session, attempt))];
        effects := effects + [Dispatch(agent.session, id, attempt, p.requestedAt, p.deadlineTimestamp, p.packet, p.context)];
        inFlight := inFlight + 1;
        k := k + 1;
        book := Dispatched(b, k);
      }
      FillIsDispatched(b);
    }

    /** Number of requests that one session has not answered yet. */
    method InFlightFor(session: SessionId) returns (count: nat)
      ensures count == |set id | id in pending && Occupies(pending[id], session)|
    {
      count := 0;
      var rest := pending.Keys;
      ghost var seen := {};
      while rest != {}
        invariant rest <= pending.Keys
        invariant seen == set id | id in pending.Keys - rest && Occupies(pending[id], session)
        invariant count == |seen|
        decreases rest
      {
        var id :| id in rest;
        if pending[id].state.InFlight? && pending[id].state.session == session {
          count := count + 1;
          seen := seen + {id};
        }
        rest := rest - {id};
      }
      assert seen == set id | id in pending && Occupies(pending[id], session);
    }

    /** Distinct reasons of the queued requests in queue order. */
    method QueuedReasons() returns (reasons: seq<bytes>)
      requires Consistent()
      ensures reasons == Reasons(book.queued)
    {
      hide Represents, Shape;
      FlagIrrelevant(pending, queue, book);
      reasons := [];
      var seen: set<bytes> := {};
      var i := 0;
      while i < |queue|
        invariant 0 <= i <= |queue|
        invariant reasons == Reasons(book.queued[..i])
        invariant forall r :: r in seen <==> r in reasons
      {
        assert book.queued[..i + 1][..i] == book.queued[..i];
        QueuedAt(pending, queue, book, i);
        var p := pending[queue[i]];
        if p.context.Some? && p.context.value.reason !in seen {
          seen := seen + {p.context.value.reason};
          reasons := reasons + [p.context.value.reason];
        }
        i := i + 1;
      }
      assert book.queued[..|queue|] == book.queued;
    }

    /** Remove the given requests, recalling those in flight, and complete each. */
    method Withdraw(ids: seq<RequestId>, result: Answer) returns (effects: seq<Effect>)
      requires NoDuplicates(ids)
      requires forall id <- ids :: id in pending
      modifies `pending
      ensures pending == old(pending) - Elements(ids)
      ensures effects == Withdrawals(old(pending), ids, result)
    {
      ghost var was := pending;
      effects := [];
      var i := 0;
      while i < |ids|
        invariant 0 <= i <= |ids|
        invariant pending == was - Elements(ids[..i])
        invariant effects == Withdrawals(was, ids[..i], result)
      {
        hide Withdrawals, Elements, NoDuplicates;
        var id := ids[i];
        NotYet(ids, i);
        RemoveNext(was, ids, i);
        WithdrawNext(was, ids, i, result);
        var p := pending[id];
        pending := pending - {id};
        if p.state.InFlight? {
          effects := effects + [Cancel(p.state.session, id, p.state.attempt)];
        }
        effects := effects + [Complete(id, result)];
        i := i + 1;
      }
      assert ids[..|ids|] == ids;
    }
  }

  lemma QueuedAt(pending: Pending, queue: seq<RequestId>, b: Book, i: nat)
    requires Represents(pending, queue, b) && i < |b.queued|
    ensures |queue| == |b.queued| && queue[i] in pending && pending[queue[i]] == Stored(b.queued[i], Queued)
  {
    assert b.queued[i] in b.queued;
  }

  lemma WithdrawNext(pending: Pending, ids: seq<RequestId>, i: nat, result: Answer)
    requires i < |ids| && forall id <- ids :: id in pending
    ensures var recalled := match pending[ids[i]].state
                            case Queued => []
                            case InFlight(session, attempt) => [Cancel(session, ids[i], attempt)];
            Withdrawals(pending, ids[..i + 1], result)
            == Withdrawals(pending, ids[..i], result) + recalled + [Complete(ids[i], result)]
  {
    assert ids[..i + 1] == ids[..i] + [ids[i]];
    WithdrawalsConcat(pending, ids[..i], [ids[i]], result);
    assert Withdrawals(pending, [ids[i]], result) == Withdrawal(pending, ids[i], result) by {
      assert [ids[i]][1..] == [];
    }
  }

  lemma NotYet(ids: seq<RequestId>, i: nat)
    requires NoDuplicates(ids) && i < |ids|
    ensures ids[i] !in Elements(ids[..i])
  {
  }

  lemma RemoveNext(pending: Pending, ids: seq<RequestId>, i: nat)
    requires i < |ids|
    ensures pending - Elements(ids[..i]) - {ids[i]} == pending - Elements(ids[..i + 1])
  {
    assert ids[..i + 1] == ids[..i] + [ids[i]];
  }

  // ----- Fact changes -----

  lemma AdmitRepresents(pending: Pending, queue: seq<RequestId>, b: Book, e: Event)
    requires Shape(b) && Represents(pending, queue, b)
    requires e.Submit? && Fresh(b, e) && |b.Entries()| < b.maxPending
    ensures Represents(pending[e.requestId := Stored(NewEntry(e, b.nextSequence), Queued)],
                       queue + [e.requestId],
                       Change(b, e).value.0)
  {
    var entry := NewEntry(e, b.nextSequence);
    var c := Change(b, e).value.0;
    assert c.Entries() == b.Entries() + [entry];
    assert Ids(c.Entries()) == Ids(b.Entries()) + [e.requestId];
    assert Ids(b.queued + [entry]) == Ids(b.queued) + [e.requestId];
    forall x <- b.Entries()
      ensures x.id != e.requestId
    {
      IdsMembers(b.Entries(), x.id);
    }
  }

  lemma AgentRepresents(pending: Pending, queue: seq<RequestId>, b: Book, agent: Agent)
    requires Shape(b) && Represents(pending, queue, b)
    requires b.agent.Disconnected? || (!agent.Disconnected? && b.agent.Holds(agent.session))
    ensures Represents(pending, queue, b.(agent := agent))
    ensures Represents(pending, queue, b.(agent := agent, wakeAnnounced := false))
  {
  }

  /** How the stored state of one id reads in the ledger. */
  lemma PendingDetails(pending: Pending, queue: seq<RequestId>, b: Book, id: RequestId)
    requires Shape(b) && Represents(pending, queue, b)
    ensures id in pending <==> Mentions(b.inFlight, id) || Mentions(b.queued, id)
    ensures Mentions(b.inFlight, id) ==>
              && !b.agent.Disconnected?
              && pending[id].state == InFlight(b.agent.session, b.inFlight[Find(b.inFlight, id)].attempt)
    ensures Mentions(b.queued, id) ==> pending[id].state == Queued
  {
  }

  /** Removing a request in flight leaves the queue alone. */
  lemma RemoveInFlightRepresents(pending: Pending, queue: seq<RequestId>, b: Book, id: RequestId)
    requires Shape(b) && Represents(pending, queue, b) && Mentions(b.inFlight, id)
    ensures Drop(queue, {id}) == queue
    ensures Represents(pending - {id}, queue, b.(inFlight := Without(b.inFlight, id)))
    ensures id in pending
    ensures forall result ::
              Withdrawals(pending, [id], result)
              == Recall([b.inFlight[Find(b.inFlight, id)]], SessionOf(b.agent), result)
  {
    var e := b.inFlight[Find(b.inFlight, id)];
    assert Ids([e]) == [id];
    forall result {
      WithdrawalsAreRecalls(pending, [e], SessionOf(b.agent), result);
    }
    OnlyOneMentions(b, id);
    SelectRepresents(pending, queue, b, OtherThan(id), {id});
    KeepAll(b.queued, OtherThan(id));
  }

  lemma RemoveQueuedRepresents(pending: Pending, queue: seq<RequestId>, b: Book, id: RequestId)
    requires Shape(b) && Represents(pending, queue, b) && Mentions(b.queued, id)
    ensures Represents(pending - {id}, Drop(queue, {id}), b.(queued := Without(b.queued, id)))
    ensures id in pending
    ensures forall result :: Withdrawals(pending, [id], result) == Recall([b.queued[Find(b.queued, id)]], None, result)
  {
    var e := b.queued[Find(b.queued, id)];
    assert Ids([e]) == [id];
    forall result {
      WithdrawalsAreRecalls(pending, [e], None, result);
    }
    OnlyOneMentions(b, id);
    SelectRepresents(pending, queue, b, OtherThan(id), {id});
    KeepAll(b.inFlight, OtherThan(id));
  }

  lemma OnlyOneMentions(b: Book, id: RequestId)
    requires Shape(b)
    ensures Mentions(b.inFlight, id) ==> forall e <- b.queued :: e.id != id
    ensures Mentions(b.queued, id) ==> forall e <- b.inFlight :: e.id != id
  {
    OrderedConcat(b.inFlight, b.queued);
  }

  lemma FlagIrrelevant(pending: Pending, queue: seq<RequestId>, b: Book)
    requires Shape(b) && Represents(pending, queue, b)
    ensures forall flag :: Shape(b.(wakeAnnounced := flag)) && Represents(pending, queue, b.(wakeAnnounced := flag))
    ensures |queue| == |b.queued|
    ensures b.agent.Disconnected? ==> Fill(b) == (b, [])
  {
  }

  ghost function Requeue(b: Book): Book {
    b.(agent := Disconnected, inFlight := [], queued := b.inFlight + b.queued, wakeAnnounced := false)
  }

  function Requeued(pending: Pending, session: SessionId): Pending {
    map id | id in pending ::
      if pending[id].state.InFlight? && pending[id].state.session == session
      then pending[id].(state := Queued)
      else pending[id]
  }

  lemma InFlightIds(
    pending: Pending, queue: seq<RequestId>, b: Book, session: SessionId, ids: seq<RequestId>)
    requires Shape(b) && Represents(pending, queue, b) && b.agent.Holds(session)
    requires InSequence(pending, ids)
    requires forall id :: id in ids <==> id in pending && Occupies(pending[id], session)
    ensures ids == Ids(b.inFlight)
  {
    OrderedConcat(b.inFlight, b.queued);
    OrderedInSequence(pending, b.inFlight);
    forall id
      ensures id in ids <==> id in Ids(b.inFlight)
    {
      IdsMembers(b.inFlight, id);
      if id in ids {
        var e := PendingEntry(pending, queue, b, id);
      }
    }
    InSequenceUnique(pending, ids, Ids(b.inFlight));
  }

  lemma RequeuedHolds(pending: Pending, queue: seq<RequestId>, b: Book, session: SessionId)
    requires Represents(pending, queue, b) && b.agent.Holds(session)
    ensures Requeued(pending, session).Keys == pending.Keys
    ensures HoldsQueued(Requeued(pending, session), b.Entries())
  {
  }

  /** Sorting the requeued ids restores admission order over the whole queue. */
  lemma RequeueRepresents(
    pending: Pending, queue: seq<RequestId>, b: Book, session: SessionId, ids: seq<RequestId>)
    requires Shape(b) && Represents(pending, queue, b) && b.agent.Holds(session)
    requires InSequence(pending, ids)
    requires forall id :: id in ids <==> id in pending && Occupies(pending[id], session)
    ensures Represents(Requeued(pending, session), ids + queue, Requeue(b))
  {
    hide Represents, Shape, InSequence, Requeued, Requeue;
    InFlightIds(pending, queue, b, session, ids);
    RequeueAtFront(pending, queue, b, session);
  }

  lemma RequeueAtFront(pending: Pending, queue: seq<RequestId>, b: Book, session: SessionId)
    requires Represents(pending, queue, b) && b.agent.Holds(session)
    ensures Represents(Requeued(pending, session), Ids(b.inFlight) + queue, Requeue(b))
  {
    RequeuedHolds(pending, queue, b, session);
    hide Requeued, HoldsQueued, HoldsInFlight, Ids;
    assert Requeue(b).Entries() == b.Entries();
    IdsConcat(b.inFlight, b.queued);
  }

  /** The ledger with its first `k` queued entries dispatched. */
  ghost function Dispatched(b: Book, k: nat): Book
    requires k <= |b.queued|
  {
    b.(inFlight := b.inFlight + NextAttempts(b.queued[..k]), queued := b.queued[k..])
  }

  lemma NothingDispatched(b: Book)
    requires !b.agent.Disconnected?
    ensures Dispatched(b, 0) == b
    ensures DispatchesOf(NextAttempts(b.queued[..0]), b.agent.session) == []
  {
  }

  lemma DispatchOne(b: Book, k: nat)
    requires k < |b.queued| && !b.agent.Disconnected?
    ensures var e, before, after := b.queued[k], Dispatched(b, k), Dispatched(b, k + 1);
            && before.queued == [e] + after.queued
            && after.inFlight == before.inFlight + [NextAttempt(e)]
            && DispatchesOf(NextAttempts(b.queued[..k + 1]), b.agent.session)
               == DispatchesOf(NextAttempts(b.queued[..k]), b.agent.session) + [DispatchOf(NextAttempt(e), b.agent.session)]
  {
  }

  lemma FillIsDispatched(b: Book)
    requires !b.agent.Disconnected?
    ensures Room(b) <= |b.queued|
    ensures Fill(b) == (Dispatched(b, Room(b)), DispatchesOf(NextAttempts(b.queued[..Room(b)]), b.agent.session))
    ensures var d := Fill(b).0;
            d.agent == b.agent && d.maxPending == b.maxPending && d.nextSequence == b.nextSequence
            && d.wakeAnnounced == b.wakeAnnounced
  {
  }

  /** Dispatching the first id of the queue, as the stored request has it. */
  lemma DispatchNext(pending: Pending, queue: seq<RequestId>, b: Book, k: nat)
    requires Shape(b) && !b.agent.Disconnected? && k < |b.queued|
    requires Represents(pending, queue, Dispatched(b, k))
    ensures queue != [] && queue[0] in pending
    ensures var p, session := pending[queue[0]], b.agent.session;
            && Represents(pending[queue[0] := p.(attempt := p.attempt + 1, state := InFlight(session, p.attempt + 1))],
                          queue[1..], Dispatched(b, k + 1))
            && DispatchesOf(NextAttempts(b.queued[..k + 1]), session)
               == DispatchesOf(NextAttempts(b.queued[..k]), session)
                  + [Dispatch(session, queue[0], p.attempt + 1, p.requestedAt, p.deadlineTimestamp, p.packet, p.context)]
  {
    hide Shape, Represents, DispatchesOf, NextAttempts;
    DispatchOne(b, k);
    DispatchOneRepresents(pending, queue, b, k);
  }

  lemma DispatchOneRepresents(pending: Pending, queue: seq<RequestId>, b: Book, k: nat)
    requires Shape(b) && !b.agent.Disconnected? && k < |b.queued|
    requires Represents(pending, queue, Dispatched(b, k))
    ensures var e := b.queued[k];
            && e.id in pending && pending[e.id] == Stored(e, Queued)
            && queue == [e.id] + Ids(Dispatched(b, k + 1).queued)
            && Represents(pending[e.id := Stored(NextAttempt(e), InFlight(b.agent.session, e.attempt + 1))],
                          queue[1..], Dispatched(b, k + 1))
  {
    hide Shape;
    var e, before, after := b.queued[k], Dispatched(b, k), Dispatched(b, k + 1);
    DispatchOne(b, k);
    OthersDiffer(b, k);
    MoveOneRepresents(pending, queue, before, after, e);
  }

  lemma MoveOneRepresents(pending: Pending, queue: seq<RequestId>, before: Book, after: Book, e: Entry)
    requires Represents(pending, queue, before) && !before.agent.Disconnected?
    requires before.queued == [e] + after.queued && after.inFlight == before.inFlight + [NextAttempt(e)]
    requires after.agent == before.agent
    requires forall x <- before.inFlight + after.queued :: x.id != e.id
    ensures e.id in pending && pending[e.id] == Stored(e, Queued)
    ensures queue == [e.id] + Ids(after.queued)
    ensures Represents(pending[e.id := Stored(NextAttempt(e), InFlight(before.agent.session, e.attempt + 1))],
                       queue[1..], after)
  {
    MoveOneIds(before, after, e);
    MoveOneHolds(pending, before.inFlight, after.queued, e, before.agent.session);
    hide HoldsQueued, HoldsInFlight, Ids;
    var now := pending[e.id := Stored(NextAttempt(e), InFlight(before.agent.session, e.attempt + 1))];
    assert now.Keys == pending.Keys;
    assert queue[1..] == Ids(after.queued);
  }

  lemma MoveOneIds(before: Book, after: Book, e: Entry)
    requires before.queued == [e] + after.queued && after.inFlight == before.inFlight + [NextAttempt(e)]
    ensures Ids(after.Entries()) == Ids(before.Entries())
    ensures Ids(before.queued) == [e.id] + Ids(after.queued)
  {
  }

  lemma MoveOneHolds(pending: Pending, inFlight: seq<Entry>, queued: seq<Entry>, e: Entry, session: SessionId)
    requires HoldsInFlight(pending, inFlight, session) && HoldsQueued(pending, [e] + queued)
    requires forall x <- inFlight + queued :: x.id != e.id
    ensures e.id in pending && pending[e.id] == Stored(e, Queued)
    ensures var now := pending[e.id := Stored(NextAttempt(e), InFlight(session, e.attempt + 1))];
            HoldsInFlight(now, inFlight + [NextAttempt(e)], session) && HoldsQueued(now, queued)
  {
  }

  lemma OthersDiffer(b: Book, k: nat)
    requires Shape(b) && k < |b.queued|
    ensures forall x <- Dispatched(b, k).inFlight + b.queued[k + 1..] :: x.id != b.queued[k].id
  {
    OrderedConcat(b.inFlight, b.queued);
  }

  lemma InsertInSequence(pending: Pending, sorted: seq<RequestId>, k: nat, id: RequestId)
    requires InSequence(pending, sorted) && id in pending && k <= |sorted|
    requires 0 < k ==> pending[sorted[k - 1]].sequence < pending[id].sequence
    requires forall j | k <= j < |sorted| :: pending[id].sequence < pending[sorted[j]].sequence
    ensures InSequence(pending, sorted[..k] + [id] + sorted[k..])
  {
    var r := sorted[..k] + [id] + sorted[k..];
    assert forall j | 0 <= j < k :: r[j] == sorted[j] && pending[sorted[j]].sequence < pending[id].sequence;
    assert r[k] == id;
    assert forall j | k < j < |r| :: r[j] == sorted[j - 1];
    InsertMembers(sorted, k, id);
    forall i, j | 0 <= i < j < |r|
      ensures pending[r[i]].sequence < pending[r[j]].sequence
    {
    }
  }

  /** What removing the sorted overdue ids achieves, in the ledger's terms. */
  lemma ExpiryTakesTheLedgerStep(
    pending: Pending, queue: seq<RequestId>, b: Book, now: Instant, ids: seq<RequestId>, expired: set<RequestId>)
    requires Shape(b) && Represents(pending, queue, b)
    requires expired == set id | id in pending && pending[id].deadline <= now
    requires InSequence(pending, ids) && forall id :: id in ids <==> id in expired
    ensures NoDuplicates(ids) && pending - Elements(ids) == pending - expired
    ensures Represents(pending - expired, Drop(queue, expired), Expire(b, now).0)
    ensures Shape(Expire(b, now).0)
    ensures Withdrawals(pending, ids, Failure(TimedOut)) == Expire(b, now).1
  {
    hide Represents, Shape, Expire, OverdueIds;
    assert NoDuplicates(ids);
    assert Elements(ids) == expired;
    hide InSequence, Withdrawals, Drop;
    assert ids == OverdueIds(b, now) by {
      OverdueInSequence(pending, queue, b, now);
      InSequenceUnique(pending, ids, OverdueIds(b, now));
    }
    OverdueWithdrawn(pending, queue, b, now);
    ExpiredRepresents(pending, queue, b, now, expired);
    ExpireKeepsShape(b, now);
  }

  lemma DistinctSequences(pending: Pending, queue: seq<RequestId>, b: Book)
    requires Shape(b) && Represents(pending, queue, b)
    ensures forall x <- pending, y <- pending | x != y :: pending[x].sequence != pending[y].sequence
  {
  }

  lemma OverdueWithdrawn(pending: Pending, queue: seq<RequestId>, b: Book, now: Instant)
    requires Shape(b) && Represents(pending, queue, b)
    ensures forall id <- OverdueIds(b, now) :: id in pending
    ensures Withdrawals(pending, OverdueIds(b, now), Failure(TimedOut)) == Expire(b, now).1
  {
    var flying, waiting := Overdue(b.inFlight, now), Overdue(b.queued, now);
    assert HoldsQueued(pending, waiting) by {
      KeepMembers(b.queued, OverdueAt(now));
    }
    if b.agent.Disconnected? {
      assert flying == [];
      hide Represents, Shape, HoldsQueued, HoldsInFlight, Withdrawals, Overdue, Ids;
      assert flying + waiting == waiting;
      WithdrawalsAreRecalls(pending, waiting, None, Failure(TimedOut));
      assert Recall(flying, None, Failure(TimedOut)) == [] && [] + Expire(b, now).1 == Expire(b, now).1;
    } else {
      assert HoldsInFlight(pending, flying, b.agent.session) by {
        KeepMembers(b.inFlight, OverdueAt(now));
      }
      hide Represents, Shape, HoldsQueued, HoldsInFlight, Recall, Withdrawals, Overdue, Ids;
      WithdrawalsAreRecalls(pending, flying, Some(b.agent.session), Failure(TimedOut));
      WithdrawalsAreRecalls(pending, waiting, None, Failure(TimedOut));
      IdsConcat(flying, waiting);
      WithdrawalsConcat(pending, Ids(flying), Ids(waiting), Failure(TimedOut));
    }
  }

  lemma ExpiredRepresents(
    pending: Pending, queue: seq<RequestId>, b: Book, now: Instant, expired: set<RequestId>)
    requires Shape(b) && Represents(pending, queue, b)
    requires expired == set id | id in pending && pending[id].deadline <= now
    ensures Represents(pending - expired, Drop(queue, expired), Expire(b, now).0)
  {
    forall e <- b.Entries()
      ensures e.id in expired <==> !LiveAt(now)(e)
    {
      IdsMembers(b.Entries(), e.id);
    }
    SelectRepresents(pending, queue, b, LiveAt(now), expired);
  }
}
