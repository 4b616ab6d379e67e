/** What every reachable state of the broker and its clients satisfies. */
module RemoteSafety {
  import opened Basics
  import opened BrokerTypes
  import opened Ledger
  import opened LedgerSafety
  import opened LedgerEffects
  import opened LedgerHistory
  import opened LinkReplay
  import opened RemoteProtocol

  /** Any prefix of what a client has not received yet fits the capacity and what was lost. */
  ghost predicate Deliverable(link: Link) {
    && Fits(link.buffer, link.down, link.Load())
    && (link.capacity == 0 ==> link.lost == {})
    && (!link.open ==> link.buffer == {})
  }

  ghost predicate ActiveInv(b: Book, link: Link, used: set<RequestId>) {
    && !b.agent.Disconnected?
    && link.capacity == Bound(b.agent.capacity, b.maxPending)
    && LinkInv(Keys(b.inFlight), link)
    && Known(OnLink(link), b, used)
  }

  ghost predicate Inv(s: System) {
    && Sound(s.broker) && AllUsed(s.broker, s.used)
    && (!s.broker.agent.Disconnected? ==>
          s.broker.agent.session in s.links && ActiveInv(s.broker, s.links[s.broker.agent.session], s.used))
    && (forall session <- s.links :: Deliverable(s.links[session]))
  }

  lemma ActiveIsDeliverable(b: Book, link: Link, used: set<RequestId>)
    requires ActiveInv(b, link, used)
    ensures Deliverable(link)
  {
  }

  // ----- Broker steps -----

  /** Broker events that keep the active session. */
  lemma BrokerStepKeepsInv(s: System, e: Event, now: Instant)
    requires Inv(s) && NewIn(e, s.used)
    requires !e.Connected? && !e.Response? && !(e.SessionClosed? && s.broker.agent.Holds(e.sessionId))
    ensures Inv(BrokerStep(s, e, now))
  {
    hide ActiveInv, Deliverable, Sound, AllUsed, NewIn, Step, Fresh, Post, Emits;
    var b, after := s.broker, Step(s.broker, e, now).book;
    NewIsFresh(b, e, s.used);
    StepKeepsSound(b, e, now);
    StepUses(b, e, now, s.used);
    if b.agent.Disconnected? {
      StaysDisconnected(b, e, now);
    } else {
      ActiveStep(b, e, now, s.links[b.agent.session], s.used);
    }
  }

  lemma StaysDisconnected(b: Book, e: Event, now: Instant)
    requires b.agent.Disconnected? && !e.Connected?
    ensures Step(b, e, now).book.agent.Disconnected?
  {
  }

  lemma ActiveStep(b: Book, e: Event, now: Instant, link: Link, used: set<RequestId>)
    requires Sound(b) && AllUsed(b, used) && NewIn(e, used) && ActiveInv(b, link, used)
    requires !e.Connected? && !e.Response? && !(e.SessionClosed? && b.agent.Holds(e.sessionId))
    ensures var o := Step(b, e, now);
            var next := Post(link, Emits(o), b.agent.session);
            && o.book.agent.Holds(b.agent.session)
            && ActiveInv(o.book, next, UsedAfter(e, used)) && Deliverable(next)
  {
    hide Sound, AllUsed, NewIn, Step, Post, Emits, Known, OnLink, Keys, LinkInv, UsedAfter;
    assert Keys(b.inFlight) - {} == Keys(b.inFlight);
    StepOnLink(b, e, now, link, used);
    PostKeepsShape(link, Emits(Step(b, e, now)), b.agent.session);
    ActiveIsDeliverable(Step(b, e, now).book, Post(link, Emits(Step(b, e, now)), b.agent.session), UsedAfter(e, used));
  }

  lemma PostKeepsShape(link: Link, effects: seq<Effect>, session: SessionId)
    ensures var next := Post(link, effects, session);
            && next.capacity == link.capacity && next.buffer == link.buffer && next.open == link.open
            && next.up == link.up && next.lost == link.lost
  {
  }

  /** The end of the active session leaves its link to itself. */
  lemma CloseKeepsInv(s: System, session: SessionId, now: Instant)
    requires Inv(s) && s.broker.agent.Holds(session)
    ensures Inv(BrokerStep(s, SessionClosed(session), now))
  {
    hide ActiveInv, Deliverable, Sound, AllUsed, Step, Post, Emits;
    var b, e := s.broker, SessionClosed(session);
    StepKeepsSound(b, e, now);
    StepUses(b, e, now, s.used);
    ClosesSession(b, session, now);
  }

  lemma ClosesSession(b: Book, session: SessionId, now: Instant)
    requires b.agent.Holds(session)
    ensures Step(b, SessionClosed(session), now).book.agent.Disconnected?
  {
  }

  /** A new session starts on an empty link. */
  lemma ConnectKeepsInv(s: System, session: SessionId, capacity: nat, now: Instant)
    requires Inv(s) && session !in s.links && s.broker.agent.Disconnected?
    ensures var started := s.(links := s.links[session := NewLink(capacity, s.broker.maxPending)]);
            Inv(BrokerStep(started, Connected(session, capacity), now))
  {
    hide ActiveInv, Deliverable, Sound, AllUsed, Step, Post, Emits;
    var b, e, link := s.broker, Connected(session, capacity), NewLink(capacity, s.broker.maxPending);
    StepKeepsSound(b, e, now);
    StepUses(b, e, now, s.used);
    FirstPost(b, session, capacity, now, s.used);
  }

  lemma FirstPost(b: Book, session: SessionId, capacity: nat, now: Instant, used: set<RequestId>)
    requires Sound(b) && AllUsed(b, used) && b.agent.Disconnected?
    ensures var o := Step(b, Connected(session, capacity), now);
            var next := Post(NewLink(capacity, b.maxPending), Emits(o), session);
            && o.book.agent.Holds(session)
            && ActiveInv(o.book, next, used) && Deliverable(next)
  {
    hide Step, Expire, Change, Fill, LinkInv, OnLink, Known, Sound, AllUsed, Commands, Sent, Requests, Emits;
    var e, link := Connected(session, capacity), NewLink(capacity, b.maxPending);
    var o := Step(b, e, now);
    ConnectedState(b, session, capacity, now);
    var changed := Change(Expire(b, now).0, e).value.0;
    StepLeaves(b, e, now);
    EmptyLink(Bound(capacity, b.maxPending), b, used);
    StepCommands(b, e, now, session);
    SilentExpire(b, now, session);
    KeysEmpty();
    RequestsLand(b, e, now, link, used);
    CommandsOfDispatches(Sent(changed), session);
    assert [] + Requests(Sent(changed)) == [] + ([] + [] + Requests(Sent(changed)));
    ActiveIsDeliverable(o.book, Post(link, Emits(o), session), used);
  }

  lemma ConnectedState(b: Book, session: SessionId, capacity: nat, now: Instant)
    requires Sound(b) && b.agent.Disconnected?
    ensures var c := Change(Expire(b, now).0, Connected(session, capacity));
            && c.Some? && c.value.1 == [] && c.value.0.inFlight == []
            && c.value.0.agent == Locked(session, capacity) && c.value.0.maxPending == b.maxPending
            && Step(b, Connected(session, capacity), now).book.maxPending == b.maxPending
            && Commands(c.value.1, session) == []
  {
  }

  lemma EmptyLink(capacity: nat, b: Book, used: set<RequestId>)
    ensures LinkInv({}, Link(capacity, [], {}, [], true, {}))
    ensures Known(OnLink(Link(capacity, [], {}, [], true, {})), b, used)
  {
  }

  lemma SilentExpire(b: Book, now: Instant, session: SessionId)
    requires Sound(b) && b.agent.Disconnected?
    ensures Commands(Expire(b, now).1, session) == []
  {
    assert Overdue(b.inFlight, now) == [];
    SilentRecall(Overdue(b.queued, now), Failure(TimedOut));
    SilentRecall([], Failure(TimedOut));
    CommandsNone(Expire(b, now).1, session);
  }

  /** A refused session keeps the invariant: what is overdue in flight is lost. */
  lemma RefusalKeepsInv(s: System, session: SessionId, capacity: nat, now: Instant)
    requires Inv(s) && !s.broker.agent.Disconnected?
    ensures Inv(BrokerStep(DropRecalls(s, now), Connected(session, capacity), now))
  {
    hide ActiveInv, Deliverable, Sound, AllUsed, Post, Step, Keys, Overdue;
    var b, e, active := s.broker, Connected(session, capacity), s.broker.agent.session;
    var dropped := DropRecalls(s, now);
    StepKeepsSound(b, e, now);
    StepUses(b, e, now, s.used);
    RefusalKeepsActive(b, e, now, s.links[active], s.used);
    NothingPosted(dropped.links[active], active);
    assert BrokerStep(dropped, e, now).links == dropped.links;
  }

  lemma RefusalKeepsActive(b: Book, e: Event, now: Instant, link: Link, used: set<RequestId>)
    requires Sound(b) && ActiveInv(b, link, used) && e.Connected?
    ensures var o := Step(b, e, now);
            var next := link.(lost := link.lost + Keys(Overdue(b.inFlight, now)));
            && Emits(o) == [] && o.book.agent == b.agent
            && ActiveInv(o.book, next, used) && Deliverable(next)
  {
    var gone := Keys(Overdue(b.inFlight, now));
    StepKnows(b, e, now, OnLink(link), used);
    KeysOfExpired(b, now);
    OverdueInFlight(b, now);
    hide Known, LinkInv, OnLink, Keys, Overdue, Recall, Live, Sound;
    LoseMove(Keys(b.inFlight), link, gone);
    ActiveIsDeliverable(Step(b, e, now).book, link.(lost := link.lost + gone), used);
  }

  lemma OverdueInFlight(b: Book, now: Instant)
    ensures Keys(Overdue(b.inFlight, now)) <= Keys(b.inFlight)
  {
    KeepMembers(b.inFlight, OverdueAt(now));
  }

  lemma NothingPosted(link: Link, session: SessionId)
    ensures Post(link, [], session) == link
  {
  }

  /** A reply is taken off its link and handed to the broker. */
  lemma ReplyKeepsInv(s: System, session: SessionId, now: Instant)
    requires Inv(s) && session in s.links && s.links[session].up != []
    ensures Inv(Next(s, DeliverReply(session, now)).0)
  {
    hide ActiveInv, Deliverable, Sound, AllUsed, Step, Post, Emits;
    var b, link := s.broker, s.links[session];
    var reply := link.up[0];
    var e := Response(session, reply.key.requestId, reply.key.attempt, reply.packet);
    var taken := link.(up := link.up[1..]);
    StepKeepsSound(b, e, now);
    StepUses(b, e, now, s.used);
    assert Deliverable(taken) by {
      TakenIsDeliverable(link);
    }
    if b.agent.Disconnected? {
      StaysDisconnected(b, e, now);
    } else {
      var active := b.agent.session;
      if active == session {
        ActiveReply(b, e, now, link, s.used);
      } else {
        IdleReply(b, e, now, s.links[active], s.used);
      }
    }
  }

  lemma TakenIsDeliverable(link: Link)
    requires Deliverable(link) && link.up != []
    ensures Deliverable(link.(up := link.up[1..]))
  {
  }

  lemma ActiveReply(b: Book, e: Event, now: Instant, link: Link, used: set<RequestId>)
    requires Sound(b) && AllUsed(b, used) && ActiveInv(b, link, used) && link.up != []
    requires e.Response? && e.sessionId == b.agent.session
    requires Key(e.requestId, e.attempt) == link.up[0].key
    ensures var o := Step(b, e, now);
            var next := Post(link.(up := link.up[1..]), Emits(o), b.agent.session);
            && o.book.agent.Holds(b.agent.session)
            && ActiveInv(o.book, next, used) && Deliverable(next)
  {
    var taken := link.(up := link.up[1..]);
    assert NewIn(e, used) && UsedAfter(e, used) == used;
    ReplyMove(Keys(b.inFlight), link);
    KnownSubset(OnLink(taken), OnLink(link), b, used);
    hide Sound, AllUsed, NewIn, Step, Post, Emits, Known, OnLink, Keys, LinkInv, UsedAfter;
    StepOnLink(b, e, now, taken, used);
    PostKeepsShape(taken, Emits(Step(b, e, now)), b.agent.session);
    ActiveIsDeliverable(Step(b, e, now).book, Post(taken, Emits(Step(b, e, now)), b.agent.session), used);
  }

  lemma ResponseUsesNothing(e: Event, used: set<RequestId>)
    requires e.Response?
    ensures NewIn(e, used) && UsedAfter(e, used) == used
  {
  }

  lemma IdleReply(b: Book, e: Event, now: Instant, link: Link, used: set<RequestId>)
    requires Sound(b) && AllUsed(b, used) && ActiveInv(b, link, used)
    requires e.Response? && e.sessionId != b.agent.session
    ensures var o := Step(b, e, now);
            var next := Post(link, Emits(o), b.agent.session);
            && o.book.agent.Holds(b.agent.session)
            && ActiveInv(o.book, next, used) && Deliverable(next)
  {
    hide Sound, AllUsed, NewIn, Step, Post, Emits, Known, OnLink, Keys, LinkInv, UsedAfter;
    ResponseUsesNothing(e, used);
    assert Keys(b.inFlight) - {} == Keys(b.inFlight);
    StepOnLink(b, e, now, link, used);
    PostKeepsShape(link, Emits(Step(b, e, now)), b.agent.session);
    ActiveIsDeliverable(Step(b, e, now).book, Post(link, Emits(Step(b, e, now)), b.agent.session), used);
  }

  lemma KnownSubset(small: set<Key>, all: set<Key>, b: Book, used: set<RequestId>)
    requires small <= all && Known(all, b, used)
    ensures Known(small, b, used)
  {
  }

  // ----- Client steps -----

  lemma ClientStepKeepsInv(s: System, session: SessionId, next: Link)
    requires Inv(s) && session in s.links && Deliverable(next)
    requires s.broker.agent.Holds(session) ==> ActiveInv(s.broker, next, s.used)
    ensures Inv(s.(links := s.links[session := next]))
  {
  }

  lemma ReceiveKeeps(b: Book, link: Link, used: set<RequestId>)
    requires Deliverable(link) && link.open && link.down != []
    ensures Receive(link).1.Some? ==>
              Receive(link).1 == Some(BufferFull) && link.capacity > 0 && link.Load() > MAX_PENDING_REQUESTS
    ensures Deliverable(Receive(link).0)
    ensures ActiveInv(b, link, used) ==> ActiveInv(b, Receive(link).0, used)
  {
    var c := link.down[0];
    var buffer := if c.Request? then link.buffer + {KeyOf(c)} else link.buffer - {KeyOf(c)};
    var received := link.(down := link.down[1..], buffer := buffer);
    if c.Request? {
      DeliveryFits(link.buffer, link.down, link.Load());
    }
    if ActiveInv(b, link, used) {
      DeliverMove(Keys(b.inFlight), link);
      KnownSubset(OnLink(received), OnLink(link), b, used);
    }
    hide Fits, LinkInv, Known, OnLink, Keys;
    ClientCloseKeeps(b, received, used);
  }

  lemma RespondKeeps(b: Book, link: Link, used: set<RequestId>, key: Key, packet: bytes)
    requires Deliverable(link) && link.open && key in link.buffer
    ensures var next := link.(buffer := link.buffer - {key}, up := link.up + [Reply(key, packet)]);
            Deliverable(next) && (ActiveInv(b, link, used) ==> ActiveInv(b, next, used))
  {
    FitsShrinks(link.buffer - {key}, link.buffer, link.down, link.Load());
    if ActiveInv(b, link, used) {
      var next := link.(buffer := link.buffer - {key}, up := link.up + [Reply(key, packet)]);
      RespondMove(Keys(b.inFlight), link, key, packet);
      KnownSubset(OnLink(next), OnLink(link), b, used);
    }
  }

  lemma ClientCloseKeeps(b: Book, link: Link, used: set<RequestId>)
    requires Deliverable(link)
    ensures var next := link.(open := false, buffer := {});
            Deliverable(next) && (ActiveInv(b, link, used) ==> ActiveInv(b, next, used))
  {
    FitsShrinks({}, link.buffer, link.down, link.Load());
    if ActiveInv(b, link, used) {
      ClientClosesMove(Keys(b.inFlight), link);
      KnownSubset(OnLink(link.(open := false, buffer := {})), OnLink(link), b, used);
    }
  }

  // ----- Whole runs -----

  /**
   Every step keeps the distributed invariant. No client ever reports a
   duplicate, and one reports a full buffer only on a link whose capacity and
   lost requests exceed what it buffers.
   */
  lemma NextKeepsInv(s: System, a: Action)
    requires Inv(s) && Enabled(s, a)
    ensures Inv(Next(s, a).0)
    ensures Next(s, a).1.Some? ==>
              && Next(s, a).1 == Some(BufferFull) && a.Deliver? && s.links[a.session].capacity > 0
              && s.links[a.session].Load() > MAX_PENDING_REQUESTS
  {
    hide ActiveInv, Sound, AllUsed, Step, Post, Emits, Receive, DropRecalls;
    match a
    case Local(e, now) =>
      BrokerStepKeepsInv(s, e, now);
    case Connect(session, capacity, now) =>
      if s.broker.agent.Disconnected? {
        ConnectKeepsInv(s, session, capacity, now);
      } else {
        RefusalKeepsInv(s, session, capacity, now);
      }
    case ServerCloses(session, now) =>
      if s.broker.agent.Holds(session) {
        CloseKeepsInv(s, session, now);
      } else {
        BrokerStepKeepsInv(s, SessionClosed(session), now);
      }
    case Deliver(session) =>
      ReceiveKeeps(s.broker, s.links[session], s.used);
      ClientStepKeepsInv(s, session, Receive(s.links[session]).0);
    case Respond(session, key, packet) =>
      RespondKeeps(s.broker, s.links[session], s.used, key, packet);
      var link := s.links[session];
      ClientStepKeepsInv(s, session, link.(buffer := link.buffer - {key}, up := link.up + [Reply(key, packet)]));
    case DeliverReply(session, now) =>
      ReplyKeepsInv(s, session, now);
    case ClientCloses(session) =>
      ClientCloseKeeps(s.broker, s.links[session], s.used);
      ClientStepKeepsInv(s, session, s.links[session].(open := false, buffer := {}));
  }

  /** A run is a sequence of enabled actions; `At` is the state after it. */
  ghost predicate IsRun(max: nat, run: seq<Action>)
    decreases |run|, 0
  {
    run != [] ==>
      var n := |run| - 1;
      IsRun(max, run[..n]) && Enabled(At(max, run[..n]), run[n])
  }

  ghost function At(max: nat, run: seq<Action>): System
    requires IsRun(max, run)
    decreases |run|, 1
  {
    if run == [] then RemoteProtocol.Opening(max)
    else
      var n := |run| - 1;
      Next(At(max, run[..n]), run[n]).0
  }

  /**
   In every reachable state the invariant holds: replaying any prefix of the
   undelivered commands is free of duplicates and stays within capacity and what
   was lost, the full replay is in flight or lost at the broker, and while the
   client is attached nothing in flight is missing.
   */
  lemma {:induction false} ReachableStatesAreSafe(max: nat, run: seq<Action>)
    requires IsRun(max, run)
    ensures Inv(At(max, run))
  {
    if run != [] {
      var n := |run| - 1;
      hide Inv;
      ReachableStatesAreSafe(max, run[..n]);
      NextKeepsInv(At(max, run[..n]), run[n]);
    } else {
      assert Sound(Ledger.Opening(max));
    }
  }

  /** No run makes a client report a duplicate request. */
  lemma NeverDuplicate(max: nat, run: seq<Action>, a: Action)
    requires IsRun(max, run) && Enabled(At(max, run), a)
    ensures Next(At(max, run), a).1 != Some(DuplicateRequest)
  {
    ReachableStatesAreSafe(max, run);
    hide Inv;
    NextKeepsInv(At(max, run), a);
  }

  // ----- Capacities and losses -----

  /** All sessions of the run are opened with at most this capacity. */
  ghost predicate Capacities(run: seq<Action>, limit: nat) {
    forall a <- run :: a.Connect? ==> a.capacity <= limit
  }

  lemma Extend(max: nat, run: seq<Action>, limit: nat, a: Action)
    requires IsRun(max, run) && Capacities(run, limit)
    requires Enabled(At(max, run), a) && (a.Connect? ==> a.capacity <= limit)
    ensures IsRun(max, run + [a]) && Capacities(run + [a], limit)
    ensures At(max, run + [a]) == Next(At(max, run), a).0
  {
    assert (run + [a])[..|run|] == run;
  }

  /** No link has lost more than this many requests. */
  ghost predicate Losses(s: System, losses: nat) {
    forall session <- s.links :: |s.links[session].lost| <= losses
  }

  ghost predicate LinksWithin(s: System, bound: nat) {
    forall session <- s.links :: s.links[session].capacity <= bound
  }

  lemma NextKeepsLinksWithin(s: System, a: Action, limit: nat)
    requires Enabled(s, a) && LinksWithin(s, Bound(limit, s.broker.maxPending)) && (a.Connect? ==> a.capacity <= limit)
    ensures LinksWithin(Next(s, a).0, Bound(limit, s.broker.maxPending))
    ensures Next(s, a).0.broker.maxPending == s.broker.maxPending
  {
    hide Step, Emits, Commands, Enqueue, Keys, Overdue;
    match a
    case Local(e, now) => StepKeepsLimit(s.broker, e, now);
    case Connect(session, capacity, now) => StepKeepsLimit(s.broker, Connected(session, capacity), now);
    case ServerCloses(session, now) => StepKeepsLimit(s.broker, SessionClosed(session), now);
    case DeliverReply(session, now) =>
      var reply := s.links[session].up[0];
      StepKeepsLimit(s.broker, Response(session, reply.key.requestId, reply.key.attempt, reply.packet), now);
    case _ =>
  }

  lemma StepKeepsLimit(b: Book, e: Event, now: Instant)
    ensures Step(b, e, now).book.maxPending == b.maxPending
  {
    hide Recall, Live, Overdue, Reasons, DispatchesOf, NextAttempts, Room;
  }

  lemma {:induction false} RunsWithin(max: nat, run: seq<Action>, limit: nat)
    requires IsRun(max, run) && Capacities(run, limit)
    ensures LinksWithin(At(max, run), Bound(limit, max)) && At(max, run).broker.maxPending == max
  {
    if run != [] {
      var n := |run| - 1;
      hide LinksWithin, Next, Enabled;
      RunsWithin(max, run[..n], limit);
      NextKeepsLinksWithin(At(max, run[..n]), run[n], limit);
    }
  }

  /** A client reports an error only where capacity and losses together exceed what it buffers. */
  lemma FaultsNeedLoad(max: nat, run: seq<Action>, a: Action, limit: nat, losses: nat)
    requires IsRun(max, run) && Enabled(At(max, run), a) && Capacities(run, limit) && Losses(At(max, run), losses)
    requires Bound(limit, max) == 0 || Bound(limit, max) + losses <= MAX_PENDING_REQUESTS
    ensures Next(At(max, run), a).1 == None
  {
    ReachableStatesAreSafe(max, run);
    RunsWithin(max, run, limit);
    hide Inv, IsRun, At, Next;
    NextKeepsInv(At(max, run), a);
  }
}
