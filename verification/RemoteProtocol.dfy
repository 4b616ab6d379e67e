/**
 The broker and its clients over FIFO channels. Each remote session has its own
 link; a client that has closed its side receives nothing more, but what it
 sent before may still arrive.
 */
module RemoteProtocol {
  import opened Basics
  import opened BrokerTypes
  import opened Ledger
  import opened LedgerSafety
  import opened LedgerEffects
  import opened LedgerHistory
  import opened LinkReplay
  import BrokerActor

  datatype System = System(broker: Book, links: map<SessionId, Link>, used: set<RequestId>)

  datatype Action =
    | Local(event: Event, now: Instant)
    | Connect(session: SessionId, capacity: nat, now: Instant)
    | ServerCloses(session: SessionId, now: Instant)
    | Deliver(session: SessionId)
    | Respond(session: SessionId, key: Key, packet: bytes)
    | DeliverReply(session: SessionId, now: Instant)
    | ClientCloses(session: SessionId)

  function Opening(max: nat): System {
    System(Ledger.Opening(max), map[], {})
  }

  // ----- Steps of the system -----

  /** Commands that one broker step puts on the link of a session. */
  function Commands(effects: seq<Effect>, session: SessionId): seq<RemoteCommand> {
    if effects == [] then []
    else
      var f := effects[0];
      (if BrokerActor.IsFor(f, session) then [BrokerActor.CommandOf(f)] else [])
      + Commands(effects[1..], session)
  }

  /** They are what the actor sends to that session when no send fails. */
  lemma {:induction false} CommandsAreSent(effects: seq<Effect>, session: SessionId, delivers: nat -> bool, i: nat)
    requires forall k | i <= k < i + |effects| :: delivers(k)
    ensures var sent := BrokerActor.SentCommands(effects, Some(session), delivers, i);
            && |sent| == |Commands(effects, session)|
            && forall k | 0 <= k < |sent| :: sent[k] == (session, Commands(effects, session)[k])
    decreases |effects|
  {
    if effects != [] {
      CommandsAreSent(effects[1..], session, delivers, i + 1);
    }
  }

  function Post(link: Link, effects: seq<Effect>, session: SessionId): Link {
    link.(down := link.down + Commands(effects, session))
  }

  /** A broker step, its commands posted to the session it leaves connected. */
  function BrokerStep(s: System, e: Event, now: Instant): System {
    var o := Step(s.broker, e, now);
    var active := o.book.agent;
    s.(broker := o.book,
       links := if !active.Disconnected? && active.session in s.links
                then s.links[active.session := Post(s.links[active.session], Emits(o), active.session)]
                else s.links,
       used := if e.Submit? then s.used + {e.requestId} else s.used)
  }

  /** A broker has no more in flight than the session takes, nor than it keeps pending in all. */
  function Bound(capacity: nat, maxPending: nat): nat {
    if capacity < maxPending then capacity else maxPending
  }

  function NewLink(capacity: nat, maxPending: nat): Link {
    Link(Bound(capacity, maxPending), [], {}, [], true, {})
  }

  /** A refusal drops what is overdue in flight, together with its recalls. */
  function DropRecalls(s: System, now: Instant): System {
    if s.broker.agent.Disconnected? || s.broker.agent.session !in s.links then s
    else
      var session := s.broker.agent.session;
      var link := s.links[session];
      s.(links := s.links[session := link.(lost := link.lost + Keys(Overdue(s.broker.inFlight, now)))])
  }

  predicate Enabled(s: System, a: Action) {
    match a
    case Local(e, _) =>
      && !e.Connected? && !e.SessionClosed? && !e.Response?
      && (e.Submit? ==> e.requestId !in s.used)
    case Connect(session, capacity, _) => session !in s.links
    case ServerCloses(session, _) => session in s.links
    case Deliver(session) => session in s.links && s.links[session].open && s.links[session].down != []
    case Respond(session, key, _) => session in s.links && s.links[session].open && key in s.links[session].buffer
    case DeliverReply(session, _) => session in s.links && s.links[session].up != []
    case ClientCloses(session) => session in s.links
  }

  function Receive(link: Link): (Link, Option<Fault>)
    requires link.down != []
  {
    var c, rest := link.down[0], link.down[1..];
    match c
    case Request(_, _, _, _, _, _) =>
      (match Enqueue(link.buffer, KeyOf(c))
       case Success(buffer) => (link.(down := rest, buffer := buffer), None)
       case Failure(fault) => (link.(down := rest, buffer := {}, open := false), Some(fault)))
    case CancelAttempt(_, _) => (link.(down := rest, buffer := link.buffer - {KeyOf(c)}), None)
  }

  function Next(s: System, a: Action): (System, Option<Fault>)
    requires Enabled(s, a)
  {
    match a
    case Local(e, now) => (BrokerStep(s, e, now), None)
    case Connect(session, capacity, now) =>
      if s.broker.agent.Disconnected? then
        (BrokerStep(s.(links := s.links[session := NewLink(capacity, s.broker.maxPending)]),
                    Connected(session, capacity), now),
         None)
      else (BrokerStep(DropRecalls(s, now), Connected(session, capacity), now), None)
    case ServerCloses(session, now) => (BrokerStep(s, SessionClosed(session), now), None)
    case Deliver(session) =>
      var (link, fault) := Receive(s.links[session]);
      (s.(links := s.links[session := link]), fault)
    case Respond(session, key, packet) =>
      var link := s.links[session];
      (s.(links := s.links[session := link.(buffer := link.buffer - {key}, up := link.up + [Reply(key, packet)])]), None)
    case DeliverReply(session, now) =>
      var link := s.links[session];
      var reply := link.up[0];
      (BrokerStep(s.(links := s.links[session := link.(up := link.up[1..])]),
                  Response(session, reply.key.requestId, reply.key.attempt, reply.packet), now), None)
    case ClientCloses(session) =>
      (s.(links := s.links[session := s.links[session].(open := false, buffer := {})]), None)
  }

  // ----- What the broker has in flight, as keys -----

  function EntryKey(e: Entry): Key {
    Key(e.id, e.attempt)
  }

  function Keys(es: seq<Entry>): set<Key> {
    set e | e in es :: EntryKey(e)
  }

  lemma KeysConcat(a: seq<Entry>, b: seq<Entry>)
    ensures Keys(a + b) == Keys(a) + Keys(b)
  {
  }

  lemma KeysAppend(es: seq<Entry>, e: Entry)
    ensures Keys(es + [e]) == Keys(es) + {EntryKey(e)}
    ensures (forall x <- es :: x.id != e.id) ==> EntryKey(e) !in Keys(es)
  {
  }

  lemma {:induction false} KeysCardinality(es: seq<Entry>)
    requires Ordered(es)
    ensures |Keys(es)| == |es|
  {
    if es != [] {
      var n := |es| - 1;
      KeysCardinality(es[..n]);
      assert es == es[..n] + [es[n]];
      assert forall x <- es[..n] :: x.id != es[n].id;
      KeysAppend(es[..n], es[n]);
      hide Keys;
    }
  }

  // ----- Commands of the parts of a step -----

  function Cancels(es: seq<Entry>): seq<RemoteCommand> {
    seq(|es|, i requires 0 <= i < |es| => CancelAttempt(es[i].id, es[i].attempt))
  }

  function RequestOf(e: Entry): RemoteCommand {
    Request(e.id, e.attempt, e.requestedAt, e.deadlineTimestamp, e.packet, e.context)
  }

  function Requests(es: seq<Entry>): seq<RemoteCommand> {
    seq(|es|, i requires 0 <= i < |es| => RequestOf(es[i]))
  }

  lemma {:induction false} CommandsConcat(a: seq<Effect>, b: seq<Effect>, session: SessionId)
    ensures Commands(a + b, session) == Commands(a, session) + Commands(b, session)
  {
    hide BrokerActor.CommandOf;
    if a == [] {
      assert a + b == b;
    } else {
      CommandsConcat(a[1..], b, session);
      assert (a + b)[1..] == a[1..] + b && (a + b)[0] == a[0];
      var head := if BrokerActor.IsFor(a[0], session) then [BrokerActor.CommandOf(a[0])] else [];
      assert Commands(a + b, session) == head + (Commands(a[1..], session) + Commands(b, session));
    }
  }

  lemma {:induction false} CommandsNone(effects: seq<Effect>, session: SessionId)
    requires forall f <- effects :: !f.Dispatch? && !f.Cancel?
    ensures Commands(effects, session) == []
  {
    if effects != [] {
      CommandsNone(effects[1..], session);
    }
  }

  lemma {:induction false} CommandsOfRecall(es: seq<Entry>, session: SessionId, result: Answer)
    ensures Commands(Recall(es, Some(session), result), session) == Cancels(es)
  {
    if es != [] {
      var e := es[0];
      var first := [Cancel(session, e.id, e.attempt)] + [Complete(e.id, result)];
      CommandsOfRecall(es[1..], session, result);
      CommandsConcat(first, Recall(es[1..], Some(session), result), session);
      assert first[1..] == [Complete(e.id, result)] && first[1..][1..] == [];
      assert Commands(first, session) == [CancelAttempt(e.id, e.attempt)];
      assert Cancels(es) == [CancelAttempt(e.id, e.attempt)] + Cancels(es[1..]);
    }
  }

  lemma {:induction false} SilentRecall(es: seq<Entry>, result: Answer)
    ensures forall f <- Recall(es, None, result) :: !f.Dispatch? && !f.Cancel?
  {
    if es != [] {
      SilentRecall(es[1..], result);
    }
  }

  lemma CommandsOfDispatch(e: Entry, session: SessionId)
    ensures Commands([DispatchOf(e, session)], session) == [RequestOf(e)]
  {
  }

  lemma DispatchesHead(es: seq<Entry>, session: SessionId)
    requires es != []
    ensures DispatchesOf(es, session) == [DispatchOf(es[0], session)] + DispatchesOf(es[1..], session)
    ensures Requests(es) == [RequestOf(es[0])] + Requests(es[1..])
  {
    hide DispatchOf, RequestOf;
  }

  lemma {:induction false} CommandsOfDispatches(es: seq<Entry>, session: SessionId)
    ensures Commands(DispatchesOf(es, session), session) == Requests(es)
  {
    if es != [] {
      hide Commands, DispatchOf, RequestOf, DispatchesOf, Requests;
      var rest := DispatchesOf(es[1..], session);
      DispatchesHead(es, session);
      CommandsOfDispatches(es[1..], session);
      CommandsConcat([DispatchOf(es[0], session)], rest, session);
      CommandsOfDispatch(es[0], session);
    }
  }

  // ----- A broker step on the link of its session -----

  lemma CommandsAppend(down: seq<RemoteCommand>, es: seq<Entry>, e: Entry)
    ensures down + Cancels(es + [e]) == (down + Cancels(es)) + [CancelAttempt(e.id, e.attempt)]
    ensures down + Requests(es + [e]) == (down + Requests(es)) + [RequestOf(e)]
    ensures down + Cancels([]) == down && down + Requests([]) == down
  {
  }

  lemma {:induction false} CancelMoves(flying: set<Key>, link: Link, es: seq<Entry>)
    requires LinkInv(flying, link)
    ensures LinkInv(flying - Keys(es), link.(down := link.down + Cancels(es)))
    ensures OnLink(link.(down := link.down + Cancels(es))) == OnLink(link)
  {
    hide LinkInv, OnLink, Keys, Cancels;
    if es == [] {
      CommandsAppend(link.down, es, Entry(0, [], None, 0, 0, 0, 0, 0));
      KeysEmpty();
      assert flying - Keys(es) == flying;
    } else {
      var n := |es| - 1;
      var front, last := es[..n], es[n];
      assert es == front + [last];
      CancelMoves(flying, link, front);
      KeysAppend(front, last);
      CommandsAppend(link.down, front, last);
      var c := CancelAttempt(last.id, last.attempt);
      assert flying - Keys(es) == flying - Keys(front) - {KeyOf(c)};
      CancelMove(flying - Keys(front), link.(down := link.down + Cancels(front)), c);
    }
  }

  lemma KeysEmpty()
    ensures Keys([]) == {}
  {
  }

  lemma {:induction false} RequestMoves(flying: set<Key>, link: Link, es: seq<Entry>)
    requires LinkInv(flying, link) && Ordered(es)
    requires forall e <- es :: EntryKey(e) !in OnLink(link)
    requires |flying + Keys(es)| <= link.capacity
    ensures LinkInv(flying + Keys(es), link.(down := link.down + Requests(es)))
    ensures OnLink(link.(down := link.down + Requests(es))) == OnLink(link) + Keys(es)
  {
    hide LinkInv, OnLink, Keys, Requests;
    if es == [] {
      CommandsAppend(link.down, es, Entry(0, [], None, 0, 0, 0, 0, 0));
      KeysEmpty();
      assert flying + Keys(es) == flying;
      assert OnLink(link) + Keys(es) == OnLink(link);
    } else {
      var n := |es| - 1;
      var front, last := es[..n], es[n];
      assert es == front + [last] && Ordered(front);
      assert forall x <- front :: x.id != last.id;
      hide Ordered;
      KeysAppend(front, last);
      assert flying + Keys(es) == (flying + Keys(front)) + {EntryKey(last)};
      SubsetCardinality(flying + Keys(front), flying + Keys(es));
      assert last in es && forall e <- front :: e in es;
      RequestMoves(flying, link, front);
      CommandsAppend(link.down, front, last);
      RequestMove(flying + Keys(front), link.(down := link.down + Requests(front)), RequestOf(last));
      assert OnLink(link) + Keys(es) == OnLink(link) + Keys(front) + {EntryKey(last)};
    }
  }

  lemma KeysOfExpired(b: Book, now: Instant)
    requires Shape(b)
    ensures Keys(Expire(b, now).0.inFlight) == Keys(b.inFlight) - Keys(Overdue(b.inFlight, now))
  {
    KeepMembers(b.inFlight, LiveAt(now));
    KeepMembers(b.inFlight, OverdueAt(now));
    OrderedConcat(b.inFlight, b.queued);
  }

  lemma KeysWithout(es: seq<Entry>, id: RequestId, k: nat)
    requires Ordered(es) && k < |es| && es[k].id == id
    ensures Keys(Without(es, id)) == Keys(es) - {EntryKey(es[k])}
  {
    KeepMembers(es, OtherThan(id));
  }

  /** Commands of a step, split as the step is: recalls, the event's own recall, dispatches. */
  lemma StepCommands(b: Book, e: Event, now: Instant, session: SessionId)
    requires Change(Expire(b, now).0, e).Some?
    ensures var (changed, immediate) := Change(Expire(b, now).0, e).value;
            Commands(Emits(Step(b, e, now)), session)
            == Commands(Expire(b, now).1, session) + Commands(immediate, session) + Commands(Fill(changed).1, session)
  {
    var (expired, recalls) := Expire(b, now);
    var (changed, immediate) := Change(expired, e).value;
    var d, w := Fill(changed).1, Announce(Fill(changed).0).1;
    assert forall f <- w :: !f.Dispatch? && !f.Cancel?;
    hide Expire, Change, Fill, Announce, Commands;
    CommandsNone(w, session);
    CommandsConcat(d, w, session);
    CommandsConcat(recalls + immediate, d + w, session);
    CommandsConcat(recalls, immediate, session);
  }

  lemma ExpireCommands(b: Book, now: Instant, session: SessionId)
    requires b.agent.Holds(session)
    ensures Commands(Expire(b, now).1, session) == Cancels(Overdue(b.inFlight, now))
  {
    var a := Recall(Overdue(b.inFlight, now), Some(session), Failure(TimedOut));
    var c := Recall(Overdue(b.queued, now), None, Failure(TimedOut));
    assert Expire(b, now).1 == a + c;
    hide Expire, Commands, Recall, Overdue, Cancels;
    CommandsOfRecall(Overdue(b.inFlight, now), session, Failure(TimedOut));
    SilentRecall(Overdue(b.queued, now), Failure(TimedOut));
    CommandsNone(c, session);
    CommandsConcat(a, c, session);
  }

  /** What an event takes out of flight besides what it recalls: the request it answers. */
  ghost function Dropped(b: Book, e: Event): set<Key> {
    if e.Response? && b.agent.Holds(e.sessionId) then {Key(e.requestId, e.attempt)} else {}
  }

  /** Entries that an event recalls from the session. */
  ghost function Revoked(b: Book, e: Event): seq<Entry> {
    if e.CancelRequest? && Mentions(b.inFlight, e.requestId) then [b.inFlight[Find(b.inFlight, e.requestId)]] else []
  }

  lemma KeysOfOne(e: Entry)
    ensures Keys([e]) == {EntryKey(e)}
  {
    assert e in [e];
  }

  lemma CancelsNothing()
    ensures Cancels([]) == []
  {
  }

  lemma ChangeCommands(b: Book, e: Event, session: SessionId)
    requires Shape(b) && Change(b, e).Some? && b.agent.Holds(session)
    requires !e.SessionClosed?
    ensures Commands(Change(b, e).value.1, session) == Cancels(Revoked(b, e))
    ensures Keys(Change(b, e).value.0.inFlight) == Keys(b.inFlight) - Keys(Revoked(b, e)) - Dropped(b, e)
  {
    OrderedConcat(b.inFlight, b.queued);
    hide Keys, Commands, Cancels, Ordered, Recall, Mentions;
    KeysEmpty();
    CancelsNothing();
    if e.CancelRequest? && Mentions(b.inFlight, e.requestId) {
      var k := Find(b.inFlight, e.requestId);
      CommandsOfRecall([b.inFlight[k]], session, Failure(Cancelled));
      KeysWithout(b.inFlight, e.requestId, k);
      KeysOfOne(b.inFlight[k]);
    } else if e.CancelRequest? && Mentions(b.queued, e.requestId) {
      SilentRecall([b.queued[Find(b.queued, e.requestId)]], Failure(Cancelled));
      CommandsNone(Change(b, e).value.1, session);
    } else if e.Response? {
      ResponseDrops(b, e);
      CommandsNone(Change(b, e).value.1, session);
    } else {
      CommandsNone(Change(b, e).value.1, session);
    }
  }

  lemma ResponseDrops(b: Book, e: Event)
    requires Shape(b) && e.Response?
    ensures Keys(Change(b, e).value.0.inFlight) == Keys(b.inFlight) - Dropped(b, e)
  {
    OrderedConcat(b.inFlight, b.queued);
    if Mentions(b.inFlight, e.requestId) {
      var k := Find(b.inFlight, e.requestId);
      KeysWithout(b.inFlight, e.requestId, k);
      assert forall x <- b.inFlight :: x.id == e.requestId ==> x == b.inFlight[k];
    }
  }

  /** Keys on a link belong to requests that were submitted, at attempts that are not ahead of them. */
  ghost predicate Known(onLink: set<Key>, b: Book, used: set<RequestId>) {
    && (forall k <- onLink :: k.requestId in used)
    && (forall k <- onLink, x <- b.Entries() :: x.id == k.requestId ==> k.attempt <= x.attempt)
  }

  ghost predicate AllUsed(b: Book, used: set<RequestId>) {
    forall x <- b.Entries() :: x.id in used
  }

  ghost predicate NewIn(e: Event, used: set<RequestId>) {
    e.Submit? ==> e.requestId !in used
  }

  ghost function UsedAfter(e: Event, used: set<RequestId>): set<RequestId> {
    if e.Submit? then used + {e.requestId} else used
  }

  lemma NewIsFresh(b: Book, e: Event, used: set<RequestId>)
    requires AllUsed(b, used) && NewIn(e, used)
    ensures Fresh(b, e)
  {
  }

  lemma StepUses(b: Book, e: Event, now: Instant, used: set<RequestId>)
    requires AllUsed(b, used)
    ensures AllUsed(Step(b, e, now).book, UsedAfter(e, used))
  {
    forall x <- Step(b, e, now).book.Entries()
      ensures x.id in UsedAfter(e, used)
    {
      StepCarries(b, e, now, x);
    }
  }

  lemma StepKnows(b: Book, e: Event, now: Instant, onLink: set<Key>, used: set<RequestId>)
    requires Known(onLink, b, used) && NewIn(e, used)
    ensures Known(onLink, Step(b, e, now).book, UsedAfter(e, used))
  {
    forall k <- onLink, x <- Step(b, e, now).book.Entries() | x.id == k.requestId
      ensures k.attempt <= x.attempt
    {
      StepCarries(b, e, now, x);
    }
  }

  /** A key about to be dispatched is nowhere on the link yet. */
  lemma SentIsNew(b: Book, e: Event, now: Instant, onLink: set<Key>, used: set<RequestId>, x: Entry)
    requires Known(onLink, b, used) && NewIn(e, used) && Change(Expire(b, now).0, e).Some?
    requires x in Sent(Change(Expire(b, now).0, e).value.0)
    ensures EntryKey(x) !in onLink
  {
    var expired := Expire(b, now).0;
    var changed := Change(expired, e).value.0;
    ExpireCarries(b, now);
    ChangeCarries(expired, e);
    hide Expire, Change;
    var i :| 0 <= i < |Sent(changed)| && Sent(changed)[i] == x;
    assert changed.queued[i] in changed.queued;
  }

  /** A step that keeps the session keeps the link invariant, with its commands posted. */
  lemma StepOnLink(b: Book, e: Event, now: Instant, link: Link, used: set<RequestId>)
    requires Sound(b) && AllUsed(b, used) && NewIn(e, used)
    requires !b.agent.Disconnected? && !e.Connected? && !(e.SessionClosed? && b.agent.Holds(e.sessionId))
    requires link.capacity == Bound(b.agent.capacity, b.maxPending)
    requires LinkInv(Keys(b.inFlight) - Dropped(b, e), link) && Known(OnLink(link), b, used)
    ensures var o := Step(b, e, now);
            var next := Post(link, Emits(o), b.agent.session);
            && o.book.agent.Holds(b.agent.session) && o.book.agent.capacity == b.agent.capacity
            && o.book.maxPending == b.maxPending
            && LinkInv(Keys(o.book.inFlight), next)
            && Known(OnLink(next), o.book, UsedAfter(e, used))
  {
    hide Step, Expire, Change, Fill, LinkInv, OnLink, Known, Sound, Keys, Commands, Sent, Requests;
    hide Post, Emits, AllUsed, NewIn, UsedAfter, DispatchesOf, Dropped;
    StepKeepsSession(b, e, now);
    StepLeaves(b, e, now);
    RecallsLand(b, e, now, link);
    var session := b.agent.session;
    var changed := Change(Expire(b, now).0, e).value.0;
    CommandsOfDispatches(Sent(changed), session);
    StepPosts(b, e, now, link);
    var recalled := Recalled(b, e, now, link);
    assert recalled.capacity == link.capacity;
    hide Recalled;
    RequestsLand(b, e, now, recalled, used);
  }

  /** The link with the recalls of a step posted. */
  ghost function Recalled(b: Book, e: Event, now: Instant, link: Link): Link
    requires !b.agent.Disconnected? && Change(Expire(b, now).0, e).Some?
  {
    link.(down := link.down
                  + Commands(Expire(b, now).1, b.agent.session)
                  + Commands(Change(Expire(b, now).0, e).value.1, b.agent.session))
  }

  lemma StepPosts(b: Book, e: Event, now: Instant, link: Link)
    requires !b.agent.Disconnected? && Change(Expire(b, now).0, e).Some?
    ensures var recalled := Recalled(b, e, now, link);
            var changed := Change(Expire(b, now).0, e).value.0;
            Post(link, Emits(Step(b, e, now)), b.agent.session)
            == recalled.(down := recalled.down + Commands(Fill(changed).1, b.agent.session))
  {
    StepCommands(b, e, now, b.agent.session);
    hide Step, Expire, Change, Fill, Commands;
    var (changed, immediate) := Change(Expire(b, now).0, e).value;
    Regroup(link.down, Commands(Expire(b, now).1, b.agent.session), Commands(immediate, b.agent.session),
            Commands(Fill(changed).1, b.agent.session));
  }

  lemma Regroup<T>(a: seq<T>, b: seq<T>, c: seq<T>, d: seq<T>)
    ensures a + (b + c + d) == a + b + c + d
  {
  }

  lemma RemoveInAnyOrder<T>(all: set<T>, a: set<T>, b: set<T>, c: set<T>)
    ensures all - c - a - b == all - a - b - c
  {
  }

  lemma RecallsLand(b: Book, e: Event, now: Instant, link: Link)
    requires Sound(b) && !b.agent.Disconnected? && Change(Expire(b, now).0, e).Some?
    requires !(e.SessionClosed? && b.agent.Holds(e.sessionId))
    requires LinkInv(Keys(b.inFlight) - Dropped(b, e), link)
    ensures LinkInv(Keys(Change(Expire(b, now).0, e).value.0.inFlight), Recalled(b, e, now, link))
    ensures OnLink(Recalled(b, e, now, link)) == OnLink(link)
  {
    ExpireKeepsShape(b, now);
    ExpireKeepsAgent(b, now);
    KeysOfExpired(b, now);
    var session := b.agent.session;
    var expired := Expire(b, now).0;
    var overdue, revoked := Overdue(b.inFlight, now), Revoked(expired, e);
    ExpireCommands(b, now, session);
    ClosedElsewhere(expired, e, session);
    assert Dropped(expired, e) == Dropped(b, e);
    hide Expire, Change, LinkInv, OnLink, Keys, Commands, Cancels, Overdue, Revoked, Shape, Dropped;
    var flying := Keys(b.inFlight) - Dropped(b, e);
    CancelMoves(flying, link, overdue);
    CancelMoves(flying - Keys(overdue), link.(down := link.down + Cancels(overdue)), revoked);
    RemoveInAnyOrder(Keys(b.inFlight), Keys(overdue), Keys(revoked), Dropped(b, e));
  }

  lemma ClosedElsewhere(b: Book, e: Event, session: SessionId)
    requires Shape(b) && Change(b, e).Some? && b.agent.Holds(session)
    requires !(e.SessionClosed? && b.agent.Holds(e.sessionId))
    ensures Commands(Change(b, e).value.1, session) == Cancels(Revoked(b, e))
    ensures Keys(Change(b, e).value.0.inFlight) == Keys(b.inFlight) - Keys(Revoked(b, e)) - Dropped(b, e)
  {
    if e.SessionClosed? {
      assert Cancels([]) == [] && Keys([]) == {};
    } else {
      ChangeCommands(b, e, session);
    }
  }

  lemma StepKeepsSession(b: Book, e: Event, now: Instant)
    requires !b.agent.Disconnected? && !e.Connected? && !(e.SessionClosed? && b.agent.Holds(e.sessionId))
    ensures Change(Expire(b, now).0, e).Some?
    ensures var after := Step(b, e, now).book;
            && after.agent.Holds(b.agent.session) && after.agent.capacity == b.agent.capacity
            && after.maxPending == b.maxPending
    ensures var changed := Change(Expire(b, now).0, e).value.0;
            changed.agent == Step(b, e, now).book.agent && changed.maxPending == b.maxPending
  {
    hide Recall, Live, Overdue, Reasons, DispatchesOf, NextAttempts, Room;
  }

  /** Posting the dispatches of a step. */
  lemma RequestsLand(b: Book, e: Event, now: Instant, link: Link, used: set<RequestId>)
    requires Sound(b) && AllUsed(b, used) && NewIn(e, used) && Change(Expire(b, now).0, e).Some?
    requires var changed := Change(Expire(b, now).0, e).value.0;
             && !changed.agent.Disconnected? && link.capacity == Bound(changed.agent.capacity, changed.maxPending)
             && LinkInv(Keys(changed.inFlight), link)
    requires Known(OnLink(link), b, used)
    ensures var changed := Change(Expire(b, now).0, e).value.0;
            var next := link.(down := link.down + Requests(Sent(changed)));
            && LinkInv(Keys(Step(b, e, now).book.inFlight), next)
            && Known(OnLink(next), Step(b, e, now).book, UsedAfter(e, used))
  {
    var changed := Change(Expire(b, now).0, e).value.0;
    var after := Step(b, e, now).book;
    NewIsFresh(b, e, used);
    StepKeepsSound(b, e, now);
    StepLeaves(b, e, now);
    StepUses(b, e, now, used);
    StepKnows(b, e, now, OnLink(link), used);
    forall x <- Sent(changed)
      ensures EntryKey(x) !in OnLink(link)
    {
      SentIsNew(b, e, now, OnLink(link), used, x);
    }
    hide Step, Expire, Change, Sent, LinkInv, OnLink;
    OrderedConcat(after.inFlight, after.queued);
    OrderedConcat(changed.inFlight, Sent(changed));
    KeysConcat(changed.inFlight, Sent(changed));
    KeysCardinality(after.inFlight);
    RequestMoves(Keys(changed.inFlight), link, Sent(changed));
    SentIsKnown(after, Sent(changed), UsedAfter(e, used));
    KnownUnion(OnLink(link), Keys(Sent(changed)), after, UsedAfter(e, used));
  }

  lemma SentIsKnown(b: Book, sent: seq<Entry>, used: set<RequestId>)
    requires Shape(b) && AllUsed(b, used) && forall x <- sent :: x in b.inFlight
    ensures Known(Keys(sent), b, used)
  {
  }

  lemma KnownUnion(a: set<Key>, c: set<Key>, b: Book, used: set<RequestId>)
    requires Known(a, b, used) && Known(c, b, used)
    ensures Known(a + c, b, used)
  {
  }
}
