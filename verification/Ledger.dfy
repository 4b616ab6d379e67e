/**
 The reference model of the broker: unfinished requests in admission order, the
 dispatched ones first. It has no map, no index and no sorting; the state kept
 by the broker is proved to represent it (see `BrokerModel`).
 */
module Ledger {
  import opened Basics
  import opened BrokerTypes

  datatype Entry = Entry(
    id: RequestId,
    packet: bytes,
    context: Option<RequestContext>,
    deadline: Instant,
    requestedAt: nat,
    deadlineTimestamp: nat,
    sequence: nat,
    attempt: nat)

  datatype Book = Book(
    agent: Agent,
    inFlight: seq<Entry>,
    queued: seq<Entry>,
    maxPending: nat,
    nextSequence: nat,
    wakeAnnounced: bool)
  {
    function Entries(): seq<Entry> {
      inFlight + queued
    }
  }

  datatype Outcome =
    | Accepted(book: Book, effects: seq<Effect>)
    | Refused(book: Book)

  function Opening(maxPending: nat): Book {
    Book(Disconnected, [], [], maxPending, 0, false)
  }

  function Ids(es: seq<Entry>): (ids: seq<RequestId>)
    ensures |ids| == |es|
    ensures forall i | 0 <= i < |es| :: ids[i] == es[i].id
  {
    seq(|es|, i requires 0 <= i < |es| => es[i].id)
  }

  // ----- Selecting entries -----

  function Keep(es: seq<Entry>, p: Entry -> bool): seq<Entry> {
    if es == [] then []
    else (if p(es[0]) then [es[0]] else []) + Keep(es[1..], p)
  }

  function LiveAt(now: Instant): Entry -> bool {
    (e: Entry) => now < e.deadline
  }

  function OverdueAt(now: Instant): Entry -> bool {
    (e: Entry) => e.deadline <= now
  }

  function OtherThan(id: RequestId): Entry -> bool {
    (e: Entry) => e.id != id
  }

  function Live(es: seq<Entry>, now: Instant): seq<Entry> {
    Keep(es, LiveAt(now))
  }

  function Overdue(es: seq<Entry>, now: Instant): seq<Entry> {
    Keep(es, OverdueAt(now))
  }

  function Without(es: seq<Entry>, id: RequestId): seq<Entry> {
    Keep(es, OtherThan(id))
  }

  // ----- One step -----

  /** Completion of requests, each preceded by the recall of its dispatch when it has one. */
  function Recall(es: seq<Entry>, session: Option<SessionId>, result: Answer): seq<Effect> {
    if es == [] then []
    else
      (if session.Some? then [Cancel(session.value, es[0].id, es[0].attempt)] else [])
      + [Complete(es[0].id, result)]
      + Recall(es[1..], session, result)
  }

  function SessionOf(agent: Agent): Option<SessionId> {
    if agent.Disconnected? then None else Some(agent.session)
  }

  function Expire(b: Book, now: Instant): (Book, seq<Effect>) {
    (b.(inFlight := Live(b.inFlight, now), queued := Live(b.queued, now)),
     Recall(Overdue(b.inFlight, now), SessionOf(b.agent), Failure(TimedOut))
     + Recall(Overdue(b.queued, now), None, Failure(TimedOut)))
  }

  function NewEntry(e: Event, sequence: nat): Entry
    requires e.Submit?
  {
    Entry(e.requestId, e.packet, e.context, e.deadline, e.requestedAt, e.deadlineTimestamp, sequence, 0)
  }

  predicate Answers(e: Event, agent: Agent, entry: Entry)
    requires e.Response?
  {
    agent.Holds(e.sessionId) && entry.id == e.requestId && entry.attempt == e.attempt
  }

  predicate Mentions(es: seq<Entry>, id: RequestId) {
    exists i :: 0 <= i < |es| && es[i].id == id
  }

  function Find(es: seq<Entry>, id: RequestId): (k: nat)
    requires Mentions(es, id)
    ensures k < |es| && es[k].id == id
  {
    if es[0].id == id then 0 else 1 + Find(es[1..], id)
  }

  /** The fact change of one event; `None` for a second remote session. */
  function Change(b: Book, e: Event): Option<(Book, seq<Effect>)> {
    match e
    case Submit(id, _, _, _, _, _) =>
      if |b.Entries()| >= b.maxPending then Some((b, [Complete(id, Failure(QueueFull))]))
      else Some((b.(queued := b.queued + [NewEntry(e, b.nextSequence)],
                    nextSequence := b.nextSequence + 1,
                    wakeAnnounced := false), []))
    case Connected(s, capacity) =>
      if b.agent.Disconnected? then Some((b.(agent := Locked(s, capacity), wakeAnnounced := false), []))
      else None
    case AgentReady(s) =>
      Some((if b.agent.Holds(s) then b.(agent := Ready(s, b.agent.capacity)) else b, []))
    case AgentLocked(s) =>
      Some((if b.agent.Holds(s) then b.(agent := Locked(s, b.agent.capacity)) else b, []))
    case SessionClosed(s) =>
      Some((if b.agent.Holds(s)
            then b.(agent := Disconnected, inFlight := [], queued := b.inFlight + b.queued, wakeAnnounced := false)
            else b, []))
    case Response(_, id, _, packet) =>
      if Mentions(b.inFlight, id) && Answers(e, b.agent, b.inFlight[Find(b.inFlight, id)])
      then Some((b.(inFlight := Without(b.inFlight, id)), [Complete(id, Success(packet))]))
      else Some((b, []))
    case CancelRequest(id) =>
      if Mentions(b.inFlight, id) then
        Some((b.(inFlight := Without(b.inFlight, id)),
              Recall([b.inFlight[Find(b.inFlight, id)]], SessionOf(b.agent), Failure(Cancelled))))
      else if Mentions(b.queued, id) then
        Some((b.(queued := Without(b.queued, id)),
              Recall([b.queued[Find(b.queued, id)]], None, Failure(Cancelled))))
      else Some((b, []))
    case Tick => Some((b, []))
  }

  function Room(b: Book): nat {
    if b.agent.Disconnected? || b.agent.capacity <= |b.inFlight| then 0
    else if |b.queued| <= b.agent.capacity - |b.inFlight| then |b.queued|
    else b.agent.capacity - |b.inFlight|
  }

  function NextAttempt(e: Entry): Entry {
    e.(attempt := e.attempt + 1)
  }

  function NextAttempts(es: seq<Entry>): (next: seq<Entry>)
    ensures |next| == |es|
    ensures forall i | 0 <= i < |es| :: next[i] == NextAttempt(es[i])
  {
    seq(|es|, i requires 0 <= i < |es| => NextAttempt(es[i]))
  }

  function DispatchOf(e: Entry, session: SessionId): Effect {
    Dispatch(session, e.id, e.attempt, e.requestedAt, e.deadlineTimestamp, e.packet, e.context)
  }

  function DispatchesOf(es: seq<Entry>, session: SessionId): (effects: seq<Effect>)
    ensures |effects| == |es|
    ensures forall i | 0 <= i < |es| :: effects[i] == DispatchOf(es[i], session)
  {
    seq(|es|, i requires 0 <= i < |es| => DispatchOf(es[i], session))
  }

  /** As much of the front of the queue as the session has room for becomes in flight. */
  function Fill(b: Book): (Book, seq<Effect>) {
    if b.agent.Disconnected? then (b, [])
    else
      var sent := NextAttempts(b.queued[..Room(b)]);
      (b.(inFlight := b.inFlight + sent, queued := b.queued[Room(b)..]),
       DispatchesOf(sent, b.agent.session))
  }

  /** Distinct reasons of a queue, each at its first occurrence. */
  function Reasons(es: seq<Entry>): seq<bytes> {
    if es == [] then []
    else
      var n := |es| - 1;
      var before := Reasons(es[..n]);
      if es[n].context.None? || es[n].context.value.reason in before then before
      else before + [es[n].context.value.reason]
  }

  function Announce(b: Book): (Book, seq<Effect>) {
    if b.queued == [] || !b.agent.Disconnected? then (b.(wakeAnnounced := false), [])
    else if b.wakeAnnounced then (b, [])
    else (b.(wakeAnnounced := true), [WakeRequired(Reasons(b.queued))])
  }

  function Reconcile(b: Book): (Book, seq<Effect>) {
    var (filled, dispatches) := Fill(b);
    var (announced, wakes) := Announce(filled);
    (announced, dispatches + wakes)
  }

  function Step(b: Book, e: Event, now: Instant): Outcome {
    var (expired, recalls) := Expire(b, now);
    match Change(expired, e)
    case None => Refused(expired)
    case Some((changed, immediate)) =>
      var (settled, effects) := Reconcile(changed);
      Accepted(settled, recalls + immediate + effects)
  }
}
