/**
 The actor around the broker's state: it owns the local waiters and the outbound
 slot, executes effects, and feeds a failed send back as a closed session.
 Whether a send succeeds is decided by the environment, send by send.
 */
module BrokerActor {
  import opened Basics
  import opened BrokerTypes
  import opened Ledger
  import opened LedgerSafety
  import opened LedgerEffects
  import opened LedgerHistory
  import opened BrokerModel

  // ----- What executing an effect list amounts to -----

  function CommandOf(f: Effect): RemoteCommand
    requires f.Dispatch? || f.Cancel?
  {
    match f
    case Dispatch(_, id, attempt, requestedAt, deadline, packet, context) =>
      Request(id, attempt, requestedAt, deadline, packet, context)
    case Cancel(_, id, attempt) => CancelAttempt(id, attempt)
  }

  type Outgoing = (SessionId, RemoteCommand)

  predicate IsFor(f: Effect, session: SessionId) {
    (f.Dispatch? || f.Cancel?) && f.sessionId == session
  }

  /** What one effect sends to the session in the slot. */
  function Sends(f: Effect, slot: Option<SessionId>): seq<Outgoing> {
    if slot.Some? && IsFor(f, slot.value) then [(slot.value, CommandOf(f))] else []
  }

  /** The commands that leave when send `i + k` succeeds or not: the first dispatch that fails closes the session. */
  function SentCommands(effects: seq<Effect>, session: Option<SessionId>, delivers: nat -> bool, i: nat): seq<Outgoing> {
    if effects == [] || session.None? then []
    else if delivers(i) then Sends(effects[0], session) + SentCommands(effects[1..], session, delivers, i + 1)
    else if effects[0].Dispatch? then []
    else SentCommands(effects[1..], session, delivers, i + 1)
  }

  /** Some dispatch cannot be sent. */
  ghost predicate Fails(effects: seq<Effect>, delivers: nat -> bool) {
    exists k :: 0 <= k < |effects| && effects[k].Dispatch? && !delivers(k)
  }

  lemma FailsSnoc(effects: seq<Effect>, f: Effect, delivers: nat -> bool)
    ensures Fails(effects + [f], delivers) <==> Fails(effects, delivers) || (f.Dispatch? && !delivers(|effects|))
    ensures !Fails([], delivers)
  {
  }

  /** The state, wakes and commands after an accepted step was carried out. */
  ghost predicate CarriedOut(o: Outcome, delivers: nat -> bool, book: Book, said: seq<seq<bytes>>, wakes: seq<seq<bytes>>,
                             posted: seq<Outgoing>, sent: seq<Outgoing>)
  {
    && o.Accepted?
    && book == (if Fails(o.effects, delivers) then Requeue(o.book).(wakeAnnounced := true) else o.book)
    && wakes == said + WakesOf(o.effects) + (if Fails(o.effects, delivers) then [Reasons(o.book.Entries())] else [])
    && sent == posted + SentCommands(o.effects, SessionOf(o.book.agent), delivers, 0)
  }

  function WakesOf(effects: seq<Effect>): seq<seq<bytes>> {
    if effects == [] then []
    else (if effects[0].WakeRequired? then [effects[0].reasons] else []) + WakesOf(effects[1..])
  }

  lemma {:induction false} WakesOfAppend(effects: seq<Effect>, f: Effect)
    requires f.WakeRequired?
    ensures WakesOf(effects + [f]) == WakesOf(effects) + [f.reasons]
  {
    if effects == [] {
      assert [] + [f] == [f];
    } else {
      WakesOfAppend(effects[1..], f);
      assert (effects + [f])[1..] == effects[1..] + [f];
    }
  }

  ghost predicate Completes(effects: seq<Effect>, id: RequestId) {
    exists f :: f in effects && f.Complete? && f.requestId == id
  }

  /** The result with which an effect list completes a request first. */
  ghost function ResultOf(effects: seq<Effect>, id: RequestId): Answer
    requires Completes(effects, id)
  {
    if effects[0].Complete? && effects[0].requestId == id then effects[0].result
    else ResultOf(effects[1..], id)
  }

  lemma {:induction false} FirstResult(effects: seq<Effect>, i: nat, id: RequestId)
    requires i < |effects| && effects[i].Complete? && effects[i].requestId == id
    requires !Completes(effects[..i], id)
    ensures Completes(effects, id) && ResultOf(effects, id) == effects[i].result
  {
    assert effects[i] in effects;
    if i > 0 {
      assert effects[0] == effects[..i][0] && effects[0] in effects[..i];
      assert effects[1..][..i - 1] == effects[..i][1..];
      FirstResult(effects[1..], i - 1, id);
    }
  }

  lemma CompletesSnoc(effects: seq<Effect>, f: Effect, id: RequestId)
    ensures Completes(effects + [f], id) <==> Completes(effects, id) || (f.Complete? && f.requestId == id)
  {
  }

  /** Every completion in the list took its waiter, if there was one, and left it the first result. */
  ghost predicate Replied(
    waiting: set<RequestId>, replies: map<RequestId, Answer>,
    effects: seq<Effect>,
    waiters: set<RequestId>, answers: map<RequestId, Answer>)
  {
    && (forall id :: id in waiters <==> id in waiting && !Completes(effects, id))
    && (forall id :: id in answers <==> id in replies || (id in waiting && Completes(effects, id)))
    && (forall id <- replies :: answers[id] == replies[id])
    && (forall id <- waiting | Completes(effects, id) :: answers[id] == ResultOf(effects, id))
  }

  lemma {:induction false} ResultStays(effects: seq<Effect>, f: Effect, id: RequestId)
    requires Completes(effects, id)
    ensures Completes(effects + [f], id) && ResultOf(effects + [f], id) == ResultOf(effects, id)
  {
    CompletesSnoc(effects, f, id);
    if !(effects[0].Complete? && effects[0].requestId == id) {
      assert (effects + [f])[1..] == effects[1..] + [f];
      ResultStays(effects[1..], f, id);
    }
  }

  /** One more effect replies to at most one waiter. */
  lemma RepliedOne(
    waiting: set<RequestId>, replies: map<RequestId, Answer>,
    effects: seq<Effect>, f: Effect,
    waiters: set<RequestId>, answers: map<RequestId, Answer>)
    requires Replied(waiting, replies, effects, waiters, answers) && waiting !! replies.Keys
    ensures Replied(waiting, replies, effects + [f],
                    waiters - (if f.Complete? then {f.requestId} else {}),
                    if f.Complete? && f.requestId in waiters then answers[f.requestId := f.result] else answers)
  {
    forall id
      ensures Completes(effects + [f], id) <==> Completes(effects, id) || (f.Complete? && f.requestId == id)
      ensures Completes(effects, id) ==> ResultOf(effects + [f], id) == ResultOf(effects, id)
    {
      CompletesSnoc(effects, f, id);
      if Completes(effects, id) {
        ResultStays(effects, f, id);
      }
    }
    if f.Complete? && f.requestId in waiters {
      assert (effects + [f])[..|effects|] == effects;
      FirstResult(effects + [f], |effects|, f.requestId);
    }
  }

  lemma NothingRepliedYet(waiting: set<RequestId>, replies: map<RequestId, Answer>)
    ensures Replied(waiting, replies, [], waiting, replies)
  {
  }

  function Least(a: nat, b: nat): nat {
    if a < b then a else b
  }

  lemma WakesOfHead(f: Effect, rest: seq<Effect>)
    ensures WakesOf([f] + rest) == (if f.WakeRequired? then [f.reasons] else []) + WakesOf(rest)
  {
  }

  lemma NoWakes()
    ensures WakesOf([]) == []
  {
  }

  /** Moving the head of what is left to the end of what is done. */
  lemma MoveHead<T>(done: seq<T>, head: seq<T>, rest: seq<T>, more: seq<T>)
    ensures (done + head) + (rest + more) == done + (head + rest) + more
  {
  }

  /** One effect carried out: what was sent and what remains to be sent are what was to be sent. */
  lemma SentStep(posted: seq<Outgoing>, f: Effect, rest: seq<Effect>, before: Option<SessionId>, after: Option<SessionId>,
                 delivers: nat -> bool, i: nat, sent: seq<Outgoing>)
    requires sent == posted + if delivers(i) then Sends(f, before) else []
    requires after == if f.Dispatch? && !delivers(i) then None else before
    ensures sent + SentCommands(rest, after, delivers, i + 1) == posted + SentCommands([f] + rest, before, delivers, i)
  {
  }

  lemma NoCommand(f: Effect, session: Option<SessionId>)
    requires f.WakeRequired?
    ensures Sends(f, session) == []
  {
  }

  lemma SentNothing(session: Option<SessionId>, delivers: nat -> bool, i: nat)
    ensures SentCommands([], session, delivers, i) == []
    ensures SentCommands([], session, delivers, i + 1) == []
  {
  }

  ghost predicate NothingOverdue(b: Book, now: Instant) {
    forall x <- b.Entries() :: now < x.deadline
  }

  lemma NothingExpires(b: Book, now: Instant)
    requires NothingOverdue(b, now)
    ensures Expire(b, now) == (b, [])
  {
    assert forall x <- b.inFlight + b.queued :: LiveAt(now)(x) && !OverdueAt(now)(x);
    KeepAll(b.inFlight, LiveAt(now));
    KeepAll(b.queued, LiveAt(now));
    KeepNone(b.inFlight, OverdueAt(now));
    KeepNone(b.queued, OverdueAt(now));
  }

  /** Closing the active session after a step only requeues, and emits at most a wake. */
  lemma CloseEmitsAWake(b: Book, s: SessionId, now: Instant)
    requires Sound(b) && NothingOverdue(b, now) && b.agent.Holds(s) && b.Entries() != []
    ensures Step(b, SessionClosed(s), now)
         == Accepted(Requeue(b).(wakeAnnounced := true), [WakeRequired(Reasons(b.Entries()))])
    ensures NothingOverdue(Requeue(b).(wakeAnnounced := true), now)
  {
    NothingExpires(b, now);
    hide Expire, Reasons, Shape;
    var requeued := Requeue(b);
    assert [] + (b.inFlight + b.queued) == b.Entries();
    assert Change(b, SessionClosed(s)) == Some((requeued, []));
    assert Reconcile(requeued) == (requeued.(wakeAnnounced := true), [] + [WakeRequired(Reasons(b.Entries()))]);
    assert [] + [] + ([] + [WakeRequired(Reasons(b.Entries()))]) == [WakeRequired(Reasons(b.Entries()))];
  }

  /** Closing it once more changes nothing and emits nothing. */
  lemma CloseAgainIsSilent(b: Book, s: SessionId, now: Instant)
    requires Sound(b) && NothingOverdue(b, now) && b.agent.Disconnected?
    ensures Step(b, SessionClosed(s), now) == Accepted(b, [])
  {
    NothingExpires(b, now);
    hide Expire, Reasons;
  }

  ghost function PendingIds(b: Book): set<RequestId> {
    Elements(Ids(b.Entries()))
  }

  /** An accepted step moves ids from pending to completed, and nothing else. */
  lemma StepSettlesWaiters(b: Book, e: Event, now: Instant, id: RequestId)
    requires Sound(b) && Fresh(b, e) && Step(b, e, now).Accepted?
    ensures var o := Step(b, e, now);
            var known := id in PendingIds(b) || (e.Submit? && e.requestId == id);
            && (id in PendingIds(o.book) <==> known && !Completes(o.effects, id))
            && (Completes(o.effects, id) ==> known)
  {
    var o := Step(b, e, now);
    StepKeepsSound(b, e, now);
    StepConserves(b, e, now, id);
    CountOrdered(b.Entries(), id);
    CountOrdered(o.book.Entries(), id);
    IdsMembers(b.Entries(), id);
    IdsMembers(o.book.Entries(), id);
    hide Step;
    if Completes(o.effects, id) {
      var f :| f in o.effects && f.Complete? && f.requestId == id;
      CompletionCounts(o.effects, f);
    } else {
      NoCompletions(o.effects, id);
    }
  }

  lemma AcceptedLeavesNothingOverdue(b: Book, e: Event, now: Instant)
    requires Step(b, e, now).Accepted? && (e.Submit? ==> now < e.deadline)
    ensures NothingOverdue(Step(b, e, now).book, now)
  {
    forall x <- Step(b, e, now).book.Entries()
      ensures now < x.deadline
    {
      StepCarries(b, e, now, x);
    }
  }

  ghost predicate DispatchesTo(effects: seq<Effect>, agent: Agent) {
    forall f <- effects :: f.Dispatch? ==> agent.Holds(f.sessionId)
  }

  lemma StepDispatchesToAgent(b: Book, e: Event, now: Instant)
    requires Sound(b) && Fresh(b, e)
    ensures DispatchesTo(Emits(Step(b, e, now)), Step(b, e, now).book.agent)
    ensures forall f <- Emits(Step(b, e, now)) :: f.Dispatch? ==> Step(b, e, now).book.Entries() != []
  {
    forall f <- Emits(Step(b, e, now)) | f.Dispatch?
      ensures Step(b, e, now).book.agent.Holds(f.sessionId) && Step(b, e, now).book.Entries() != []
    {
      DispatchesAreInFlight(b, e, now, f);
    }
  }

  class BrokerActor {
    const state: BrokerState
    const requestTimeout: nat
    var waiters: set<RequestId>
    var remote: Option<SessionId>

    // What the actor has said so far: replies to local callers, commands to
    // remote sessions and wake requests.
    var answers: map<RequestId, Answer>
    var sent: seq<(SessionId, RemoteCommand)>
    var wakes: seq<seq<bytes>>

    // Waiters whose completion a refused session threw away.
    ghost var stranded: set<RequestId>

    // Everyone who ever submitted a request.
    ghost var callers: set<RequestId>

    ghost predicate Valid()
      reads this, state
    {
      && state.Valid()
      && requestTimeout > 0
      && remote == SessionOf(state.book.agent)
      && waiters == PendingIds(state.book) + stranded
      && PendingIds(state.book) !! stranded
      && waiters !! answers.Keys
      && callers == waiters + answers.Keys
    }

    constructor (maxPendingRequests: nat, requestTimeout: nat)
      requires requestTimeout > 0
      ensures Valid() && fresh(state)
      ensures callers == {} && stranded == {} && sent == [] && wakes == []
      ensures state.book == Opening(maxPendingRequests) && remote.None?
    {
      state := new BrokerState(maxPendingRequests);
      this.requestTimeout := requestTimeout;
      waiters := {};
      remote := None;
      answers := map[];
      sent := [];
      wakes := [];
      stranded := {};
      callers := {};
    }

    /**
     Execute effects in order. A dispatch that cannot be sent closes the session;
     the first such failure requeues its work and adds one wake, later ones add
     nothing, so the loop ends however many sends fail.
     */
    method Execute(effects: seq<Effect>, now: Instant, delivers: nat -> bool) returns (failed: bool)
      requires state.Valid() && NothingOverdue(state.book, now)
      requires remote == SessionOf(state.book.agent)
      requires DispatchesTo(effects, state.book.agent)
      requires forall f <- effects :: f.Dispatch? ==> state.book.Entries() != []
      requires waiters !! answers.Keys
      modifies this, state
      ensures state.Valid() && remote == SessionOf(state.book.agent)
      ensures state.book == if failed then Requeue(old(state.book)).(wakeAnnounced := true) else old(state.book)
      ensures failed <==> Fails(effects, delivers)
      ensures Replied(old(waiters), old(answers), effects, waiters, answers)
      ensures wakes == old(wakes) + WakesOf(effects) + (if failed then [Reasons(old(state.book).Entries())] else [])
      ensures sent == old(sent) + SentCommands(effects, old(remote), delivers, 0)
      ensures stranded == old(stranded) && callers == old(callers)
    {
      hide Represents, Shape, Sound, Requeue, Reasons, Replied, WakesOf, Sends, NothingOverdue, SentCommands, Fails;
      ghost var b := state.book;
      ghost var wake := WakeRequired(Reasons(b.Entries()));
      ghost var rest := effects;  // what is left of the given effects
      var work := effects;
      var i := 0;
      failed := false;
      NothingRepliedYet(waiters, answers);
      FailsSnoc([], WakeRequired([]), delivers);
      assert effects[..0] == [];
      while work != []
        invariant 0 <= i && rest == effects[Least(i, |effects|)..]
        invariant work == rest || (failed && work == rest + [wake])
        invariant failed && i <= |effects| ==> work == rest + [wake]
        invariant state.Valid() && NothingOverdue(state.book, now)
        invariant remote == SessionOf(state.book.agent)
        invariant state.book == if failed then Requeue(b).(wakeAnnounced := true) else b
        invariant failed ==> state.book.agent.Disconnected?
        invariant failed <==> Fails(effects[..Least(i, |effects|)], delivers)
        invariant Replied(old(waiters), old(answers), effects[..Least(i, |effects|)], waiters, answers)
        invariant wakes + WakesOf(work) == old(wakes) + WakesOf(effects) + (if failed then [wake.reasons] else [])
        invariant sent + SentCommands(rest, remote, delivers, i) == old(sent) + SentCommands(effects, old(remote), delivers, 0)
        invariant stranded == old(stranded) && callers == old(callers)
        decreases if failed then 0 else 1, |work|
      {
        var f := work[0];
        assert work == [f] + work[1..];
        work := work[1..];
        WakesOfHead(f, work);
        if rest != [] {
          assert f == effects[i] && rest == [f] + rest[1..];
          assert effects[..i + 1] == effects[..i] + [f];
          FailsSnoc(effects[..i], f, delivers);
          RepliedOne(old(waiters), old(answers), effects[..i], f, waiters, answers);
          rest := rest[1..];
        } else {
          assert f == wake && work == [] && waiters - {} == waiters;
        }
        ghost var was, posted, session := wakes, sent, remote;
        var more := Perform(f, delivers(i), now);
        assert more == if f.Dispatch? && !delivers(i) && !failed then [wake] else [];
        WakesOfAppend(work, wake);
        MoveHead(was, if f.WakeRequired? then [f.reasons] else [], WakesOf(work), if more != [] then [wake.reasons] else []);
        assert work + [] == work && WakesOf(work) + [] == WakesOf(work);
        assert f.Dispatch? ==> f == effects[i];
        if i < |effects| {
          SentStep(posted, f, rest, session, remote, delivers, i, sent);
        } else {
          NoCommand(f, session);
          SentNothing(session, delivers, i);
          SentNothing(remote, delivers, i);
        }
        work := work + more;
        failed := failed || (f.Dispatch? && !delivers(i));
        i := i + 1;
      }
      assert rest == [] && effects[..|effects|] == effects;
      NoWakes();
      SentNothing(remote, delivers, i);
    }

    /** Execute one effect; `delivered` says whether the outbound channel takes a command. */
    method Perform(f: Effect, delivered: bool, now: Instant) returns (more: seq<Effect>)
      requires state.Valid() && NothingOverdue(state.book, now)
      requires remote == SessionOf(state.book.agent)
      requires f.Dispatch? && !state.book.agent.Disconnected? ==>
                 state.book.agent.Holds(f.sessionId) && state.book.Entries() != []
      modifies this, state
      ensures state.Valid() && NothingOverdue(state.book, now) && remote == SessionOf(state.book.agent)
      ensures stranded == old(stranded) && callers == old(callers)
      ensures var breaks := f.Dispatch? && !delivered && !old(state.book).agent.Disconnected?;
              && state.book == (if breaks then Requeue(old(state.book)).(wakeAnnounced := true) else old(state.book))
              && (breaks ==> state.book.agent.Disconnected?)
              && more == if breaks then [WakeRequired(Reasons(old(state.book).Entries()))] else []
      ensures waiters == old(waiters) - (if f.Complete? then {f.requestId} else {})
      ensures answers == if f.Complete? && f.requestId in old(waiters)
                         then old(answers)[f.requestId := f.result] else old(answers)
      ensures wakes == old(wakes) + if f.WakeRequired? then [f.reasons] else []
      ensures sent == old(sent) + if delivered then Sends(f, old(remote)) else []
    {
      hide Represents, Shape, Requeue, Reasons;
      more := [];
      match f
      case Dispatch(session, _, _, _, _, _, _) =>
        if remote == Some(session) && delivered {
          sent := sent + [(session, CommandOf(f))];
        } else {
          remote := None;
          more := CloseSession(session, now);
        }
      case Cancel(session, _, _) =>
        if remote == Some(session) && delivered {
          sent := sent + [(session, CommandOf(f))];
        }
      case WakeRequired(reasons) =>
        wakes := wakes + [reasons];
      case Complete(id, result) =>
        if id in waiters {
          waiters := waiters - {id};
          answers := answers[id := result];
        }
    }

    /** Report a failed send to the state as a closed session. */
    method CloseSession(session: SessionId, now: Instant) returns (more: seq<Effect>)
      requires state.Valid() && NothingOverdue(state.book, now)
      requires state.book.agent.Disconnected? || (state.book.agent.Holds(session) && state.book.Entries() != [])
      modifies state
      ensures state.Valid() && NothingOverdue(state.book, now) && state.book.agent.Disconnected?
      ensures old(state.book).agent.Disconnected? ==> state.book == old(state.book) && more == []
      ensures !old(state.book).agent.Disconnected? ==>
                && state.book == Requeue(old(state.book)).(wakeAnnounced := true)
                && more == [WakeRequired(Reasons(old(state.book).Entries()))]
    {
      hide Represents, Shape;
      if state.book.agent.Disconnected? {
        CloseAgainIsSilent(state.book, session, now);
      } else {
        CloseEmitsAWake(state.book, session, now);
      }
      hide Step, NothingOverdue;
      var r := state.Apply(SessionClosed(session), now);
      more := r.value;
    }

    /** Apply one event and execute what it emits. */
    method ApplyEvent(event: Event, now: Instant, delivers: nat -> bool)
      requires state.Valid() && Fresh(state.book, event)
      requires !event.Connected? && (event.Submit? ==> now < event.deadline)
      requires remote == if event.SessionClosed? && state.book.agent.Holds(event.sessionId)
                         then None else SessionOf(state.book.agent)
      requires waiters == PendingIds(state.book) + stranded + (if event.Submit? then {event.requestId} else {})
      requires PendingIds(state.book) !! stranded && waiters !! answers.Keys && requestTimeout > 0
      requires callers == waiters + answers.Keys
      requires event.Submit? ==> event.requestId !in stranded
      modifies this, state
      ensures Valid() && stranded == old(stranded) && callers == old(callers)
      ensures CarriedOut(Step(old(state.book), event, now), delivers, state.book, old(wakes), wakes, old(sent), sent)
      ensures Replied(old(waiters), old(answers), Step(old(state.book), event, now).effects, waiters, answers)
    {
      hide Represents, Shape, Replied, Requeue, SentCommands, WakesOf;
      ghost var b := state.book;
      NotRefused(b, event, now);
      AcceptedLeavesNothingOverdue(b, event, now);
      StepDispatchesToAgent(b, event, now);
      hide Step, NothingOverdue, DispatchesTo;
      FreshIsNew(b, event);
      PendingIsPending(state.pending, state.queue, b);
      var r := state.Apply(event, now);
      ghost var settled := state.book;
      var failed := Execute(r.value, now, delivers);
      WaitersFollow(b, event, now, old(waiters), old(answers), stranded, waiters, answers);
      RequeueKeepsPending(settled);
    }

    /** Admit one request received from a local transport. */
    method HandleLocal(
      id: RequestId, packet: bytes, context: Option<RequestContext>, now: Instant, requestedAt: nat, delivers: nat -> bool)
      requires Valid() && id !in callers
      modifies this, state
      ensures Valid() && stranded == old(stranded) && callers == old(callers) + {id}
      ensures var e := Submit(id, packet, context, now + requestTimeout, requestedAt, requestedAt + requestTimeout);
              && CarriedOut(Step(old(state.book), e, now), delivers, state.book, old(wakes), wakes, old(sent), sent)
              && Replied(old(waiters) + {id}, old(answers), Step(old(state.book), e, now).effects, waiters, answers)
    {
      hide Represents, Shape, Replied, Step, CarriedOut;
      waiters, callers := waiters + {id}, callers + {id};
      ApplyEvent(Submit(id, packet, context, now + requestTimeout, requestedAt, requestedAt + requestTimeout),
                 now, delivers);
    }

    /** Claim the single remote slot; a claim while a session is active is refused. */
    method HandleConnect(session: SessionId, capacity: nat, now: Instant, delivers: nat -> bool) returns (accepted: bool)
      requires Valid()
      modifies this, state
      ensures Valid() && callers == old(callers)
      ensures accepted <==> old(remote) == None
      ensures accepted ==>
                && stranded == old(stranded)
                && CarriedOut(Step(old(state.book), Connected(session, capacity), now), delivers, state.book,
                              old(wakes), wakes, old(sent), sent)
                && Replied(old(waiters), old(answers),
                           Step(old(state.book), Connected(session, capacity), now).effects, waiters, answers)
      ensures !accepted ==>
                && waiters == old(waiters) && answers == old(answers) && remote == old(remote)
                && wakes == old(wakes) && sent == old(sent)
                && state.book == Step(old(state.book), Connected(session, capacity), now).book
                && stranded == old(stranded) + Elements(Ids(OverdueEntries(old(state.book), now)))
    {
      hide Represents, Shape, Replied, Requeue, SentCommands, WakesOf;
      ghost var b := state.book;
      var event := Connected(session, capacity);
      RefusedExactly(Expire(b, now).0, event);
      ExpireKeepsAgent(b, now);
      StepDispatchesToAgent(b, event, now);
      StepTakesSession(b, event, now);
      if b.agent.Disconnected? {
        AcceptedLeavesNothingOverdue(b, event, now);
      } else {
        RefusalStrands(b, event, now);
      }
      hide NothingOverdue, DispatchesTo, Expire, Change, OverdueEntries;
      var r := state.Apply(event, now);
      match r
      case Success(effects) =>
        ghost var settled := state.book;
        remote := Some(session);
        var failed := Execute(effects, now, delivers);
        WaitersFollow(b, event, now, old(waiters), old(answers), stranded, waiters, answers);
        RequeueKeepsPending(settled);
        accepted := true;
      case Failure(_) =>
        stranded := stranded + Elements(Ids(OverdueEntries(b, now)));
        accepted := false;
    }

    /** Remove a closed session: clear the slot, then let the state requeue its work. */
    method HandleDisconnected(session: SessionId, now: Instant, delivers: nat -> bool)
      requires Valid()
      modifies this, state
      ensures Valid() && stranded == old(stranded) && callers == old(callers)
      ensures CarriedOut(Step(old(state.book), SessionClosed(session), now), delivers, state.book,
                         old(wakes), wakes, old(sent), sent)
      ensures Replied(old(waiters), old(answers), Step(old(state.book), SessionClosed(session), now).effects, waiters, answers)
    {
      hide Represents, Shape, Replied, Step, CarriedOut;
      if remote == Some(session) {
        remote := None;
      }
      ApplyEvent(SessionClosed(session), now, delivers);
    }

    /** Readiness, a response, a local cancellation or a deadline. */
    method HandleOther(event: Event, now: Instant, delivers: nat -> bool)
      requires Valid()
      requires event.AgentReady? || event.AgentLocked? || event.Response? || event.CancelRequest? || event.Tick?
      modifies this, state
      ensures Valid() && stranded == old(stranded) && callers == old(callers)
      ensures CarriedOut(Step(old(state.book), event, now), delivers, state.book, old(wakes), wakes, old(sent), sent)
      ensures Replied(old(waiters), old(answers), Step(old(state.book), event, now).effects, waiters, answers)
    {
      hide Represents, Shape, Replied, Step, CarriedOut;
      ApplyEvent(event, now, delivers);
    }

    /** Fail every remaining waiter: whatever happened before, all who ever called now have their one answer. */
    method Stop()
      requires Valid()
      modifies `waiters, `answers
      ensures waiters == {} && answers.Keys == callers
      ensures forall id <- old(answers) :: answers[id] == old(answers)[id]
      ensures forall id <- old(waiters) :: answers[id] == Failure(Unavailable)
    {
      while waiters != {}
        invariant waiters <= old(waiters)
        invariant answers.Keys == old(answers.Keys) + (old(waiters) - waiters)
        invariant forall id <- old(answers) :: answers[id] == old(answers)[id]
        invariant forall id <- old(waiters) - waiters :: answers[id] == Failure(Unavailable)
        decreases waiters
      {
        var id :| id in waiters;
        waiters := waiters - {id};
        answers := answers[id := Failure(Unavailable)];
      }
    }
  }

  // ----- Steps as the actor sees them -----

  lemma NotRefused(b: Book, e: Event, now: Instant)
    requires !e.Connected?
    ensures Step(b, e, now).Accepted?
    ensures SessionOf(Step(b, e, now).book.agent)
         == if e.SessionClosed? && b.agent.Holds(e.sessionId) then None else SessionOf(b.agent)
  {
  }

  lemma StepTakesSession(b: Book, e: Event, now: Instant)
    requires e.Connected?
    ensures SessionOf(Step(b, e, now).book.agent) == Some(if b.agent.Disconnected? then e.sessionId else b.agent.session)
  {
  }

  lemma FreshIsNew(b: Book, e: Event)
    requires Fresh(b, e)
    ensures e.Submit? ==> e.requestId !in PendingIds(b)
  {
  }

  lemma PendingIsPending(pending: Pending, queue: seq<RequestId>, b: Book)
    requires Represents(pending, queue, b)
    ensures pending.Keys == PendingIds(b)
  {
  }

  lemma RequeueKeepsPending(b: Book)
    ensures PendingIds(Requeue(b).(wakeAnnounced := true)) == PendingIds(b)
  {
    assert [] + b.Entries() == b.Entries();
  }

  lemma WaitersFollow(
    b: Book, e: Event, now: Instant,
    waiting: set<RequestId>, replies: map<RequestId, Answer>, stranded: set<RequestId>,
    waiters: set<RequestId>, answers: map<RequestId, Answer>)
    requires Sound(b) && Fresh(b, e) && Step(b, e, now).Accepted?
    requires waiting == PendingIds(b) + stranded + (if e.Submit? then {e.requestId} else {})
    requires PendingIds(b) !! stranded && (e.Submit? ==> e.requestId !in stranded)
    requires waiting !! replies.Keys
    requires Replied(waiting, replies, Step(b, e, now).effects, waiters, answers)
    ensures waiters == PendingIds(Step(b, e, now).book) + stranded
    ensures PendingIds(Step(b, e, now).book) !! stranded
    ensures waiters !! answers.Keys && waiters + answers.Keys == waiting + replies.Keys
  {
    var after := Step(b, e, now).book;
    hide Completes, ResultOf, PendingIds, Sound, Fresh, Step;
    forall id
      ensures id in waiters <==> id in PendingIds(after) || id in stranded
      ensures !(id in PendingIds(after) && id in stranded)
    {
      StepSettlesWaiters(b, e, now, id);
    }
  }

  lemma RefusalStrands(b: Book, e: Event, now: Instant)
    requires Sound(b) && e.Connected? && !b.agent.Disconnected?
    ensures var after := Step(b, e, now).book;
            var lost := Elements(Ids(OverdueEntries(b, now)));
            PendingIds(b) == PendingIds(after) + lost && PendingIds(after) !! lost
  {
    RefusedExactly(Expire(b, now).0, e);
    var after := Step(b, e, now).book;
    var lost := OverdueEntries(b, now);
    StepKeepsSound(b, e, now);
    forall id
      ensures id in PendingIds(b) <==> id in PendingIds(after) || id in Ids(lost)
      ensures !(id in PendingIds(after) && id in Ids(lost))
    {
      ExpireConserves(b, now, id);
      CountOrdered(b.Entries(), id);
      CountOrdered(after.Entries(), id);
      IdsMembers(b.Entries(), id);
      IdsMembers(after.Entries(), id);
      IdsMembers(lost, id);
      CountMentions(lost, id);
    }
  }

  lemma {:induction false} CountMentions(es: seq<Entry>, id: RequestId)
    ensures Count(es, id) >= 1 <==> Mentions(es, id)
  {
    if es != [] {
      CountMentions(es[1..], id);
      if i :| 0 <= i < |es| && es[i].id == id {
        assert i > 0 ==> es[1..][i - 1].id == id;
      }
    }
  }
}
