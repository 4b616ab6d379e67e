/** How one step relates the entries before it, the entries after it and what it emits. */
module LedgerHistory {
  import opened Basics
  import opened BrokerTypes
  import opened Ledger
  import opened LedgerSafety
  import opened LedgerEffects

  ghost predicate SameRequest(x: Entry, y: Entry) {
    x.(attempt := 0) == y.(attempt := 0)
  }

  ghost predicate Carried(es: seq<Entry>, x: Entry) {
    exists y :: y in es && SameRequest(x, y) && y.attempt <= x.attempt
  }

  lemma ExpireCarries(b: Book, now: Instant)
    ensures forall x <- Expire(b, now).0.inFlight :: x in b.inFlight && now < x.deadline
    ensures forall x <- Expire(b, now).0.queued :: x in b.queued && now < x.deadline
  {
    KeepMembers(b.inFlight, LiveAt(now));
    KeepMembers(b.queued, LiveAt(now));
  }

  lemma ChangeCarries(b: Book, e: Event)
    requires Change(b, e).Some?
    ensures forall x <- Change(b, e).value.0.inFlight :: x in b.inFlight
    ensures forall x <- Change(b, e).value.0.queued ::
              x in b.Entries() || (e.Submit? && x == NewEntry(e, b.nextSequence))
  {
    hide Recall;
    if e.Response? || e.CancelRequest? {
      KeepMembers(b.inFlight, OtherThan(e.requestId));
      KeepMembers(b.queued, OtherThan(e.requestId));
    }
  }

  lemma FillCarries(b: Book)
    ensures forall x <- Fill(b).0.inFlight :: x in b.inFlight || exists y :: y in b.queued && x == NextAttempt(y)
    ensures forall x <- Fill(b).0.queued :: x in b.queued
  {
  }

  /** Packet, context, deadlines and sequence of a request never change; its attempt never falls. */
  lemma StepCarries(b: Book, e: Event, now: Instant, x: Entry)
    requires x in Step(b, e, now).book.Entries()
    ensures Carried(b.Entries(), x) || (e.Submit? && Carried([NewEntry(e, b.nextSequence)], x))
    ensures (e.Submit? ==> now < e.deadline) && Step(b, e, now).Accepted? ==> now < x.deadline
  {
    ExpireCarries(b, now);
    var expired := Expire(b, now).0;
    if Change(expired, e).Some? {
      var changed := Change(expired, e).value.0;
      ChangeCarries(expired, e);
      FillCarries(changed);
      hide Expire, Change, Fill, Reasons;
      if x !in changed.Entries() {
        var y :| y in changed.queued && x == NextAttempt(y);
        assert SameRequest(x, y);
      }
    } else {
      assert SameRequest(x, x);
    }
  }

  ghost predicate Quiet(effects: seq<Effect>, id: RequestId) {
    forall f <- effects :: (f.Dispatch? || f.Complete?) ==> f.requestId != id
  }

  lemma {:induction false} CompletionCounts(effects: seq<Effect>, f: Effect)
    requires f in effects && f.Complete?
    ensures Completions(effects, f.requestId) >= 1
  {
    if effects[0] != f {
      CompletionCounts(effects[1..], f);
    }
  }

  lemma {:induction false} DispatchPicked(effects: seq<Effect>, f: Effect)
    requires f.Dispatch?
    ensures f in effects <==> f in Pick(effects, Dispatching)
  {
    if effects != [] {
      DispatchPicked(effects[1..], f);
      assert effects == [effects[0]] + effects[1..];
    }
  }

  function Sent(b: Book): seq<Entry> {
    NextAttempts(b.queued[..Room(b)])
  }

  /** The state an accepted step leaves, in terms of the state after its fact change. */
  lemma StepLeaves(b: Book, e: Event, now: Instant)
    requires Change(Expire(b, now).0, e).Some?
    ensures var changed := Change(Expire(b, now).0, e).value.0;
            var after := Step(b, e, now).book;
            && Step(b, e, now).Accepted?
            && after.agent == changed.agent
            && after.queued == changed.queued[Room(changed)..]
            && (!changed.agent.Disconnected? ==>
                  && after.inFlight == changed.inFlight + Sent(changed)
                  && Fill(changed).1 == DispatchesOf(Sent(changed), changed.agent.session))
            && (changed.agent.Disconnected? ==> after.inFlight == changed.inFlight && Fill(changed).1 == [])
  {
  }

  /** Every dispatch is of an entry that the step left in flight, and of no entry that was in flight before. */
  lemma DispatchesAreInFlight(b: Book, e: Event, now: Instant, f: Effect)
    requires Sound(b) && Fresh(b, e)
    requires f.Dispatch? && f in Emits(Step(b, e, now))
    ensures var after := Step(b, e, now).book;
            && after.agent.Holds(f.sessionId)
            && exists x :: x in after.inFlight && f == DispatchOf(x, f.sessionId)
    ensures forall x <- Change(Expire(b, now).0, e).value.0.inFlight :: x.id != f.requestId
  {
    var changed := Change(Expire(b, now).0, e).value.0;
    var after := Step(b, e, now).book;
    StepEmits(b, e, now);
    StepLeaves(b, e, now);
    StepKeepsSound(b, e, now);
    DispatchPicked(Emits(Step(b, e, now)), f);
    hide Expire, Change, Step, Fill, Ordered, Announce, Sent;
    var i :| 0 <= i < |Sent(changed)| && f == DispatchOf(Sent(changed)[i], changed.agent.session);
    assert Sent(changed)[i] in after.inFlight;
    OrderedConcat(after.inFlight, after.queued);
    OrderedConcat(changed.inFlight, Sent(changed));
  }

  /** A request stays in flight only if nothing happened to it; otherwise this step dispatched it. */
  lemma InFlightAfter(b: Book, e: Event, now: Instant, x: Entry)
    requires Sound(b) && Fresh(b, e)
    requires x in Step(b, e, now).book.inFlight
    ensures var o := Step(b, e, now);
            && !o.book.agent.Disconnected?
            && (|| DispatchOf(x, o.book.agent.session) in Emits(o)
                || (&& x in b.inFlight && b.agent.Holds(o.book.agent.session)
                    && Quiet(Emits(o), x.id)
                    && e != SessionClosed(o.book.agent.session) && e != CancelRequest(x.id)))
  {
    var o := Step(b, e, now);
    StepKeepsSound(b, e, now);
    ExpireCarries(b, now);
    ExpireKeepsShape(b, now);
    var expired := Expire(b, now).0;
    if Change(expired, e).Some? {
      var changed := Change(expired, e).value.0;
      ChangeCarries(expired, e);
      StepEmits(b, e, now);
      StepLeaves(b, e, now);
      hide Expire, Change, Step, Fill, Ordered, Announce, Sent;
      if x in changed.inFlight {
        StaysQuiet(b, e, now, x);
        StaysAttached(expired, e, x);
        ExpireKeepsAgent(b, now);
      } else {
        assert !changed.agent.Disconnected?;
        var i :| 0 <= i < |Sent(changed)| && Sent(changed)[i] == x;
        assert Fill(changed).1[i] == DispatchOf(x, changed.agent.session);
        DispatchPicked(Emits(o), DispatchOf(x, changed.agent.session));
      }
    }
  }

  lemma ExpireKeepsAgent(b: Book, now: Instant)
    ensures Expire(b, now).0.agent == b.agent
  {
  }

  lemma StaysQuiet(b: Book, e: Event, now: Instant, x: Entry)
    requires Sound(b) && Fresh(b, e) && Change(Expire(b, now).0, e).Some?
    requires x in Change(Expire(b, now).0, e).value.0.inFlight && x in b.inFlight
    requires x in Step(b, e, now).book.inFlight
    ensures Quiet(Emits(Step(b, e, now)), x.id)
  {
    var o := Step(b, e, now);
    forall f <- Emits(o) | f.Dispatch?
      ensures f.requestId != x.id
    {
      DispatchesAreInFlight(b, e, now, f);
    }
    StepKeepsSound(b, e, now);
    StepConserves(b, e, now, x.id);
    IdsMembers(b.Entries(), x.id);
    CountOrdered(b.Entries(), x.id);
    CountOrdered(o.book.Entries(), x.id);
    assert Mentions(o.book.Entries(), x.id) by {
      IdsMembers(o.book.Entries(), x.id);
    }
    forall f <- Emits(o) | f.Complete?
      ensures f.requestId != x.id
    {
      CompletionCounts(Emits(o), f);
    }
  }

  lemma StaysAttached(b: Book, e: Event, x: Entry)
    requires Shape(b) && Change(b, e).Some?
    requires x in Change(b, e).value.0.inFlight
    ensures !b.agent.Disconnected? && Change(b, e).value.0.agent.Holds(b.agent.session)
    ensures e != SessionClosed(b.agent.session) && e != CancelRequest(x.id)
  {
    if e.CancelRequest? {
      KeepMembers(b.inFlight, OtherThan(e.requestId));
      OrderedConcat(b.inFlight, b.queued);
    }
  }

  /** A request is answered only by a response in the session and attempt it is in flight with, before its deadline. */
  lemma AnsweredOnlyInFlight(b: Book, e: Event, now: Instant, id: RequestId, packet: bytes)
    requires Complete(id, Success(packet)) in Emits(Step(b, e, now))
    ensures e.Response? && e.requestId == id && e.packet == packet && b.agent.Holds(e.sessionId)
    ensures exists x :: x in b.inFlight && x.id == id && x.attempt == e.attempt && now < x.deadline
  {
    var f := Complete(id, Success(packet));
    ExpireCarries(b, now);
    var (expired, recalls) := Expire(b, now);
    var (changed, immediate) := Change(expired, e).value;
    assert f !in recalls by {
      RecallFails(Overdue(b.inFlight, now), SessionOf(b.agent), TimedOut);
      RecallFails(Overdue(b.queued, now), None, TimedOut);
    }
    assert f !in Reconcile(changed).1;
    assert f in immediate;
    if e.CancelRequest? {
      if Mentions(expired.inFlight, e.requestId) {
        RecallFails([expired.inFlight[Find(expired.inFlight, e.requestId)]], SessionOf(b.agent), Cancelled);
      } else if Mentions(expired.queued, e.requestId) {
        RecallFails([expired.queued[Find(expired.queued, e.requestId)]], None, Cancelled);
      }
    }
    assert e.Response?;
    assert expired.inFlight[Find(expired.inFlight, id)] in expired.inFlight;
  }

  lemma {:induction false} RecallFails(es: seq<Entry>, session: Option<SessionId>, error: RequestError)
    ensures forall f <- Recall(es, session, Failure(error)) :: f.Complete? ==> f.result.Failure?
  {
    if es != [] {
      RecallFails(es[1..], session, error);
    }
  }

  // ----- Why requests complete -----

  ghost predicate Due(b: Book, now: Instant, id: RequestId) {
    exists x :: x in b.Entries() && x.id == id && x.deadline <= now
  }

  ghost predicate Awaited(b: Book, now: Instant, id: RequestId) {
    exists x :: x in b.Entries() && x.id == id && now < x.deadline
  }

  ghost predicate AwaitsThis(b: Book, e: Event, now: Instant)
    requires e.Response?
  {
    b.agent.Holds(e.sessionId) &&
    exists x :: x in b.inFlight && x.id == e.requestId && x.attempt == e.attempt && now < x.deadline
  }

  /** The one reason for each result of a request. */
  ghost predicate Explains(b: Book, e: Event, now: Instant, id: RequestId, result: Answer) {
    match result
    case Success(packet) => e.Response? && e.requestId == id && e.packet == packet && AwaitsThis(b, e, now)
    case Failure(TimedOut) => Due(b, now, id)
    case Failure(Cancelled) => e == CancelRequest(id) && Awaited(b, now, id)
    case Failure(QueueFull) => e.Submit? && e.requestId == id && |Expire(b, now).0.Entries()| >= b.maxPending
    case Failure(Unavailable) => false
  }

  lemma {:induction false} RecallCompletesWith(es: seq<Entry>, session: Option<SessionId>, result: Answer, id: RequestId,
                                           r: Answer)
    ensures Complete(id, r) in Recall(es, session, result) <==> r == result && Mentions(es, id)
  {
    if es != [] {
      RecallCompletesWith(es[1..], session, result, id, r);
      MentionsCons(es, id);
    }
  }

  lemma MentionsCons(es: seq<Entry>, id: RequestId)
    requires es != []
    ensures Mentions(es, id) <==> es[0].id == id || Mentions(es[1..], id)
  {
    if i :| 0 <= i < |es[1..]| && es[1..][i].id == id {
      assert es[i + 1].id == id;
    }
    if i :| 0 < i < |es| && es[i].id == id {
      assert es[1..][i - 1].id == id;
    }
  }

  lemma MentionsMember(es: seq<Entry>, id: RequestId)
    ensures Mentions(es, id) <==> exists x :: x in es && x.id == id
  {
  }

  lemma OverdueMentions(es: seq<Entry>, now: Instant, id: RequestId)
    ensures Mentions(Overdue(es, now), id) <==> exists x :: x in es && x.id == id && x.deadline <= now
  {
    KeepMembers(es, OverdueAt(now));
    MentionsMember(Overdue(es, now), id);
  }

  lemma ExpiryCompletes(b: Book, now: Instant, id: RequestId, r: Answer)
    ensures Complete(id, r) in Expire(b, now).1 <==> r == Failure(TimedOut) && Due(b, now, id)
  {
    hide Overdue, Live, Recall, Mentions;
    RecallCompletesWith(Overdue(b.inFlight, now), SessionOf(b.agent), Failure(TimedOut), id, r);
    RecallCompletesWith(Overdue(b.queued, now), None, Failure(TimedOut), id, r);
    OverdueMentions(b.inFlight, now, id);
    OverdueMentions(b.queued, now, id);
  }

  lemma LiveIsAwaited(b: Book, now: Instant, id: RequestId)
    ensures (exists x :: x in Expire(b, now).0.Entries() && x.id == id) <==> Awaited(b, now, id)
  {
    KeepMembers(b.inFlight, LiveAt(now));
    KeepMembers(b.queued, LiveAt(now));
    hide Overdue, Recall;
  }

  /** What the fact change itself completes, given the live requests. */
  lemma ChangeCompletes(b: Book, e: Event, id: RequestId, r: Answer)
    requires Change(b, e).Some? && Ordered(b.Entries())
    ensures Complete(id, r) in Change(b, e).value.1 <==>
              match r
              case Success(packet) =>
                && e.Response? && e.requestId == id && e.packet == packet && b.agent.Holds(e.sessionId)
                && exists x :: x in b.inFlight && x.id == id && x.attempt == e.attempt
              case Failure(Cancelled) => e == CancelRequest(id) && exists x :: x in b.Entries() && x.id == id
              case Failure(QueueFull) => e.Submit? && e.requestId == id && |b.Entries()| >= b.maxPending
              case Failure(_) => false
  {
    match e
    case CancelRequest(cancelled) =>
      MentionsMember(b.inFlight, cancelled);
      MentionsMember(b.queued, cancelled);
      if Mentions(b.inFlight, cancelled) {
        RecallOne(b.inFlight[Find(b.inFlight, cancelled)], SessionOf(b.agent), id, r);
      } else if Mentions(b.queued, cancelled) {
        RecallOne(b.queued[Find(b.queued, cancelled)], None, id, r);
      }
    case Response(_, answered, _, _) =>
      if Mentions(b.inFlight, answered) {
        OnlyOne(b, b.inFlight[Find(b.inFlight, answered)]);
      } else {
        MentionsMember(b.inFlight, answered);
      }
    case _ =>
  }

  lemma RecallOne(x: Entry, session: Option<SessionId>, id: RequestId, r: Answer)
    ensures Complete(id, r) in Recall([x], session, Failure(Cancelled)) <==> r == Failure(Cancelled) && id == x.id
  {
    RecallCompletesWith([x], session, Failure(Cancelled), id, r);
    assert [x][0] == x;
  }

  lemma OnlyOne(b: Book, x: Entry)
    requires Ordered(b.Entries()) && x in b.inFlight
    ensures forall y <- b.inFlight :: y.id == x.id ==> y == x
  {
    OrderedConcat(b.inFlight, b.queued);
  }

  /** A step completes a request with a result exactly when that is the result its reason calls for. */
  lemma CompletedExactly(b: Book, e: Event, now: Instant, id: RequestId, r: Answer)
    requires Sound(b) && Step(b, e, now).Accepted?
    ensures Complete(id, r) in Step(b, e, now).effects <==> Explains(b, e, now, id, r)
  {
    var expired := Expire(b, now).0;
    ExpiryCompletes(b, now, id, r);
    LiveIsAwaited(b, now, id);
    ExpireKeepsShape(b, now);
    ExpireKeepsAgent(b, now);
    ChangeCompletes(expired, e, id, r);
    LiveInFlight(b, now);
    ReconcileCompletesNothing(Change(expired, e).value.0, id, r);
    hide Change, Reconcile, Ordered;
  }

  lemma LiveInFlight(b: Book, now: Instant)
    ensures forall x :: x in Expire(b, now).0.inFlight <==> x in b.inFlight && now < x.deadline
    ensures Expire(b, now).0.maxPending == b.maxPending
  {
    KeepMembers(b.inFlight, LiveAt(now));
  }

  lemma ReconcileCompletesNothing(b: Book, id: RequestId, r: Answer)
    ensures Complete(id, r) !in Reconcile(b).1
  {
    hide Reasons, Room;
  }
}
