/** What one broker step emits, stated against the state before and after it. */
module LedgerEffects {
  import opened Basics
  import opened BrokerTypes
  import opened Ledger
  import opened LedgerSafety

  function Emits(o: Outcome): seq<Effect> {
    if o.Accepted? then o.effects else []
  }

  // ----- Projections of an effect list -----

  datatype Kind = Dispatching | Waking

  predicate IsA(x: Effect, kind: Kind) {
    match kind
    case Dispatching => x.Dispatch?
    case Waking => x.WakeRequired?
  }

  function Pick(effects: seq<Effect>, kind: Kind): seq<Effect> {
    if effects == [] then []
    else (if IsA(effects[0], kind) then [effects[0]] else []) + Pick(effects[1..], kind)
  }

  /** How often an effect list completes a request. */
  function Completions(effects: seq<Effect>, id: RequestId): nat {
    if effects == [] then 0
    else (if effects[0].Complete? && effects[0].requestId == id then 1 else 0) + Completions(effects[1..], id)
  }

  lemma {:induction false} PickConcat(a: seq<Effect>, b: seq<Effect>, kind: Kind)
    ensures Pick(a + b, kind) == Pick(a, kind) + Pick(b, kind)
  {
    if a == [] {
      assert a + b == b;
    } else {
      PickConcat(a[1..], b, kind);
      assert (a + b)[1..] == a[1..] + b;
      var first := if IsA(a[0], kind) then [a[0]] else [];
      assert first + (Pick(a[1..], kind) + Pick(b, kind)) == first + Pick(a[1..], kind) + Pick(b, kind);
    }
  }

  lemma {:induction false} CompletionsConcat(a: seq<Effect>, b: seq<Effect>, id: RequestId)
    ensures Completions(a + b, id) == Completions(a, id) + Completions(b, id)
  {
    if a == [] {
      assert a + b == b;
    } else {
      CompletionsConcat(a[1..], b, id);
      assert (a + b)[1..] == a[1..] + b;
    }
  }

  lemma {:induction false} PickNone(effects: seq<Effect>, kind: Kind)
    requires forall x <- effects :: !IsA(x, kind)
    ensures Pick(effects, kind) == []
  {
    if effects != [] {
      PickNone(effects[1..], kind);
    }
  }

  lemma {:induction false} PickAll(effects: seq<Effect>, kind: Kind)
    requires forall x <- effects :: IsA(x, kind)
    ensures Pick(effects, kind) == effects
  {
    if effects != [] {
      PickAll(effects[1..], kind);
    }
  }

  lemma {:induction false} NoCompletions(effects: seq<Effect>, id: RequestId)
    requires forall x <- effects :: x.Complete? ==> x.requestId != id
    ensures Completions(effects, id) == 0
  {
    if effects != [] {
      NoCompletions(effects[1..], id);
    }
  }

  lemma {:induction false} RecallEmits(es: seq<Entry>, session: Option<SessionId>, result: Answer)
    ensures forall x <- Recall(es, session, result) :: !IsA(x, Dispatching) && !IsA(x, Waking)
  {
    if es != [] {
      RecallEmits(es[1..], session, result);
    }
  }

  // ----- Counting -----

  function Count(es: seq<Entry>, id: RequestId): nat {
    if es == [] then 0 else (if es[0].id == id then 1 else 0) + Count(es[1..], id)
  }

  lemma {:induction false} CountConcat(a: seq<Entry>, b: seq<Entry>, id: RequestId)
    ensures Count(a + b, id) == Count(a, id) + Count(b, id)
  {
    if a == [] {
      assert a + b == b;
    } else {
      CountConcat(a[1..], b, id);
      assert (a + b)[1..] == a[1..] + b;
    }
  }

  lemma {:induction false} CountNone(es: seq<Entry>, id: RequestId)
    requires forall e <- es :: e.id != id
    ensures Count(es, id) == 0
  {
    if es != [] {
      CountNone(es[1..], id);
    }
  }

  lemma {:induction false} CountOrdered(es: seq<Entry>, id: RequestId)
    requires Ordered(es)
    ensures Count(es, id) == if Mentions(es, id) then 1 else 0
  {
    if es != [] {
      CountOrdered(es[1..], id);
      if es[0].id == id {
        CountNone(es[1..], id);
      } else if i :| 0 <= i < |es| && es[i].id == id {
        assert es[1..][i - 1].id == id;
      }
    }
  }

  lemma {:induction false} CountSplits(es: seq<Entry>, p: Entry -> bool, q: Entry -> bool, id: RequestId)
    requires forall e <- es :: p(e) <==> !q(e)
    ensures Count(Keep(es, p), id) + Count(Keep(es, q), id) == Count(es, id)
  {
    if es != [] {
      CountSplits(es[1..], p, q, id);
      CountConcat(if p(es[0]) then [es[0]] else [], Keep(es[1..], p), id);
      CountConcat(if q(es[0]) then [es[0]] else [], Keep(es[1..], q), id);
    }
  }

  lemma {:induction false} CountWithout(es: seq<Entry>, gone: RequestId, id: RequestId)
    ensures Count(Without(es, gone), id) == if id == gone then 0 else Count(es, id)
  {
    if es != [] {
      CountWithout(es[1..], gone, id);
      CountConcat(if OtherThan(gone)(es[0]) then [es[0]] else [], Without(es[1..], gone), id);
    }
  }

  lemma {:induction false} RecallCompletes(es: seq<Entry>, session: Option<SessionId>, result: Answer, id: RequestId)
    ensures Completions(Recall(es, session, result), id) == Count(es, id)
  {
    if es != [] {
      RecallCompletes(es[1..], session, result, id);
      var first := if session.Some? then [Cancel(session.value, es[0].id, es[0].attempt)] else [];
      CompletionsConcat(first + [Complete(es[0].id, result)], Recall(es[1..], session, result), id);
      CompletionsConcat(first, [Complete(es[0].id, result)], id);
    }
  }

  // ----- The parts of a step -----

  lemma ExpireEmits(b: Book, now: Instant)
    ensures forall x <- Expire(b, now).1 :: !IsA(x, Dispatching) && !IsA(x, Waking)
  {
    RecallEmits(Overdue(b.inFlight, now), SessionOf(b.agent), Failure(TimedOut));
    RecallEmits(Overdue(b.queued, now), None, Failure(TimedOut));
  }

  lemma ChangeEmits(b: Book, e: Event)
    requires Change(b, e).Some?
    ensures forall x <- Change(b, e).value.1 :: !IsA(x, Dispatching) && !IsA(x, Waking)
  {
    if e.CancelRequest? {
      if Mentions(b.inFlight, e.requestId) {
        RecallEmits([b.inFlight[Find(b.inFlight, e.requestId)]], SessionOf(b.agent), Failure(Cancelled));
      } else if Mentions(b.queued, e.requestId) {
        RecallEmits([b.queued[Find(b.queued, e.requestId)]], None, Failure(Cancelled));
      }
    }
  }

  lemma ReconcileEmits(b: Book)
    ensures Pick(Reconcile(b).1, Dispatching) == Fill(b).1
    ensures Pick(Reconcile(b).1, Waking) == Announce(Fill(b).0).1
    ensures forall id :: Completions(Reconcile(b).1, id) == 0
  {
    var d, w := Fill(b).1, Announce(Fill(b).0).1;
    PickConcat(d, w, Dispatching);
    PickConcat(d, w, Waking);
    PickAll(d, Dispatching);
    PickNone(d, Waking);
    forall id {
      NoCompletions(d + w, id);
    }
  }

  /** What an accepted step dispatches, announces and completes, part by part. */
  lemma StepEmits(b: Book, e: Event, now: Instant)
    requires Change(Expire(b, now).0, e).Some?
    ensures Step(b, e, now).Accepted?
    ensures var (changed, immediate) := Change(Expire(b, now).0, e).value;
            var effects := Step(b, e, now).effects;
            && Pick(effects, Dispatching) == Fill(changed).1
            && Pick(effects, Waking) == Announce(Fill(changed).0).1
            && forall id :: Completions(effects, id) == Completions(Expire(b, now).1, id) + Completions(immediate, id)
  {
    var (expired, recalls) := Expire(b, now);
    var (changed, immediate) := Change(expired, e).value;
    var effects := Reconcile(changed).1;
    ExpireEmits(b, now);
    ChangeEmits(expired, e);
    ReconcileEmits(changed);
    hide Expire, Change, Reconcile, Fill, Announce;
    PickNone(recalls + immediate, Dispatching);
    PickNone(recalls + immediate, Waking);
    PickConcat(recalls + immediate, effects, Dispatching);
    PickConcat(recalls + immediate, effects, Waking);
    forall id
      ensures Completions(recalls + immediate + effects, id) == Completions(recalls, id) + Completions(immediate, id)
    {
      CompletionsConcat(recalls + immediate, effects, id);
      CompletionsConcat(recalls, immediate, id);
    }
  }

  // ----- Conservation -----

  function Submissions(e: Event, id: RequestId): nat {
    if e.Submit? && e.requestId == id then 1 else 0
  }

  function OverdueEntries(b: Book, now: Instant): seq<Entry> {
    Overdue(b.inFlight, now) + Overdue(b.queued, now)
  }

  lemma ExpireConserves(b: Book, now: Instant, id: RequestId)
    ensures Count(b.Entries(), id) == Count(Expire(b, now).0.Entries(), id) + Count(OverdueEntries(b, now), id)
    ensures Completions(Expire(b, now).1, id) == Count(OverdueEntries(b, now), id)
  {
    CountSplits(b.inFlight, LiveAt(now), OverdueAt(now), id);
    CountSplits(b.queued, LiveAt(now), OverdueAt(now), id);
    CountConcat(b.inFlight, b.queued, id);
    CountConcat(Live(b.inFlight, now), Live(b.queued, now), id);
    CountConcat(Overdue(b.inFlight, now), Overdue(b.queued, now), id);
    RecallCompletes(Overdue(b.inFlight, now), SessionOf(b.agent), Failure(TimedOut), id);
    RecallCompletes(Overdue(b.queued, now), None, Failure(TimedOut), id);
    CompletionsConcat(Recall(Overdue(b.inFlight, now), SessionOf(b.agent), Failure(TimedOut)),
                      Recall(Overdue(b.queued, now), None, Failure(TimedOut)), id);
  }

  lemma ChangeConserves(b: Book, e: Event, id: RequestId)
    requires Shape(b) && Change(b, e).Some?
    ensures Count(b.Entries(), id) + Submissions(e, id)
         == Count(Change(b, e).value.0.Entries(), id) + Completions(Change(b, e).value.1, id)
  {
    hide Shape, Without, Find;
    match e
    case Submit(_, _, _, _, _, _) =>
      if |b.Entries()| < b.maxPending {
        var entry := NewEntry(e, b.nextSequence);
        assert b.inFlight + (b.queued + [entry]) == b.Entries() + [entry];
        CountConcat(b.Entries(), [entry], id);
      }
    case Response(_, _, _, _) =>
      RemovalConserves(b, e.requestId, id);
    case CancelRequest(x) =>
      RemovalConserves(b, x, id);
      if Mentions(b.inFlight, x) {
        RecallCompletes([b.inFlight[Find(b.inFlight, x)]], SessionOf(b.agent), Failure(Cancelled), id);
      } else if Mentions(b.queued, x) {
        RecallCompletes([b.queued[Find(b.queued, x)]], None, Failure(Cancelled), id);
      }
    case SessionClosed(_) =>
      assert [] + b.Entries() == b.Entries();
    case _ =>
  }

  lemma RemovalConserves(b: Book, gone: RequestId, id: RequestId)
    requires Shape(b)
    ensures Mentions(b.inFlight, gone) ==>
              Count(b.(inFlight := Without(b.inFlight, gone)).Entries(), id)
              == Count(b.Entries(), id) - if id == gone then 1 else 0
    ensures Mentions(b.queued, gone) ==>
              Count(b.(queued := Without(b.queued, gone)).Entries(), id)
              == Count(b.Entries(), id) - if id == gone then 1 else 0
  {
    OrderedConcat(b.inFlight, b.queued);
    CountOrdered(b.inFlight, gone);
    CountOrdered(b.queued, gone);
    CountWithout(b.inFlight, gone, id);
    CountWithout(b.queued, gone, id);
    CountConcat(b.inFlight, b.queued, id);
    CountConcat(Without(b.inFlight, gone), b.queued, id);
    CountConcat(b.inFlight, Without(b.queued, gone), id);
    if Mentions(b.inFlight, gone) {
      CountNone(b.queued, gone);
    }
  }

  lemma {:induction false} CountByIds(a: seq<Entry>, b: seq<Entry>, id: RequestId)
    requires Ids(a) == Ids(b)
    ensures Count(a, id) == Count(b, id)
  {
    if a != [] {
      assert Ids(a)[1..] == Ids(a[1..]) && Ids(b)[1..] == Ids(b[1..]);
      CountByIds(a[1..], b[1..], id);
    }
  }

  lemma ReconcileConserves(b: Book, id: RequestId)
    ensures Count(Reconcile(b).0.Entries(), id) == Count(b.Entries(), id)
  {
    assert Ids(Reconcile(b).0.Entries()) == Ids(b.Entries());
    CountByIds(Reconcile(b).0.Entries(), b.Entries(), id);
  }

  /** Requests whose completion a refused step throws away. */
  function Lost(b: Book, e: Event, now: Instant): seq<Entry> {
    if Step(b, e, now).Refused? then OverdueEntries(b, now) else []
  }

  /** One step neither invents nor forgets a request: it stays, is completed, or is lost to a refusal. */
  lemma StepConserves(b: Book, e: Event, now: Instant, id: RequestId)
    requires Shape(b)
    ensures Count(b.Entries(), id) + Submissions(e, id)
         == Count(Step(b, e, now).book.Entries(), id)
            + Completions(Emits(Step(b, e, now)), id)
            + Count(Lost(b, e, now), id)
  {
    var expired := Expire(b, now).0;
    ExpireConserves(b, now, id);
    ExpireKeepsShape(b, now);
    hide Shape, OverdueEntries, Expire, Reconcile, Change;
    RefusedExactly(expired, e);
    if Change(expired, e).Some? {
      ChangeConserves(expired, e, id);
      ReconcileConserves(Change(expired, e).value.0, id);
      StepEmits(b, e, now);
    }
  }

  /** Only a second session refused while requests are overdue loses completions, and then exactly theirs. */
  lemma LostExactly(b: Book, e: Event, now: Instant)
    ensures Lost(b, e, now) != [] <==>
            && e.Connected? && !b.agent.Disconnected?
            && exists x :: x in b.Entries() && x.deadline <= now
    ensures forall x :: x in Lost(b, e, now) <==>
                          e.Connected? && !b.agent.Disconnected? && x in b.Entries() && x.deadline <= now
  {
    RefusedExactly(Expire(b, now).0, e);
    hide Change, Reconcile;
    OverdueExactly(b, now);
  }

  lemma OverdueExactly(b: Book, now: Instant)
    ensures OverdueEntries(b, now) != [] <==> exists x :: x in b.Entries() && x.deadline <= now
    ensures forall x :: x in OverdueEntries(b, now) <==> x in b.Entries() && x.deadline <= now
  {
    KeepMembers(b.inFlight, OverdueAt(now));
    KeepMembers(b.queued, OverdueAt(now));
    var overdue := OverdueEntries(b, now);
    if x :| x in b.Entries() && x.deadline <= now {
      assert OverdueAt(now)(x);
      assert x in overdue;
    }
    if overdue != [] {
      assert overdue[0] in overdue;
      assert overdue[0] in b.Entries();
    }
  }
}
