/** More about whole broker runs: attempts, draining by deadline, and readiness. */
module BrokerProgress {
  import opened BrokerTypes
  import opened Ledger
  import opened LedgerSafety
  import opened LedgerEffects
  import opened LedgerHistory
  import opened LedgerWakes
  import opened BrokerRuns

  // ----- No attempt is dispatched twice -----

  predicate Attempts(f: Effect, id: RequestId, attempt: nat) {
    f.Dispatch? && f.requestId == id && f.attempt == attempt
  }

  function DispatchCount(effects: seq<Effect>, id: RequestId, attempt: nat): nat {
    if effects == [] then 0
    else (if Attempts(effects[0], id, attempt) then 1 else 0) + DispatchCount(effects[1..], id, attempt)
  }

  ghost function DispatchedIn(max: nat, run: seq<Input>, id: RequestId, attempt: nat): nat {
    if run == [] then 0
    else
      var n := |run| - 1;
      DispatchedIn(max, run[..n], id, attempt) + DispatchCount(Emits(At(max, run, n)), id, attempt)
  }

  lemma {:induction false} DispatchCountPicked(effects: seq<Effect>, id: RequestId, attempt: nat)
    ensures DispatchCount(effects, id, attempt) == DispatchCount(Pick(effects, Dispatching), id, attempt)
  {
    if effects != [] {
      DispatchCountPicked(effects[1..], id, attempt);
      if effects[0].Dispatch? {
        assert Pick(effects, Dispatching)[1..] == Pick(effects[1..], Dispatching);
      } else {
        assert Pick(effects, Dispatching) == Pick(effects[1..], Dispatching);
      }
    }
  }

  lemma {:induction false} DispatchCountOf(es: seq<Entry>, session: SessionId, id: RequestId, attempt: nat)
    ensures DispatchCount(DispatchesOf(es, session), id, attempt) <= Count(es, id)
    ensures DispatchCount(DispatchesOf(es, session), id, attempt) >= 1 ==>
              exists x :: x in es && x.id == id && x.attempt == attempt
  {
    if es != [] {
      DispatchCountOf(es[1..], session, id, attempt);
      assert DispatchesOf(es, session)[1..] == DispatchesOf(es[1..], session);
      assert es[0] in es;
    }
  }

  /** A step dispatches an attempt at most once, and only right after the attempt before it. */
  lemma StepDispatchesOnce(b: Book, e: Event, now: Instant, id: RequestId, attempt: nat)
    requires Sound(b) && Fresh(b, e)
    ensures DispatchCount(Emits(Step(b, e, now)), id, attempt) <= 1
    ensures DispatchCount(Emits(Step(b, e, now)), id, attempt) == 1 ==>
              || (exists y :: y in b.Entries() && y.id == id && y.attempt + 1 == attempt)
              || (e.Submit? && e.requestId == id)
  {
    var expired := Expire(b, now).0;
    if Change(expired, e).Some? {
      var changed := Change(expired, e).value.0;
      StepEmits(b, e, now);
      StepLeaves(b, e, now);
      DispatchCountPicked(Emits(Step(b, e, now)), id, attempt);
      if !changed.agent.Disconnected? {
        DispatchCountOf(Sent(changed), changed.agent.session, id, attempt);
        SentCountsOnce(b, e, now, id);
        hide Step, Fill, Sent;
        if x :| x in Sent(changed) && x.id == id && x.attempt == attempt {
          SentCarries(b, e, now, x);
        }
      }
    }
  }

  lemma SentCountsOnce(b: Book, e: Event, now: Instant, id: RequestId)
    requires Sound(b) && Fresh(b, e) && Change(Expire(b, now).0, e).Some?
    requires !Change(Expire(b, now).0, e).value.0.agent.Disconnected?
    ensures Count(Sent(Change(Expire(b, now).0, e).value.0), id) <= 1
  {
    var changed := Change(Expire(b, now).0, e).value.0;
    StepLeaves(b, e, now);
    StepKeepsSound(b, e, now);
    var after := Step(b, e, now).book;
    hide Step, Expire, Change, Sent, Ordered;
    OrderedConcat(after.inFlight, after.queued);
    OrderedConcat(changed.inFlight, Sent(changed));
    CountOrdered(Sent(changed), id);
  }

  lemma SentCarries(b: Book, e: Event, now: Instant, x: Entry)
    requires Change(Expire(b, now).0, e).Some?
    requires x in Sent(Change(Expire(b, now).0, e).value.0)
    ensures || (exists y :: y in b.Entries() && y.id == x.id && y.attempt + 1 == x.attempt)
            || (e.Submit? && e.requestId == x.id)
  {
    var expired := Expire(b, now).0;
    var changed := Change(expired, e).value.0;
    ExpireCarries(b, now);
    ChangeCarries(expired, e);
    hide Expire, Change;
    var i :| 0 <= i < |Sent(changed)| && Sent(changed)[i] == x;
    assert changed.queued[i] in changed.queued;
  }

  /** No attempt of a request is dispatched twice over any run. */
  lemma {:induction false} EachAttemptDispatchedOnce(max: nat, run: seq<Input>, id: RequestId, attempt: nat)
    requires FreshIds(run)
    ensures DispatchedIn(max, run, id, attempt) <= 1
    ensures DispatchedIn(max, run, id, attempt) == 1 ==> Submitted(run, id) == 1
    ensures forall x <- After(max, run).Entries() ::
              x.id == id && x.attempt < attempt ==> DispatchedIn(max, run, id, attempt) == 0
  {
    if run != [] {
      var n := |run| - 1;
      var b, e, now := After(max, run[..n]), run[n].event, run[n].now;
      RunFresh(max, run);
      EachAttemptDispatchedOnce(max, run[..n], id, attempt);
      StepDispatchesOnce(b, e, now, id, attempt);
      assert Submitted(run, id) <= 1;
      var now_dispatched := DispatchCount(Emits(At(max, run, n)), id, attempt);
      if now_dispatched == 1 {
        PendingWasSubmitted(max, run[..n], id);
      }
      forall x <- After(max, run).Entries() | x.id == id && x.attempt < attempt
        ensures DispatchedIn(max, run, id, attempt) == 0
      {
        EarlierAttempt(max, run, x, attempt);
      }
    }
  }

  lemma PendingWasSubmitted(max: nat, run: seq<Input>, id: RequestId)
    requires FreshIds(run)
    ensures (exists y :: y in After(max, run).Entries() && y.id == id) ==> Submitted(run, id) == 1
  {
    IdsMembers(After(max, run).Entries(), id);
    AccountOf(max, run, id);
  }

  lemma EarlierAttempt(max: nat, run: seq<Input>, x: Entry, attempt: nat)
    requires FreshIds(run) && run != []
    requires x in After(max, run).Entries() && x.attempt < attempt
    requires var front := run[..|run| - 1];
             && (DispatchedIn(max, front, x.id, attempt) <= 1)
             && (DispatchedIn(max, front, x.id, attempt) == 1 ==> Submitted(front, x.id) == 1)
             && forall y <- After(max, front).Entries() ::
                  y.id == x.id && y.attempt < attempt ==> DispatchedIn(max, front, x.id, attempt) == 0
    ensures DispatchedIn(max, run, x.id, attempt) == 0
  {
    var n := |run| - 1;
    var b, e, now := After(max, run[..n]), run[n].event, run[n].now;
    RunFresh(max, run);
    StepCarries(b, e, now, x);
    assert Submitted(run, x.id) <= 1;
    NotYetDispatched(b, e, now, x, attempt);
  }

  lemma NotYetDispatched(b: Book, e: Event, now: Instant, x: Entry, attempt: nat)
    requires Sound(b) && Fresh(b, e)
    requires x in Step(b, e, now).book.Entries() && x.attempt < attempt
    ensures DispatchCount(Emits(Step(b, e, now)), x.id, attempt) == 0
  {
    hide Sound, Step;
    if DispatchCount(Emits(Step(b, e, now)), x.id, attempt) != 0 {
      var f := DispatchCounted(Emits(Step(b, e, now)), x.id, attempt);
      DispatchesAreInFlight(b, e, now, f);
      var after := Step(b, e, now).book;
      var y :| y in after.inFlight && f == DispatchOf(y, f.sessionId);
      StepKeepsSound(b, e, now);
      SameIdSameEntry(after, x, y);
    }
  }

  lemma SameIdSameEntry(b: Book, x: Entry, y: Entry)
    requires Sound(b) && x in b.Entries() && y in b.inFlight && x.id == y.id
    ensures x == y
  {
  }

  lemma {:induction false} DispatchCounted(effects: seq<Effect>, id: RequestId, attempt: nat) returns (f: Effect)
    requires DispatchCount(effects, id, attempt) != 0
    ensures f in effects && Attempts(f, id, attempt)
  {
    if Attempts(effects[0], id, attempt) {
      f := effects[0];
    } else {
      f := DispatchCounted(effects[1..], id, attempt);
    }
  }

  // ----- Draining by deadline -----

  function Earliest(es: seq<Entry>): (d: Instant)
    requires es != []
    ensures exists x :: x in es && x.deadline == d
    ensures forall x <- es :: d <= x.deadline
  {
    assert es[0] in es;
    if |es| == 1 then es[0].deadline
    else
      var rest := Earliest(es[1..]);
      assert forall x <- es[1..] :: x in es;
      if es[0].deadline < rest then es[0].deadline else rest
  }

  /** `n` ticks, each at the deadline that comes first. */
  ghost function Drain(b: Book, n: nat): Book
    decreases n
  {
    if n == 0 || b.Entries() == [] then b
    else Drain(Step(b, Tick, Earliest(b.Entries())).book, n - 1)
  }

  lemma {:induction false} KeepFewer(es: seq<Entry>, p: Entry -> bool, x: Entry)
    requires x in es && !p(x)
    ensures |Keep(es, p)| < |es|
  {
    if p(es[0]) || x != es[0] {
      KeepFewer(es[1..], p, x);
    } else {
      KeepMembers(es[1..], p);
    }
  }

  lemma TickAtDeadlineSettlesOne(b: Book, x: Entry)
    requires x in b.Entries()
    ensures |Step(b, Tick, x.deadline).book.Entries()| < |b.Entries()|
  {
    var now := x.deadline;
    KeepMembers(b.inFlight, LiveAt(now));
    KeepMembers(b.queued, LiveAt(now));
    assert !LiveAt(now)(x);
    if x in b.inFlight {
      KeepFewer(b.inFlight, LiveAt(now), x);
    } else {
      KeepFewer(b.queued, LiveAt(now), x);
    }
    FillSize(Expire(b, now).0);
  }

  lemma FillSize(b: Book)
    ensures |Fill(b).0.Entries()| == |b.Entries()|
  {
  }

  /** As many deadline ticks as there are pending requests leave none pending. */
  lemma {:induction false} DeadlineTicksDrain(b: Book, n: nat)
    requires |b.Entries()| <= n
    ensures Drain(b, n).Entries() == []
    decreases n
  {
    hide Step;
    if b.Entries() != [] {
      var d := Earliest(b.Entries());
      var x :| x in b.Entries() && x.deadline == d;
      TickAtDeadlineSettlesOne(b, x);
      DeadlineTicksDrain(Step(b, Tick, d).book, n - 1);
    }
  }

  // ----- Attempts and sessions -----

  ghost function Sessions(max: nat, run: seq<Input>): nat {
    if run == [] then 0
    else
      var n := |run| - 1;
      Sessions(max, run[..n]) + if run[n].event.Connected? && At(max, run, n).Accepted? then 1 else 0
  }

  ghost predicate AttemptsWithin(b: Book, sessions: nat) {
    && (forall x <- b.inFlight :: x.attempt <= sessions)
    && (forall x <- b.queued :: x.attempt <= if b.agent.Disconnected? then sessions else sessions - 1)
  }

  lemma StepAttemptsWithin(b: Book, e: Event, now: Instant, sessions: nat)
    requires Shape(b) && AttemptsWithin(b, sessions)
    requires !b.agent.Disconnected? ==> sessions >= 1
    ensures var o := Step(b, e, now);
            var gained := if e.Connected? && o.Accepted? then 1 else 0;
            AttemptsWithin(o.book, sessions + gained) && (!o.book.agent.Disconnected? ==> sessions + gained >= 1)
  {
    ExpireCarries(b, now);
    ExpireKeepsShape(b, now);
    ExpireKeepsAgent(b, now);
    var expired := Expire(b, now).0;
    RefusedExactly(expired, e);
    if Change(expired, e).Some? {
      var changed := Change(expired, e).value.0;
      ChangeAttemptsWithin(expired, e, sessions);
      FillCarries(changed);
      StepLeaves(b, e, now);
      var after := Step(b, e, now).book;
      hide Expire, Change, Step, Shape;
      assert Fill(changed).0.inFlight == after.inFlight && Fill(changed).0.queued == after.queued;
      hide Fill, Room, Sent;
    }
  }

  lemma ChangeAttemptsWithin(b: Book, e: Event, sessions: nat)
    requires Shape(b) && AttemptsWithin(b, sessions) && Change(b, e).Some?
    requires !b.agent.Disconnected? ==> sessions >= 1
    ensures var c := Change(b, e).value.0;
            var gained := if e.Connected? then 1 else 0;
            AttemptsWithin(c, sessions + gained) && (!c.agent.Disconnected? ==> sessions + gained >= 1)
  {
    ChangeCarries(b, e);
    hide Ordered, Recall;
    if e.Response? || e.CancelRequest? {
      KeepMembers(b.inFlight, OtherThan(e.requestId));
      KeepMembers(b.queued, OtherThan(e.requestId));
    }
  }

  /** No request has more attempts than sessions were opened, so a 32-bit attempt counter outlasts 2^32 reconnections. */
  lemma {:induction false} AttemptsBoundedBySessions(max: nat, run: seq<Input>)
    requires FreshIds(run)
    ensures AttemptsWithin(After(max, run), Sessions(max, run))
    ensures !After(max, run).agent.Disconnected? ==> Sessions(max, run) >= 1
  {
    if run != [] {
      var n := |run| - 1;
      RunFresh(max, run);
      AttemptsBoundedBySessions(max, run[..n]);
      StepAttemptsWithin(After(max, run[..n]), run[n].event, run[n].now, Sessions(max, run[..n]));
    }
  }

  // ----- Readiness over runs -----

  function RunWithoutReadiness(run: seq<Input>): (plain: seq<Input>)
    ensures |plain| == |run|
    ensures forall i | 0 <= i < |run| :: plain[i] == Input(WithoutReadiness(run[i].event), run[i].now)
  {
    seq(|run|, i requires 0 <= i < |run| => Input(WithoutReadiness(run[i].event), run[i].now))
  }

  lemma SameUpToReadiness(a: Book, b: Book, e: Event, now: Instant)
    requires Unlabelled(a) == Unlabelled(b)
    ensures var o, p := Step(a, e, now), Step(b, WithoutReadiness(e), now);
            Emits(o) == Emits(p) && Unlabelled(o.book) == Unlabelled(p.book)
  {
    ReadinessNeverGates(a, e, now);
    ReadinessNeverGates(b, WithoutReadiness(e), now);
  }

  lemma {:induction false} RunsSameUpToReadiness(max: nat, run: seq<Input>)
    ensures Unlabelled(After(max, RunWithoutReadiness(run))) == Unlabelled(After(max, run))
  {
    if run != [] {
      var n := |run| - 1;
      var plain := RunWithoutReadiness(run);
      RunsSameUpToReadiness(max, run[..n]);
      assert RunWithoutReadiness(run[..n]) == plain[..n];
      hide Unlabelled, Step;
      SameUpToReadiness(After(max, run[..n]), After(max, plain[..n]), run[n].event, run[n].now);
    }
  }

  /** Replacing every readiness report of a run by a tick changes no effect of any step, and of the states only the label. */
  lemma ReadinessNeverGatesRuns(max: nat, run: seq<Input>, k: nat)
    requires k < |run|
    ensures Emits(At(max, RunWithoutReadiness(run), k)) == Emits(At(max, run, k))
    ensures Unlabelled(At(max, RunWithoutReadiness(run), k).book) == Unlabelled(At(max, run, k).book)
  {
    var plain := RunWithoutReadiness(run);
    RunsSameUpToReadiness(max, run[..k]);
    assert RunWithoutReadiness(run[..k]) == plain[..k];
    hide Unlabelled, Step;
    SameUpToReadiness(After(max, run[..k]), After(max, plain[..k]), run[k].event, run[k].now);
  }
}
