/** When the broker announces offline work, what it says, and what readiness does not change. */
module LedgerWakes {
  import opened Basics
  import opened BrokerTypes
  import opened Ledger
  import opened LedgerSafety
  import opened LedgerEffects

  /** The event is a submission that is admitted while no session is connected. */
  ghost predicate AdmitsOffline(b: Book, e: Event, now: Instant) {
    e.Submit? && b.agent.Disconnected? && |Expire(b, now).0.Entries()| < b.maxPending
  }

  /** The event ends the active session while a request that is not overdue is unfinished. */
  ghost predicate StrandsWork(b: Book, e: Event, now: Instant) {
    e.SessionClosed? && b.agent.Holds(e.sessionId) && exists x :: x in b.Entries() && now < x.deadline
  }

  /**
   A step announces a wake at most once, and does so exactly when it admits a
   request offline or strands unfinished work; the wake names the reasons of the
   queue the step leaves behind.
   */
  lemma WakesExactly(b: Book, e: Event, now: Instant)
    requires Sound(b) && Fresh(b, e)
    ensures var o := Step(b, e, now);
            Pick(Emits(o), Waking) ==
            if AdmitsOffline(b, e, now) || StrandsWork(b, e, now)
            then [WakeRequired(Reasons(o.book.queued))]
            else []
  {
    var expired := Expire(b, now).0;
    RefusedExactly(expired, e);
    LiveExactly(b, now);
    if Change(expired, e).Some? {
      StepEmits(b, e, now);
      AnnouncesExactly(b, e, now);
    }
  }

  lemma AnnouncesExactly(b: Book, e: Event, now: Instant)
    requires Sound(b) && Change(Expire(b, now).0, e).Some?
    ensures var changed := Change(Expire(b, now).0, e).value.0;
            Announce(Fill(changed).0).1 ==
            if AdmitsOffline(b, e, now) || StrandsWork(b, e, now)
            then [WakeRequired(Reasons(Step(b, e, now).book.queued))]
            else []
  {
    var expired := Expire(b, now).0;
    LiveExactly(b, now);
    QueueOnlyShrinks(b, now);
    hide Reasons, Ordered, Expire, Without;
    ChangeAnnounces(expired, e);
  }

  /** The flag is clear after a change exactly when the change calls for an announcement. */
  lemma ChangeAnnounces(b: Book, e: Event)
    requires Change(b, e).Some?
    requires b.agent.Disconnected? ==> b.inFlight == []
    requires b.wakeAnnounced ==> b.agent.Disconnected?
    requires b.agent.Disconnected? && b.queued != [] ==> b.wakeAnnounced
    ensures var changed := Change(b, e).value.0;
            Announce(Fill(changed).0).1 ==
            if || (e.Submit? && b.agent.Disconnected? && |b.Entries()| < b.maxPending)
               || (e.SessionClosed? && b.agent.Holds(e.sessionId) && b.Entries() != [])
            then [WakeRequired(Reasons(Announce(Fill(changed).0).0.queued))]
            else []
  {
  }

  lemma LiveExactly(b: Book, now: Instant)
    ensures Expire(b, now).0.Entries() != [] <==> exists x :: x in b.Entries() && now < x.deadline
  {
    KeepMembers(b.inFlight, LiveAt(now));
    KeepMembers(b.queued, LiveAt(now));
    var live := Expire(b, now).0.Entries();
    if x :| x in b.Entries() && now < x.deadline {
      assert LiveAt(now)(x);
      assert x in live;
    }
    if live != [] {
      assert live[0] in live;
      assert live[0] in b.Entries();
    }
  }

  lemma QueueOnlyShrinks(b: Book, now: Instant)
    ensures b.queued == [] ==> Expire(b, now).0.queued == []
    ensures b.inFlight == [] ==> Expire(b, now).0.inFlight == []
    ensures var x := Expire(b, now).0;
            x.agent == b.agent && x.maxPending == b.maxPending && x.wakeAnnounced == b.wakeAnnounced
  {
  }

  // ----- Reasons -----

  ghost predicate HasReason(e: Entry, r: bytes) {
    e.context.Some? && e.context.value.reason == r
  }

  ghost predicate Gives(es: seq<Entry>, r: bytes) {
    exists e :: e in es && HasReason(e, r)
  }

  /** The first entry that gives a reason. */
  ghost predicate FirstAt(es: seq<Entry>, r: bytes, i: nat) {
    i < |es| && HasReason(es[i], r) && forall j | 0 <= j < i :: !HasReason(es[j], r)
  }

  /** `Reasons` lists each reason of the queue once, in the order of first occurrence. */
  lemma {:induction false} ReasonsInFirstOccurrenceOrder(es: seq<Entry>)
    ensures NoDuplicates(Reasons(es))
    ensures forall r :: r in Reasons(es) <==> Gives(es, r)
    ensures forall x, y, i, j | 0 <= x < y < |Reasons(es)|
              && FirstAt(es, Reasons(es)[x], i) && FirstAt(es, Reasons(es)[y], j) :: i < j
  {
    if es != [] {
      var n := |es| - 1;
      var front := es[..n];
      ReasonsInFirstOccurrenceOrder(front);
      assert es == front + [es[n]];
      forall r
        ensures r in Reasons(es) <==> Gives(es, r)
      {
        assert es[n] in es;
      }
      forall x, y, i, j | 0 <= x < y < |Reasons(es)|
                          && FirstAt(es, Reasons(es)[x], i) && FirstAt(es, Reasons(es)[y], j)
        ensures i < j
      {
        FirstInFront(front, es[n], Reasons(es)[x], i);
        FirstInFront(front, es[n], Reasons(es)[y], j);
      }
    }
  }

  lemma FirstInFront(front: seq<Entry>, last: Entry, r: bytes, i: nat)
    requires FirstAt(front + [last], r, i)
    requires forall x :: x in Reasons(front) <==> Gives(front, x)
    ensures i < |front| ==> FirstAt(front, r, i) && r in Reasons(front)
    ensures i == |front| ==> r !in Reasons(front)
  {
    var es := front + [last];
    assert forall j | 0 <= j < |front| :: es[j] == front[j];
    if i < |front| {
      assert front[i] in front;
    }
  }

  // ----- Readiness -----

  function Unlabelled(b: Book): Book {
    if b.agent.Ready? then b.(agent := Locked(b.agent.session, b.agent.capacity)) else b
  }

  function WithoutReadiness(e: Event): Event {
    if e.AgentReady? || e.AgentLocked? then Tick else e
  }

  /** Readiness reports change nothing but the label of the session. */
  lemma ReadinessNeverGates(b: Book, e: Event, now: Instant)
    ensures var o := Step(b, e, now);
            var p := Step(Unlabelled(b), WithoutReadiness(e), now);
            && Emits(p) == Emits(o)
            && (p.Accepted? <==> o.Accepted?)
            && Unlabelled(p.book) == Unlabelled(o.book)
  {
    hide Reasons, Recall, Live, Overdue, DispatchesOf, NextAttempts, Without;
    assert Expire(Unlabelled(b), now) == (Unlabelled(Expire(b, now).0), Expire(b, now).1);
    ChangeUnlabelled(Expire(b, now).0, e);
    if Change(Expire(b, now).0, e).Some? {
      ReconcileUnlabelled(Change(Expire(b, now).0, e).value.0);
      ReconcileUnlabelled(Change(Unlabelled(Expire(b, now).0), WithoutReadiness(e)).value.0);
    }
  }

  lemma ChangeUnlabelled(b: Book, e: Event)
    ensures var x, y := Change(b, e), Change(Unlabelled(b), WithoutReadiness(e));
            && (x.Some? <==> y.Some?)
            && (x.Some? ==> Unlabelled(x.value.0) == Unlabelled(y.value.0) && x.value.1 == y.value.1)
  {
  }

  lemma ReconcileUnlabelled(b: Book)
    ensures Reconcile(Unlabelled(b)).1 == Reconcile(b).1
    ensures Unlabelled(Reconcile(Unlabelled(b)).0) == Unlabelled(Reconcile(b).0)
  {
  }
}
