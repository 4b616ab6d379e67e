/** What every step of the broker keeps, and what every accepted step settles. */
module LedgerSafety {
  import opened BrokerTypes
  import opened Ledger

  // ----- Selection -----

  lemma {:induction false} KeepMembers(es: seq<Entry>, p: Entry -> bool)
    ensures forall e :: e in Keep(es, p) <==> e in es && p(e)
    ensures |Keep(es, p)| <= |es|
  {
    if es != [] {
      KeepMembers(es[1..], p);
      assert es == [es[0]] + es[1..];
    }
  }

  lemma {:induction false} KeepAll(es: seq<Entry>, p: Entry -> bool)
    requires forall e <- es :: p(e)
    ensures Keep(es, p) == es
  {
    if es != [] {
      KeepAll(es[1..], p);
    }
  }

  lemma {:induction false} KeepNone(es: seq<Entry>, p: Entry -> bool)
    requires forall e <- es :: !p(e)
    ensures Keep(es, p) == []
  {
    if es != [] {
      KeepNone(es[1..], p);
    }
  }

  /** Entries in admission order, no two with the same id. */
  ghost predicate Ordered(es: seq<Entry>) {
    forall i, j :: 0 <= i < j < |es| ==> es[i].sequence < es[j].sequence && es[i].id != es[j].id
  }

  lemma {:induction false} KeepOrdered(es: seq<Entry>, p: Entry -> bool)
    requires Ordered(es)
    ensures Ordered(Keep(es, p))
  {
    if es != [] {
      hide Ordered;
      OrderedCons(es[0], es[1..]);
      assert es == [es[0]] + es[1..];
      KeepOrdered(es[1..], p);
      KeepMembers(es[1..], p);
      OrderedCons(es[0], Keep(es[1..], p));
      assert [] + Keep(es[1..], p) == Keep(es[1..], p);
    }
  }

  lemma OrderedCons(e: Entry, es: seq<Entry>)
    ensures Ordered([e] + es) <==> Ordered(es) && forall x <- es :: e.sequence < x.sequence && e.id != x.id
  {
    OrderedConcat([e], es);
  }

  lemma OrderedConcat(a: seq<Entry>, b: seq<Entry>)
    ensures Ordered(a + b) <==>
            && Ordered(a) && Ordered(b)
            && (forall x, y | x in a && y in b :: x.sequence < y.sequence && x.id != y.id)
  {
    var ab := a + b;
    if Ordered(ab) {
      assert forall i | 0 <= i < |a| :: ab[i] == a[i];
      assert forall j | 0 <= j < |b| :: ab[|a| + j] == b[j];
      assert forall i, j | 0 <= i < |a| && 0 <= j < |b| ::
          a[i].sequence < b[j].sequence && a[i].id != b[j].id;
    }
  }

  lemma IdsConcat(a: seq<Entry>, b: seq<Entry>)
    ensures Ids(a + b) == Ids(a) + Ids(b)
  {
  }

  lemma IdsMembers(es: seq<Entry>, id: RequestId)
    ensures id in Ids(es) <==> Mentions(es, id)
    ensures id in Ids(es) <==> exists e :: e in es && e.id == id
  {
  }

  // ----- The invariant -----

  ghost predicate Shape(b: Book) {
    && Ordered(b.Entries())
    && (forall e <- b.Entries() :: e.sequence < b.nextSequence)
    && (b.agent.Disconnected? ==> b.inFlight == [])
    && (!b.agent.Disconnected? ==> |b.inFlight| <= b.agent.capacity)
    && |b.Entries()| <= b.maxPending
  }

  ghost predicate Sound(b: Book) {
    && Shape(b)
    && (b.wakeAnnounced <==> b.agent.Disconnected? && b.queued != [])
  }

  /** No room is left unused: the queue is empty or the session is full. */
  ghost predicate Settled(b: Book) {
    b.agent.Disconnected? || b.queued == [] || |b.inFlight| == b.agent.capacity
  }

  ghost predicate Fresh(b: Book, e: Event) {
    e.Submit? ==> e.requestId !in Ids(b.Entries())
  }

  lemma SelectKeepsShape(b: Book, p: Entry -> bool, q: Entry -> bool)
    requires Shape(b)
    ensures Shape(b.(inFlight := Keep(b.inFlight, p), queued := Keep(b.queued, q)))
  {
    OrderedConcat(b.inFlight, b.queued);
    OrderedConcat(Keep(b.inFlight, p), Keep(b.queued, q));
    KeepMembers(b.inFlight, p);
    KeepMembers(b.queued, q);
    KeepOrdered(b.inFlight, p);
    KeepOrdered(b.queued, q);
  }

  predicate Everything(e: Entry) {
    true
  }

  lemma WithoutKeepsShape(b: Book, id: RequestId)
    requires Shape(b)
    ensures Shape(b.(inFlight := Without(b.inFlight, id)))
    ensures Shape(b.(queued := Without(b.queued, id)))
  {
    SelectKeepsShape(b, OtherThan(id), Everything);
    SelectKeepsShape(b, Everything, OtherThan(id));
    KeepAll(b.queued, Everything);
    KeepAll(b.inFlight, Everything);
  }

  lemma ExpireKeepsShape(b: Book, now: Instant)
    requires Shape(b)
    ensures Shape(Expire(b, now).0)
    ensures forall e <- Expire(b, now).0.Entries() :: now < e.deadline && e in b.Entries()
  {
    SelectKeepsShape(b, LiveAt(now), LiveAt(now));
    KeepMembers(b.inFlight, LiveAt(now));
    KeepMembers(b.queued, LiveAt(now));
  }

  lemma AdmissionKeepsShape(b: Book, e: Event)
    requires Shape(b) && Fresh(b, e) && e.Submit?
    requires |b.Entries()| < b.maxPending
    ensures Shape(Change(b, e).value.0)
  {
    var entry := NewEntry(e, b.nextSequence);
    var c := Change(b, e).value.0;
    assert c.Entries() == b.Entries() + [entry];
    forall x <- b.Entries()
      ensures x.id != e.requestId
    {
      IdsMembers(b.Entries(), x.id);
    }
    hide Ordered;
    OrderedConcat(b.Entries(), [entry]);
    OrderedOne(entry);
  }

  lemma OrderedOne(e: Entry)
    ensures Ordered([e])
  {
  }

  lemma ChangeKeepsShape(b: Book, e: Event)
    requires Shape(b) && Fresh(b, e)
    requires Change(b, e).Some?
    ensures Shape(Change(b, e).value.0)
  {
    hide Ordered, Fresh;
    match e
    case Submit(_, _, _, _, _, _) =>
      if |b.Entries()| < b.maxPending {
        AdmissionKeepsShape(b, e);
      }
    case SessionClosed(s) =>
      assert [] + b.Entries() == b.Entries();
    case Response(_, id, _, _) =>
      WithoutKeepsShape(b, id);
    case CancelRequest(id) =>
      WithoutKeepsShape(b, id);
    case _ =>
  }

  lemma FillKeepsShape(b: Book)
    requires Shape(b)
    ensures Shape(Fill(b).0) && Settled(Fill(b).0)
  {
    if !b.agent.Disconnected? {
      var front, back := b.queued[..Room(b)], b.queued[Room(b)..];
      var sent := NextAttempts(front);
      assert b.queued == front + back;
      var before, after := b.Entries(), Fill(b).0.Entries();
      assert |after| == |before|;
      forall i | 0 <= i < |before|
        ensures after[i].id == before[i].id && after[i].sequence == before[i].sequence
      {
        if |b.inFlight| <= i < |b.inFlight| + |front| {
          assert after[i] == sent[i - |b.inFlight|];
        }
      }
    }
  }

  lemma ReconcileSettles(b: Book)
    requires Shape(b)
    ensures Sound(Reconcile(b).0) && Settled(Reconcile(b).0)
  {
    FillKeepsShape(b);
  }

  lemma ExpireKeepsFresh(b: Book, e: Event, now: Instant)
    requires Fresh(b, e)
    ensures Fresh(Expire(b, now).0, e)
  {
    if e.Submit? {
      IdsMembers(b.Entries(), e.requestId);
      IdsMembers(Expire(b, now).0.Entries(), e.requestId);
      KeepMembers(b.inFlight, LiveAt(now));
      KeepMembers(b.queued, LiveAt(now));
    }
  }

  /** Only a second remote session is refused. */
  lemma RefusedExactly(b: Book, e: Event)
    ensures Change(b, e).None? <==> e.Connected? && !b.agent.Disconnected?
  {
  }

  // ----- Steps -----

  /**
   Every step, refused or not, keeps admission order, the capacity bound and the
   queue limit; the wake flag says exactly that queued work waits for a session.
   After an accepted step a connected session is full or the queue is empty.
   */
  lemma StepKeepsSound(b: Book, e: Event, now: Instant)
    requires Sound(b) && Fresh(b, e)
    ensures Sound(Step(b, e, now).book)
    ensures Step(b, e, now).Accepted? ==> Settled(Step(b, e, now).book)
  {
    ExpireKeepsShape(b, now);
    ExpireKeepsFresh(b, e, now);
    var expired := Expire(b, now).0;
    if Change(expired, e).Some? {
      ChangeKeepsShape(expired, e);
      ReconcileSettles(Change(expired, e).value.0);
    }
  }
}
