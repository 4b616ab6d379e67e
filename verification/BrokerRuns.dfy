/** Properties of whole broker runs: every event sequence from an empty broker. */
module BrokerRuns {
  import opened Basics
  import opened BrokerTypes
  import opened Ledger
  import opened LedgerSafety
  import opened LedgerEffects
  import opened LedgerHistory

  datatype Input = Input(event: Event, now: Instant)

  ghost function After(max: nat, run: seq<Input>): Book
    decreases |run|, 0
  {
    if run == [] then Opening(max) else At(max, run, |run| - 1).book
  }

  /** The outcome of the `k`-th event of a run. */
  ghost function At(max: nat, run: seq<Input>, k: nat): Outcome
    requires k < |run|
    decreases k, 1
  {
    Step(After(max, run[..k]), run[k].event, run[k].now)
  }

  lemma AtPrefix(max: nat, run: seq<Input>, n: nat, k: nat)
    requires k < n <= |run|
    ensures At(max, run[..n], k) == At(max, run, k)
  {
    assert run[..n][..k] == run[..k];
  }

  function Submitted(run: seq<Input>, id: RequestId): nat {
    if run == [] then 0
    else Submitted(run[..|run| - 1], id) + Submissions(run[|run| - 1].event, id)
  }

  /** Request ids are fresh: no id is submitted twice. */
  ghost predicate FreshIds(run: seq<Input>) {
    forall id :: Submitted(run, id) <= 1
  }

  ghost function CompletedIn(max: nat, run: seq<Input>, id: RequestId): nat {
    if run == [] then 0
    else
      var n := |run| - 1;
      CompletedIn(max, run[..n], id) + Completions(Emits(At(max, run, n)), id)
  }

  ghost function LostIn(max: nat, run: seq<Input>, id: RequestId): nat {
    if run == [] then 0
    else
      var n := |run| - 1;
      LostIn(max, run[..n], id) + Count(LostAt(max, run, n), id)
  }

  ghost function LostAt(max: nat, run: seq<Input>, k: nat): seq<Entry>
    requires k < |run|
  {
    Lost(After(max, run[..k]), run[k].event, run[k].now)
  }

  lemma FreshPrefix(run: seq<Input>)
    requires run != [] && FreshIds(run)
    ensures FreshIds(run[..|run| - 1])
  {
    var front := run[..|run| - 1];
    forall id
      ensures Submitted(front, id) <= 1
    {
      assert Submitted(run, id) <= 1;
    }
  }

  /**
   Over every run the invariant holds and each submitted id is accounted for
   exactly once: still pending, completed, or lost to a refused session.
   */
  lemma {:induction false} RunConserves(max: nat, run: seq<Input>)
    requires FreshIds(run)
    ensures Sound(After(max, run))
    ensures forall id ::
              Submitted(run, id) == Count(After(max, run).Entries(), id) + CompletedIn(max, run, id) + LostIn(max, run, id)
  {
    if run != [] {
      var n := |run| - 1;
      var b, e, now := After(max, run[..n]), run[n].event, run[n].now;
      FreshPrefix(run);
      RunConserves(max, run[..n]);
      assert Fresh(b, e) by {
        if e.Submit? {
          assert Submitted(run, e.requestId) <= 1;
          CountOrdered(b.Entries(), e.requestId);
          IdsMembers(b.Entries(), e.requestId);
        }
      }
      StepKeepsSound(b, e, now);
      forall id
        ensures Submitted(run, id) == Count(After(max, run).Entries(), id) + CompletedIn(max, run, id) + LostIn(max, run, id)
      {
        StepConserves(b, e, now, id);
      }
    }
  }

  lemma RunFresh(max: nat, run: seq<Input>)
    requires FreshIds(run) && run != []
    ensures var n := |run| - 1;
            FreshIds(run[..n]) && Sound(After(max, run[..n])) && Fresh(After(max, run[..n]), run[n].event)
  {
    var n := |run| - 1;
    FreshPrefix(run);
    RunConserves(max, run[..n]);
    var e := run[n].event;
    if e.Submit? {
      assert Submitted(run, e.requestId) <= 1;
      CountOrdered(After(max, run[..n]).Entries(), e.requestId);
      IdsMembers(After(max, run[..n]).Entries(), e.requestId);
    }
  }

  /** A refused session coincides with an overdue request at step `k`. */
  ghost predicate RefusalMeetsOverdue(max: nat, run: seq<Input>, k: nat)
    requires k < |run|
  {
    var b := After(max, run[..k]);
    run[k].event.Connected? && !b.agent.Disconnected? && exists x :: x in b.Entries() && x.deadline <= run[k].now
  }

  /** No request is completed twice, and none is both completed and pending. */
  lemma CompletedAtMostOnce(max: nat, run: seq<Input>, id: RequestId)
    requires FreshIds(run)
    ensures CompletedIn(max, run, id) <= 1
    ensures CompletedIn(max, run, id) == 1 ==> id !in Ids(After(max, run).Entries())
  {
    AccountOf(max, run, id);
  }

  /**
   Every submitted request is pending or completed, after every run, exactly when
   no refused session coincides with an overdue request.
   */
  lemma EverySubmissionAccountedExactly(max: nat, run: seq<Input>)
    requires FreshIds(run)
    ensures (forall id :: Submitted(run, id) == 1 ==>
                            id in Ids(After(max, run).Entries()) || CompletedIn(max, run, id) == 1)
            <==> (forall k | 0 <= k < |run| :: !RefusalMeetsOverdue(max, run, k))
  {
    if k :| 0 <= k < |run| && RefusalMeetsOverdue(max, run, k) {
      LostAtExactly(max, run, k);
      var id := LossStays(max, run, k);
      AccountOf(max, run, id);
    } else {
      forall k | 0 <= k < |run|
        ensures LostAt(max, run, k) == []
      {
        LostAtExactly(max, run, k);
      }
      forall id
        ensures Submitted(run, id) == 1 ==> id in Ids(After(max, run).Entries()) || CompletedIn(max, run, id) == 1
      {
        NothingLost(max, run, id);
        AccountOf(max, run, id);
      }
    }
  }

  /** The account of one id: at most one of pending, completed and lost. */
  lemma AccountOf(max: nat, run: seq<Input>, id: RequestId)
    requires FreshIds(run)
    ensures Submitted(run, id) <= 1
    ensures Submitted(run, id)
         == (if id in Ids(After(max, run).Entries()) then 1 else 0) + CompletedIn(max, run, id) + LostIn(max, run, id)
  {
    RunConserves(max, run);
    CountOrdered(After(max, run).Entries(), id);
    IdsMembers(After(max, run).Entries(), id);
  }

  lemma {:induction false} NothingLost(max: nat, run: seq<Input>, id: RequestId)
    requires forall k | 0 <= k < |run| :: LostAt(max, run, k) == []
    ensures LostIn(max, run, id) == 0
  {
    if run != [] {
      var n := |run| - 1;
      hide LostAt;
      forall k | 0 <= k < n
        ensures LostAt(max, run[..n], k) == []
      {
        LostAtPrefix(max, run, n, k);
      }
      NothingLost(max, run[..n], id);
    }
  }

  lemma LostAtPrefix(max: nat, run: seq<Input>, n: nat, k: nat)
    requires k < n <= |run|
    ensures LostAt(max, run[..n], k) == LostAt(max, run, k)
  {
    assert run[..n][..k] == run[..k];
  }

  lemma LostAtExactly(max: nat, run: seq<Input>, k: nat)
    requires k < |run|
    ensures LostAt(max, run, k) != [] <==> RefusalMeetsOverdue(max, run, k)
  {
    LostExactly(After(max, run[..k]), run[k].event, run[k].now);
  }

  lemma {:induction false} LossStays(max: nat, run: seq<Input>, k: nat) returns (id: RequestId)
    requires k < |run| && LostAt(max, run, k) != []
    ensures LostIn(max, run, id) >= 1
  {
    hide LostAt;
    var n := |run| - 1;
    if k == n {
      id := LostAt(max, run, n)[0].id;
    } else {
      LostAtPrefix(max, run, n, k);
      id := LossStays(max, run[..n], k);
    }
  }

  function LosingRun(): seq<Input> {
    [Input(Submit(7, [], None, 10, 0, 0), 0), Input(Connected(1, 1), 0), Input(Connected(2, 1), 10)]
  }

  lemma LosingRunBefore()
    ensures After(8, LosingRun()[..2]) == Book(Locked(1, 1), [Entry(7, [], None, 10, 0, 0, 0, 1)], [], 8, 1, false)
  {
  }

  lemma LosingRunSubmits(id: RequestId)
    ensures Submitted(LosingRun(), id) == if id == 7 then 1 else 0
  {
    var run := LosingRun();
    assert run[..2][..1] == run[..1] && run[..1][..0] == [];
    assert Submitted(run[..1], id) == Submissions(run[0].event, id);
    assert Submitted(run[..2], id) == Submitted(run[..1], id);
  }

  /** The loss is real: the second session is refused and the overdue request is never answered. */
  lemma RefusalCanLoseARequest()
    ensures FreshIds(LosingRun()) && Submitted(LosingRun(), 7) == 1
    ensures 7 !in Ids(After(8, LosingRun()).Entries()) && CompletedIn(8, LosingRun(), 7) == 0
  {
    var run := LosingRun();
    forall id
      ensures Submitted(run, id) <= 1
    {
      LosingRunSubmits(id);
    }
    LosingRunSubmits(7);
    LosingRunBefore();
    hide After, LostIn, CompletedIn, Submitted;
    assert After(8, run[..2]).Entries()[0].deadline <= 10;
    assert After(8, run[..2]).Entries()[0] in After(8, run[..2]).Entries();
    assert RefusalMeetsOverdue(8, run, 2);
    LostAtExactly(8, run, 2);
    var id := LossStays(8, run, 2);
    LosingRunSubmits(id);
    AccountOf(8, run, id);
  }

  // ----- Requests keep what was submitted -----

  /** Entry `x` is the request that the run submitted at step `j`. */
  ghost predicate SubmittedAt(run: seq<Input>, j: nat, x: Entry) {
    j < |run| && run[j].event.Submit? && SameRequest(x, NewEntry(run[j].event, x.sequence))
  }

  lemma {:induction false} RunOrigins(max: nat, run: seq<Input>, x: Entry) returns (j: nat)
    requires x in After(max, run).Entries()
    ensures SubmittedAt(run, j, x)
  {
    var n := |run| - 1;
    var b := After(max, run[..n]);
    StepCarries(b, run[n].event, run[n].now, x);
    if Carried(b.Entries(), x) {
      var y :| y in b.Entries() && SameRequest(x, y) && y.attempt <= x.attempt;
      j := RunOrigins(max, run[..n], y);
    } else {
      j := n;
    }
  }

  lemma {:induction false} SubmittedOnce(run: seq<Input>, i: nat, j: nat, id: RequestId)
    requires FreshIds(run) && i <= j < |run|
    requires run[i].event.Submit? && run[i].event.requestId == id
    requires run[j].event.Submit? && run[j].event.requestId == id
    ensures i == j
  {
    if i < j {
      assert Submitted(run, id) <= 1;
      SubmittedCounts(run[..j], i, id);
      SubmittedGrows(run, j, id);
    }
  }

  lemma {:induction false} SubmittedCounts(run: seq<Input>, i: nat, id: RequestId)
    requires i < |run| && run[i].event.Submit? && run[i].event.requestId == id
    ensures Submitted(run, id) >= 1
  {
    if i < |run| - 1 {
      SubmittedCounts(run[..|run| - 1], i, id);
    }
  }

  lemma {:induction false} SubmittedGrows(run: seq<Input>, j: nat, id: RequestId)
    requires j < |run| && run[j].event.Submit? && run[j].event.requestId == id
    ensures Submitted(run, id) >= Submitted(run[..j], id) + 1
  {
    var n := |run| - 1;
    if j < n {
      SubmittedGrows(run[..n], j, id);
      assert run[..n][..j] == run[..j];
    }
  }

  ghost predicate Timely(run: seq<Input>) {
    forall j | 0 <= j < |run| :: run[j].event.Submit? ==> run[j].now < run[j].event.deadline
  }

  /** An accepted step at or past a request's deadline leaves it settled, whatever happened in between. */
  lemma DeadlineEnforced(max: nat, run: seq<Input>, j: nat)
    requires FreshIds(run) && Timely(run) && j < |run|
    requires run[j].event.Submit? && At(max, run, |run| - 1).Accepted?
    requires run[j].event.deadline <= run[|run| - 1].now
    ensures run[j].event.requestId !in Ids(After(max, run).Entries())
  {
    var n := |run| - 1;
    var id := run[j].event.requestId;
    if id in Ids(After(max, run).Entries()) {
      IdsMembers(After(max, run).Entries(), id);
      var x :| x in After(max, run).Entries() && x.id == id;
      var i := RunOrigins(max, run, x);
      if i <= j {
        SubmittedOnce(run, i, j, id);
      } else {
        SubmittedOnce(run, j, i, id);
      }
      StepCarries(After(max, run[..n]), run[n].event, run[n].now, x);
    }
  }

  /** Every dispatch carries the packet, context and timestamps of the submission with its id. */
  lemma DispatchCarriesSubmission(max: nat, run: seq<Input>, f: Effect) returns (j: nat)
    requires FreshIds(run) && run != []
    requires f.Dispatch? && f in Emits(At(max, run, |run| - 1))
    ensures j < |run| && run[j].event.Submit? && run[j].event.requestId == f.requestId
    ensures var e := run[j].event;
            (f.packet, f.context, f.requestedAt, f.deadline)
            == (e.packet, e.context, e.requestedAt, e.deadlineTimestamp)
  {
    var n := |run| - 1;
    RunFresh(max, run);
    DispatchesAreInFlight(After(max, run[..n]), run[n].event, run[n].now, f);
    var x :| x in After(max, run).inFlight && f == DispatchOf(x, f.sessionId);
    j := RunOrigins(max, run, x);
  }

  // ----- Answers -----

  ghost predicate DispatchedAt(max: nat, run: seq<Input>, j: nat, session: SessionId, id: RequestId, attempt: nat) {
    j < |run| && exists f :: f in Emits(At(max, run, j))
                             && f.Dispatch? && f.sessionId == session && f.requestId == id && f.attempt == attempt
  }

  /** No step after `j` dispatches, completes or cancels the request again, or closes the session. */
  ghost predicate UndisturbedSince(max: nat, run: seq<Input>, j: nat, session: SessionId, id: RequestId) {
    var n := |run| - 1;
    j < n ==>
      && Quiet(Emits(At(max, run, n)), id)
      && run[n].event != SessionClosed(session) && run[n].event != CancelRequest(id)
      && UndisturbedSince(max, run[..n], j, session, id)
  }

  /** Whatever is in flight was dispatched by the run in this session and attempt, and nothing has touched it since. */
  lemma {:induction false} InFlightHistory(max: nat, run: seq<Input>, x: Entry) returns (j: nat)
    requires FreshIds(run) && x in After(max, run).inFlight
    ensures !After(max, run).agent.Disconnected?
    ensures DispatchedAt(max, run, j, After(max, run).agent.session, x.id, x.attempt)
    ensures UndisturbedSince(max, run, j, After(max, run).agent.session, x.id)
  {
    var n := |run| - 1;
    var b := After(max, run[..n]);
    RunFresh(max, run);
    InFlightAfter(b, run[n].event, run[n].now, x);
    var session := After(max, run).agent.session;
    if DispatchOf(x, session) in Emits(At(max, run, n)) {
      j := n;
    } else {
      j := InFlightHistory(max, run[..n], x);
      AtPrefix(max, run, n, j);
    }
  }

  /**
   A request is answered only by a response that names the session and attempt of
   its latest dispatch, with no cancellation, completion or disconnection since
   then, and strictly before its deadline.
   */
  lemma AnswerMatchesLatestDispatch(max: nat, run: seq<Input>, id: RequestId, packet: bytes)
    returns (submitted: nat, dispatched: nat)
    requires FreshIds(run) && run != []
    requires Complete(id, Success(packet)) in Emits(At(max, run, |run| - 1))
    ensures var n := |run| - 1;
            var e := run[n].event;
            && e.Response? && e.requestId == id && e.packet == packet
            && DispatchedAt(max, run[..n], dispatched, e.sessionId, id, e.attempt)
            && UndisturbedSince(max, run[..n], dispatched, e.sessionId, id)
            && submitted < n && run[submitted].event.Submit? && run[submitted].event.requestId == id
            && run[n].now < run[submitted].event.deadline
  {
    var n := |run| - 1;
    RunFresh(max, run);
    var b := After(max, run[..n]);
    AnsweredOnlyInFlight(b, run[n].event, run[n].now, id, packet);
    var x :| x in b.inFlight && x.id == id && x.attempt == run[n].event.attempt && run[n].now < x.deadline;
    dispatched := InFlightHistory(max, run[..n], x);
    submitted := RunOrigins(max, run[..n], x);
  }
}
