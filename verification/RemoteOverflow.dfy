/**
 When a client's buffer can overflow: exactly when what a session may have in
 flight, together with the requests whose recall a refused session dropped,
 exceeds what a client buffers.
 */
module RemoteOverflow {
  import opened Basics
  import opened BrokerTypes
  import opened Ledger
  import opened LedgerSafety
  import opened LedgerEffects
  import opened LedgerHistory
  import opened LinkReplay
  import opened RemoteProtocol
  import opened RemoteSafety
  import BrokerActor

  // ----- Requests and keys by number -----

  function Item(i: nat): Entry {
    Entry(i, [], None, i + 1, 0, 0, i, 0)
  }

  function Ask(i: nat): Event {
    Submit(i, [], None, i + 1, 0, 0)
  }

  /** `j` requests from number `l` on, dispatched once. */
  function Flying(l: nat, j: nat): seq<Entry> {
    if j == 0 then [] else Flying(l, j - 1) + [NextAttempt(Item(l + j - 1))]
  }

  lemma {:induction false} FlyingIsLive(l: nat, j: nat)
    ensures |Flying(l, j)| == j && forall x <- Flying(l, j) :: l < x.deadline
  {
    if j > 0 {
      FlyingIsLive(l, j - 1);
    }
  }

  lemma FewFlying(l: nat)
    ensures Flying(l, 0) == [] && Flying(l, 1) == [NextAttempt(Item(l))]
  {
    assert Flying(l, 1) == Flying(l, 1 - 1) + [NextAttempt(Item(l + 1 - 1))];
  }

  ghost function FirstKeys(n: nat): set<Key> {
    set i | 0 <= i < n :: Key(i, 1)
  }

  lemma FirstKeysGrow(n: nat)
    ensures FirstKeys(n + 1) == FirstKeys(n) + {Key(n, 1)} && Key(n, 1) !in FirstKeys(n)
  {
  }

  lemma {:induction false} FirstKeysCount(n: nat)
    ensures |FirstKeys(n)| == n
  {
    if n > 0 {
      FirstKeysCount(n - 1);
      FirstKeysGrow(n - 1);
    } else {
      assert FirstKeys(0) == {};
    }
  }

  ghost function FirstIds(n: nat): (ids: set<RequestId>)
    ensures forall i: nat :: i in ids <==> i < n
  {
    if n == 0 then {} else FirstIds(n - 1) + {n - 1}
  }

  // ----- The run -----

  /** One session; the first `l` requests were lost, the next `j` are in flight, and the client holds them all. */
  ghost function Reached(max: nat, limit: nat, l: nat, j: nat): System {
    System(Book(Locked(0, limit), Flying(l, j), [], max, l + j, false),
           map[0 := Link(Bound(limit, max), [], FirstKeys(l + j), [], true, FirstKeys(l))],
           FirstIds(l + j))
  }

  /** The same with one more request dispatched but not delivered. */
  ghost function Asked(max: nat, limit: nat, l: nat, j: nat): System {
    System(Book(Locked(0, limit), Flying(l, j + 1), [], max, l + j + 1, false),
           map[0 := Link(Bound(limit, max), [RequestOf(NextAttempt(Item(l + j)))], FirstKeys(l + j), [], true,
                         FirstKeys(l))],
           FirstIds(l + j + 1))
  }

  lemma AskStep(max: nat, limit: nat, l: nat, j: nat)
    requires j < Bound(limit, max)
    ensures var o := Step(Reached(max, limit, l, j).broker, Ask(l + j), l);
            && o.book == Asked(max, limit, l, j).broker
            && Commands(Emits(o), 0) == [RequestOf(NextAttempt(Item(l + j)))]
  {
    hide Expire, Commands, Reasons, FirstKeys, FirstIds;
    var b, e, entry := Reached(max, limit, l, j).broker, Ask(l + j), Item(l + j);
    FlyingIsLive(l, j);
    BrokerActor.NothingExpires(b, l);
    var changed := b.(queued := [entry], nextSequence := l + j + 1);
    assert [] + [entry] == [entry] && b.Entries() == Flying(l, j);
    assert Change(b, e) == Some((changed, []));
    StepLeaves(b, e, l);
    StepCommands(b, e, l, 0);
    assert changed.queued[..Room(changed)] == [entry];
    assert Sent(changed) == [NextAttempt(entry)];
    CommandsOfDispatches(Sent(changed), 0);
    CommandsNone([], 0);
    assert Requests(Sent(changed)) == [RequestOf(NextAttempt(entry))];
  }

  lemma AskRound(max: nat, limit: nat, l: nat, j: nat)
    requires j < Bound(limit, max)
    ensures Enabled(Reached(max, limit, l, j), Local(Ask(l + j), l))
    ensures Next(Reached(max, limit, l, j), Local(Ask(l + j), l)).0 == Asked(max, limit, l, j)
  {
    hide Step, Commands, Emits, RequestOf, Flying, FirstKeys, Bound;
    AskStep(max, limit, l, j);
    var request := RequestOf(NextAttempt(Item(l + j)));
    assert [] + [request] == [request];
    var link := Reached(max, limit, l, j).links[0];
    Replaced(link, link.(down := [request]));
  }

  lemma ReceiveRound(max: nat, limit: nat, l: nat, j: nat)
    ensures Enabled(Asked(max, limit, l, j), Deliver(0))
    ensures l + j < MAX_PENDING_REQUESTS ==> Next(Asked(max, limit, l, j), Deliver(0)).0 == Reached(max, limit, l, j + 1)
    ensures l + j >= MAX_PENDING_REQUESTS ==> Next(Asked(max, limit, l, j), Deliver(0)).1 == Some(BufferFull)
  {
    hide FirstKeys, Flying, RequestOf, Bound;
    FirstKeysCount(l + j);
    FirstKeysGrow(l + j);
    AskedKey(l + j);
    var link := Asked(max, limit, l, j).links[0];
    assert link.down[1..] == [];
    Replaced(link, Receive(link).0);
  }

  lemma AskedKey(n: nat)
    ensures RequestOf(NextAttempt(Item(n))).Request? && KeyOf(RequestOf(NextAttempt(Item(n)))) == Key(n, 1)
  {
  }

  lemma Replaced(link: Link, next: Link)
    ensures map[0 as SessionId := link][0 := next] == map[0 := next]
  {
  }

  lemma RefusalStep(max: nat, limit: nat, l: nat)
    ensures Step(Reached(max, limit, l, 1).broker, Connected(l + 1, limit), l + 1)
         == Refused(Reached(max, limit, l + 1, 0).broker)
    ensures Keys(Overdue(Flying(l, 1), l + 1)) == {Key(l, 1)}
  {
    var entry := NextAttempt(Item(l));
    hide Flying, FirstKeys, FirstIds, Reasons;
    FewFlying(l);
    FewFlying(l + 1);
    KeepNone([entry], LiveAt(l + 1));
    KeepAll([entry], OverdueAt(l + 1));
    KeysOfOne(entry);
  }

  lemma RefuseRound(max: nat, limit: nat, l: nat)
    ensures Enabled(Reached(max, limit, l, 1), Connect(l + 1, limit, l + 1))
    ensures Next(Reached(max, limit, l, 1), Connect(l + 1, limit, l + 1)).0 == Reached(max, limit, l + 1, 0)
  {
    RefusalStep(max, limit, l);
    FirstKeysGrow(l);
    NothingPosted(Link(Bound(limit, max), [], FirstKeys(l + 1), [], true, FirstKeys(l + 1)), 0);
    hide Step, FirstKeys, Flying, Keys, Overdue, Bound;
  }

  lemma FirstRound(max: nat, limit: nat) returns (run: seq<Action>)
    ensures IsRun(max, run) && Capacities(run, limit) && At(max, run) == Reached(max, limit, 0, 0)
  {
    run := [];
    assert At(max, run) == RemoteProtocol.Opening(max);
    Extend(max, run, limit, Connect(0, limit, 0));
    run := run + [Connect(0, limit, 0)];
    assert FirstKeys(0) == {};
    NothingPosted(NewLink(limit, max), 0);
  }

  /** After `l` refusals, each losing a request, `j` more requests are in flight and with the client. */
  lemma {:induction false} Reach(max: nat, limit: nat, l: nat, j: nat) returns (run: seq<Action>)
    requires 0 < Bound(limit, max) && j <= Bound(limit, max) && l + j <= MAX_PENDING_REQUESTS
    ensures IsRun(max, run) && Capacities(run, limit) && At(max, run) == Reached(max, limit, l, j)
    decreases l, j
  {
    hide *;
    if j > 0 {
      run := Reach(max, limit, l, j - 1);
      AskRound(max, limit, l, j - 1);
      Extend(max, run, limit, Local(Ask(l + (j - 1)), l));
      run := run + [Local(Ask(l + (j - 1)), l)];
      ReceiveRound(max, limit, l, j - 1);
      Extend(max, run, limit, Deliver(0));
      run := run + [Deliver(0)];
    } else if l > 0 {
      run := Reach(max, limit, l - 1, 1);
      RefuseRound(max, limit, l - 1);
      Extend(max, run, limit, Connect(l - 1 + 1, limit, l - 1 + 1));
      run := run + [Connect(l - 1 + 1, limit, l - 1 + 1)];
    } else {
      run := FirstRound(max, limit);
    }
  }

  /** Whenever capacity and losses together exceed the client's buffer, some run overflows it. */
  lemma Overflows(max: nat, limit: nat, losses: nat) returns (run: seq<Action>)
    requires 0 < Bound(limit, max) && Bound(limit, max) + losses > MAX_PENDING_REQUESTS
    ensures IsRun(max, run) && Capacities(run, limit) && Losses(At(max, run), losses)
    ensures Enabled(At(max, run), Deliver(0)) && Next(At(max, run), Deliver(0)).1 == Some(BufferFull)
  {
    var l := if losses < MAX_PENDING_REQUESTS then losses else MAX_PENDING_REQUESTS;
    var j := MAX_PENDING_REQUESTS - l;
    var front := Reach(max, limit, l, j);
    AskRound(max, limit, l, j);
    Extend(max, front, limit, Local(Ask(l + j), l));
    run := front + [Local(Ask(l + j), l)];
    hide IsRun, At, Capacities;
    ReceiveRound(max, limit, l, j);
    FirstKeysCount(l);
  }

  // ----- The exact condition -----

  /** No run with capacities up to `limit` and at most `losses` lost requests per link makes a client report an error. */
  ghost predicate FaultFree(max: nat, limit: nat, losses: nat) {
    forall run: seq<Action>, a: Action
      | IsRun(max, run) && Enabled(At(max, run), a) && Capacities(run, limit) && Losses(At(max, run), losses) ::
      Next(At(max, run), a).1 == None
  }

  /** Clients are safe from errors exactly when nothing is ever sent, or all that can be held fits their buffer. */
  lemma FaultFreeExactly(max: nat, limit: nat, losses: nat)
    ensures FaultFree(max, limit, losses) <==>
              Bound(limit, max) == 0 || Bound(limit, max) + losses <= MAX_PENDING_REQUESTS
  {
    hide Next, IsRun, At, Capacities, Losses, Bound, Enabled;
    if Bound(limit, max) == 0 || Bound(limit, max) + losses <= MAX_PENDING_REQUESTS {
      forall run: seq<Action>, a: Action
        | IsRun(max, run) && Enabled(At(max, run), a) && Capacities(run, limit) && Losses(At(max, run), losses)
        ensures Next(At(max, run), a).1 == None
      {
        FaultsNeedLoad(max, run, a, limit, losses);
      }
    } else {
      var run := Overflows(max, limit, losses);
      assert Next(At(max, run), Deliver(0)).1 != None;
    }
  }
}
