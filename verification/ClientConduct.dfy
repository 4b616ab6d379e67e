/**
 What an observer of the client session may see: sockets created and closed,
 messages sent, requests buffered, handed to the agent, answered and settled,
 and disconnect notices.  `Legal` is the rule the session is held to; the lemmas below say
 what the rule means for a whole history.
 */
module ClientConduct {
  import opened Basics
  import opened LinkReplay

  /** Sockets are numbered in the order of their creation, deliveries in the order they were buffered. */
  type SocketId = nat
  type Token = nat

  datatype Outcome = Signed | Expired | Canceled

  datatype Message =
    | Authenticate(clientId: string, credential: bytes)
    | PairRequest(clientLabel: string)
    | SetIdentities(identities: seq<(bytes, string)>)
    | SetPushSubscription(subscription: bytes)
    | ReportReady
    | ReportLocked
    | Pong

  datatype Observed =
    | Created(socket: SocketId)
    | Entered(socket: SocketId)
    | Sent(socket: SocketId, message: Message)
    | Delivered(socket: SocketId, token: Token, key: Key)
    | Handed(token: Token, key: Key)
    | Responded(socket: SocketId, token: Token, key: Key, packet: bytes)
    | Settled(token: Token, key: Key, outcome: Outcome)
    | Closed(socket: SocketId)
    | Left

  datatype Phase = Idle | Live(socket: SocketId, connected: bool) | Leaving

  /** A buffered request waits, is with the agent, or has just been answered. */
  datatype Stage = Buffering | Working | Answered

  datatype Holding = Holding(token: Token, stage: Stage)

  datatype Conduct = Conduct(phase: Phase, sockets: nat, issued: nat, held: map<Key, Holding>)

  const Silent := Conduct(Idle, 0, 0, map[])

  ghost predicate On(c: Conduct, s: SocketId) {
    c.phase.Live? && c.phase.socket == s
  }

  ghost predicate Allowed(c: Conduct, e: Observed) {
    match e
    case Created(s) => c.phase.Idle? && s == c.sockets
    case Entered(s) => c.phase == Live(s, false)
    case Sent(s, _) => On(c, s)
    case Delivered(s, t, k) =>
      c.phase == Live(s, true) && t == c.issued && k !in c.held && |c.held| < MAX_PENDING_REQUESTS
    case Handed(t, k) => k in c.held && c.held[k] == Holding(t, Buffering)
    case Responded(s, t, k, _) => c.phase == Live(s, true) && k in c.held && c.held[k] == Holding(t, Working)
    case Settled(t, k, outcome) =>
      k in c.held && c.held[k].token == t && (c.held[k].stage.Answered? <==> outcome.Signed?)
    case Closed(s) => On(c, s)
    case Left => c.phase.Leaving?
  }

  ghost function Follow(c: Conduct, e: Observed): Conduct
    requires Allowed(c, e)
  {
    match e
    case Created(s) => c.(phase := Live(s, false), sockets := c.sockets + 1)
    case Entered(s) => c.(phase := Live(s, true))
    case Sent(_, _) => c
    case Delivered(_, t, k) => c.(issued := c.issued + 1, held := c.held[k := Holding(t, Buffering)])
    case Handed(t, k) => c.(held := c.held[k := Holding(t, Working)])
    case Responded(_, t, k, _) => c.(held := c.held[k := Holding(t, Answered)])
    case Settled(_, k, _) => c.(held := c.held - {k})
    case Closed(_) => c.(phase := if c.phase.connected then Leaving else Idle, held := map[])
    case Left => c.(phase := Idle)
  }

  ghost predicate Legal(trace: seq<Observed>)
    decreases |trace|, 0
  {
    trace == [] ||
    var n := |trace| - 1;
    Legal(trace[..n]) && Allowed(After(trace[..n]), trace[n])
  }

  ghost function After(trace: seq<Observed>): Conduct
    requires Legal(trace)
    decreases |trace|, 1
  {
    if trace == [] then Silent
    else
      var n := |trace| - 1;
      Follow(After(trace[..n]), trace[n])
  }

  lemma Extend(trace: seq<Observed>, e: Observed)
    requires Legal(trace) && Allowed(After(trace), e)
    ensures Legal(trace + [e]) && After(trace + [e]) == Follow(After(trace), e)
  {
  }

  lemma {:induction false} LegalPrefix(trace: seq<Observed>, n: nat)
    requires Legal(trace) && n <= |trace|
    ensures Legal(trace[..n])
    ensures n < |trace| ==> Allowed(After(trace[..n]), trace[n])
    ensures n < |trace| ==> Legal(trace[..n + 1]) && After(trace[..n + 1]) == Follow(After(trace[..n]), trace[n])
  {
    var m := |trace| - 1;
    if n == |trace| {
      assert trace[..n] == trace;
    } else if n < m {
      LegalPrefix(trace[..m], n);
      assert trace[..m][..n] == trace[..n];
      assert trace[..m][..n + 1] == trace[..n + 1];
    } else {
      assert trace[..n + 1] == trace;
    }
  }

  // ----- What a legal history means -----

  /** The buffered requests carry distinct deliveries and fit the buffer. */
  ghost predicate Numbered(held: map<Key, Holding>, issued: nat) {
    && |held| <= MAX_PENDING_REQUESTS
    && (forall k <- held :: held[k].token < issued)
    && (forall k, l | k in held && l in held && held[k].token == held[l].token :: k == l)
  }

  lemma NumberedAdds(held: map<Key, Holding>, issued: nat, k: Key)
    requires Numbered(held, issued) && k !in held && |held| < MAX_PENDING_REQUESTS
    ensures Numbered(held[k := Holding(issued, Buffering)], issued + 1)
  {
  }

  lemma NumberedAdvances(held: map<Key, Holding>, issued: nat, k: Key, stage: Stage)
    requires Numbered(held, issued) && k in held
    ensures Numbered(held[k := Holding(held[k].token, stage)], issued)
  {
  }

  lemma NumberedRemoves(held: map<Key, Holding>, issued: nat, k: Key)
    requires Numbered(held, issued) && k in held
    ensures Numbered(held - {k}, issued)
  {
  }

  /** Moreover, requests are buffered only while connected. */
  ghost predicate Coherent(c: Conduct) {
    && (c.held != map[] ==> c.phase.Live? && c.phase.connected)
    && Numbered(c.held, c.issued)
    && (c.phase.Live? ==> c.phase.socket < c.sockets)
  }

  lemma FollowKeepsCoherent(c: Conduct, e: Observed)
    requires Coherent(c) && Allowed(c, e)
    ensures Coherent(Follow(c, e))
  {
    match e
    case Settled(_, k, _) => NumberedRemoves(c.held, c.issued, k);
    case Handed(_, k) => NumberedAdvances(c.held, c.issued, k, Working);
    case Responded(_, _, k, _) => NumberedAdvances(c.held, c.issued, k, Answered);
    case Delivered(_, _, k) => NumberedAdds(c.held, c.issued, k);
    case Closed(_) =>
    case _ => hide Numbered;
  }

  lemma {:induction false} LegalIsCoherent(trace: seq<Observed>)
    requires Legal(trace)
    ensures Coherent(After(trace))
  {
    hide Coherent, Allowed, Follow;
    if trace != [] {
      var n := |trace| - 1;
      LegalIsCoherent(trace[..n]);
      FollowKeepsCoherent(After(trace[..n]), trace[n]);
    } else {
      SilentIsCoherent();
    }
  }

  lemma SilentIsCoherent()
    ensures Coherent(Silent)
  {
  }

  /** Whether an observation ends what is known of the request buffered under a key. */
  ghost predicate Ends(e: Observed, k: Key) {
    e.Closed? || (e.Settled? && e.key == k)
  }

  ghost predicate Answers(e: Observed, k: Key) {
    e.Responded? && e.key == k
  }

  ghost predicate Hands(e: Observed, k: Key) {
    e.Handed? && e.key == k
  }

  lemma HeldBefore(c: Conduct, e: Observed, k: Key)
    requires Coherent(c) && Allowed(c, e) && k in Follow(c, e).held
    requires !(e.Delivered? && e.key == k)
    ensures var d := Follow(c, e);
            && k in c.held && c.held[k].token == d.held[k].token
            && c.phase.Live? && d.phase.Live? && c.phase.socket == d.phase.socket
            && !Ends(e, k)
            && (!d.held[k].stage.Answered? ==> !c.held[k].stage.Answered? && !Answers(e, k))
            && (d.held[k].stage.Buffering? ==> c.held[k].stage.Buffering? && !Hands(e, k))
            && (!d.held[k].stage.Buffering? && c.held[k].stage.Buffering? ==> e == Handed(c.held[k].token, k))
  {
  }

  /**
   A buffered request was delivered on the present socket, and nothing settled
   it or closed the socket since; its stage says what happened to it.
   */
  lemma {:induction false} HeldSince(trace: seq<Observed>, k: Key) returns (i: nat)
    requires Legal(trace) && k in After(trace).held
    ensures i < |trace| && After(trace).phase.Live?
    ensures trace[i] == Delivered(After(trace).phase.socket, After(trace).held[k].token, k)
    ensures forall j | i < j < |trace| :: !Ends(trace[j], k)
    ensures !After(trace).held[k].stage.Answered? ==> forall j | i < j < |trace| :: !Answers(trace[j], k)
    ensures After(trace).held[k].stage.Buffering? ==> forall j | i < j < |trace| :: !Hands(trace[j], k)
    ensures !After(trace).held[k].stage.Buffering? ==> Handed(After(trace).held[k].token, k) in trace[i..]
  {
    var n := |trace| - 1;
    var front, last := trace[..n], trace[n];
    LegalIsCoherent(front);
    if last.Delivered? && last.key == k {
      i := n;
    } else {
      HeldBefore(After(front), last, k);
      hide Allowed, Follow, Coherent, Ends, Answers, Hands;
      i := HeldSince(front, k);
      assert trace == front + [last];
      assert trace[i..] == front[i..] + [last];
    }
  }

  lemma {:induction false} TokensIssuedOnce(trace: seq<Observed>, i: nat)
    requires Legal(trace) && i < |trace| && trace[i].Delivered?
    ensures trace[i].token < After(trace).issued
  {
    var n := |trace| - 1;
    if i < n {
      TokensIssuedOnce(trace[..n], i);
    }
  }

  lemma {:induction false} DeliveredOnce(trace: seq<Observed>, i: nat, j: nat)
    requires Legal(trace) && i < j < |trace| && trace[i].Delivered? && trace[j].Delivered?
    ensures trace[i].token != trace[j].token
  {
    LegalPrefix(trace, j);
    TokensIssuedOnce(trace[..j], i);
  }

  /**
   A response answers a request that was delivered earlier on the very same
   socket and handed to the agent; since the delivery that socket was not
   closed, and the delivery was neither answered nor cancelled.
   */
  lemma AnswersTheirDelivery(trace: seq<Observed>, j: nat) returns (i: nat)
    requires Legal(trace) && j < |trace| && trace[j].Responded?
    ensures i < j && trace[i] == Delivered(trace[j].socket, trace[j].token, trace[j].key)
    ensures Handed(trace[j].token, trace[j].key) in trace[i..j]
    ensures forall m | i < m < j :: !Ends(trace[m], trace[j].key) && !Answers(trace[m], trace[j].key)
  {
    LegalPrefix(trace, j);
    var k := trace[j].key;
    i := HeldSince(trace[..j], k);
    assert trace[..j][i..] == trace[i..j];
    forall m | i < m < j
      ensures trace[m] == trace[..j][m]
    {
    }
  }

  /** A request is handed to the agent after its delivery, while it is still wanted, and not handed before. */
  lemma HandsTheirDelivery(trace: seq<Observed>, j: nat) returns (i: nat)
    requires Legal(trace) && j < |trace| && trace[j].Handed?
    ensures i < j && trace[i].Delivered? && trace[i].token == trace[j].token && trace[i].key == trace[j].key
    ensures forall m | i < m < j :: !Ends(trace[m], trace[j].key) && !Hands(trace[m], trace[j].key)
  {
    LegalPrefix(trace, j);
    var k := trace[j].key;
    i := HeldSince(trace[..j], k);
    forall m | i < m < j
      ensures trace[m] == trace[..j][m]
    {
    }
  }

  /** A settled delivery was buffered before; it settles as signed exactly when it was answered. */
  lemma SettlesTheirDelivery(trace: seq<Observed>, j: nat) returns (i: nat)
    requires Legal(trace) && j < |trace| && trace[j].Settled?
    ensures i < j && trace[i].Delivered? && trace[i].token == trace[j].token && trace[i].key == trace[j].key
    ensures forall m | i < m < j :: !Ends(trace[m], trace[j].key)
    ensures !trace[j].outcome.Signed? ==>
              forall m | i < m < j :: !Answers(trace[m], trace[j].key)
  {
    LegalPrefix(trace, j);
    var k := trace[j].key;
    i := HeldSince(trace[..j], k);
    forall m | i < m < j
      ensures trace[m] == trace[..j][m]
    {
    }
  }

  /** No delivery is handed to the agent twice. */
  lemma HandedAtMostOnce(trace: seq<Observed>, i: nat, j: nat)
    requires Legal(trace) && i < j < |trace| && trace[i].Handed? && trace[j].Handed?
    ensures trace[i].token != trace[j].token
  {
    var a := HandsTheirDelivery(trace, i);
    var b := HandsTheirDelivery(trace, j);
    if trace[i].token == trace[j].token {
      if a < b {
        DeliveredOnce(trace, a, b);
      } else if b < a {
        DeliveredOnce(trace, b, a);
      }
      assert false;
    }
  }

  /** A request that still waits was never handed over. */
  lemma WaitingIsUnhanded(trace: seq<Observed>, k: Key)
    requires Legal(trace) && k in After(trace).held && After(trace).held[k].stage.Buffering?
    ensures Handed(After(trace).held[k].token, k) !in trace
  {
    var t := After(trace).held[k].token;
    var i := HeldSince(trace, k);
    if Handed(t, k) in trace {
      var j :| 0 <= j < |trace| && trace[j] == Handed(t, k);
      var d := HandsTheirDelivery(trace, j);
      if d < i {
        DeliveredOnce(trace, d, i);
      } else if i < d {
        DeliveredOnce(trace, i, d);
      } else {
        assert Hands(trace[j], k);
      }
      assert false;
    }
  }

  /** No delivery is answered twice. */
  lemma AnsweredAtMostOnce(trace: seq<Observed>, i: nat, j: nat)
    requires Legal(trace) && i < j < |trace| && trace[i].Responded? && trace[j].Responded?
    ensures trace[i].token != trace[j].token
  {
    var a := AnswersTheirDelivery(trace, i);
    var b := AnswersTheirDelivery(trace, j);
    if trace[i].token == trace[j].token {
      if a < b {
        DeliveredOnce(trace, a, b);
      } else if b < a {
        DeliveredOnce(trace, b, a);
      }
      assert false;
    }
  }

  /** No delivery settles twice, and none is handed over or answered after it settled, cancellation included. */
  lemma SettledIsFinal(trace: seq<Observed>, i: nat, j: nat)
    requires Legal(trace) && i < j < |trace| && trace[i].Settled?
    requires trace[j].Responded? || trace[j].Handed? || trace[j].Settled?
    ensures trace[i].token != trace[j].token
  {
    var a := SettlesTheirDelivery(trace, i);
    var b: nat;
    if trace[j].Responded? {
      b := AnswersTheirDelivery(trace, j);
    } else if trace[j].Handed? {
      b := HandsTheirDelivery(trace, j);
    } else {
      b := SettlesTheirDelivery(trace, j);
    }
    if trace[i].token == trace[j].token {
      if a < b {
        DeliveredOnce(trace, a, b);
      } else if b < a {
        DeliveredOnce(trace, b, a);
      }
      assert false;
    }
  }

  // ----- Sockets -----

  ghost predicate Closes(trace: seq<Observed>, s: SocketId) {
    exists i :: 0 <= i < |trace| && trace[i] == Closed(s)
  }

  lemma ClosesSnoc(trace: seq<Observed>, e: Observed, s: SocketId)
    ensures Closes(trace + [e], s) <==> Closes(trace, s) || e == Closed(s)
  {
    var longer := trace + [e];
    if i :| 0 <= i < |trace| && trace[i] == Closed(s) {
      assert longer[i] == Closed(s);
    }
    assert longer[|trace|] == e;
  }

  lemma SocketStep(c: Conduct, e: Observed, s: SocketId)
    requires Coherent(c) && Allowed(c, e)
    ensures var d := Follow(c, e);
            && (s < d.sockets <==> s < c.sockets || e == Created(s))
            && (e == Closed(s) ==> s < c.sockets && On(c, s) && !On(d, s))
            && (e != Closed(s) && s < d.sockets ==> (On(d, s) <==> On(c, s) || e == Created(s)))
            && (e == Created(s) ==> s >= c.sockets)
  {
  }

  /** Every socket ever created is the present one or has been closed, never both. */
  lemma {:induction false} ClosedUnlessCurrent(trace: seq<Observed>, s: SocketId)
    requires Legal(trace)
    ensures s < After(trace).sockets <==> Created(s) in trace
    ensures s < After(trace).sockets ==> (Closes(trace, s) <==> !On(After(trace), s))
    ensures Closes(trace, s) ==> s < After(trace).sockets
  {
    if trace != [] {
      var n := |trace| - 1;
      var front, last := trace[..n], trace[n];
      ClosedUnlessCurrent(front, s);
      LegalIsCoherent(front);
      SocketStep(After(front), last, s);
      ClosesSnoc(front, last, s);
      assert trace == front + [last];
      hide Closes, Coherent, Allowed, Follow, On, Legal;
    }
  }

  /** Nothing is sent, buffered or answered on a socket after it was closed, and no socket is closed twice. */
  lemma ClosedIsFinal(trace: seq<Observed>, i: nat, j: nat)
    requires Legal(trace) && i < j < |trace| && trace[i].Closed?
    requires trace[j].Sent? || trace[j].Delivered? || trace[j].Responded? || trace[j].Closed? || trace[j].Entered?
    ensures trace[j].socket != trace[i].socket
  {
    LegalPrefix(trace, j);
    ClosedUnlessCurrent(trace[..j], trace[i].socket);
    assert trace[..j][i] == Closed(trace[i].socket);
  }

  // ----- Disconnect notices -----

  ghost function Entries(trace: seq<Observed>): nat {
    if trace == [] then 0
    else var n := |trace| - 1; Entries(trace[..n]) + if trace[n].Entered? then 1 else 0
  }

  ghost function Exits(trace: seq<Observed>): nat {
    if trace == [] then 0
    else var n := |trace| - 1; Exits(trace[..n]) + if trace[n].Left? then 1 else 0
  }

  /** Every exit from the connected state is announced exactly once. */
  lemma {:induction false} DisconnectsMatchConnections(trace: seq<Observed>)
    requires Legal(trace)
    ensures var phase := After(trace).phase;
            Entries(trace) == Exits(trace) +
              if phase.Leaving? || (phase.Live? && phase.connected) then 1 else 0
  {
    if trace != [] {
      DisconnectsMatchConnections(trace[..|trace| - 1]);
    }
  }
}
