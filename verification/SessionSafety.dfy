/**
 What every interleaving of the client session keeps: its conduct is legal, at
 most one socket is live, stale openers cannot act, and no buffered request is
 forgotten.
 */
module SessionSafety {
  import opened Basics
  import opened LinkReplay
  import opened ClientConduct
  import opened SessionModel

  // ----- The buffer -----

  ghost predicate UniqueKeys(p: seq<Buffered>) {
    forall i, j | 0 <= i < j < |p| :: p[i].request.key != p[j].request.key
  }

  function Held(b: Buffered): Holding {
    Holding(b.token, if b.processing then Working else Buffering)
  }

  ghost function HeldOf(p: seq<Buffered>): map<Key, Holding> {
    map k | k in Keys(p) :: Held(p[IndexOf(p, k)])
  }

  lemma IndexOfUnique(p: seq<Buffered>, i: nat)
    requires UniqueKeys(p) && i < |p|
    ensures p[i].request.key in Keys(p) && IndexOf(p, p[i].request.key) == i
    ensures HeldOf(p)[p[i].request.key] == Held(p[i])
  {
  }

  lemma {:induction false} KeysCount(p: seq<Buffered>)
    requires UniqueKeys(p)
    ensures |Keys(p)| == |p|
  {
    if p != [] {
      var n := |p| - 1;
      KeysCount(p[..n]);
      assert p == p[..n] + [p[n]];
      assert Keys(p) == Keys(p[..n]) + {p[n].request.key};
      assert p[n].request.key !in Keys(p[..n]);
    }
  }

  lemma KeysAppend(p: seq<Buffered>, b: Buffered)
    ensures Keys(p + [b]) == Keys(p) + {b.request.key}
  {
  }

  lemma AppendKeepsUnique(p: seq<Buffered>, b: Buffered)
    requires UniqueKeys(p) && b.request.key !in Keys(p)
    ensures UniqueKeys(p + [b])
  {
  }

  lemma HeldAppends(p: seq<Buffered>, b: Buffered)
    requires UniqueKeys(p) && b.request.key !in Keys(p)
    ensures UniqueKeys(p + [b])
    ensures Keys(p + [b]) == Keys(p) + {b.request.key}
    ensures HeldOf(p + [b]) == HeldOf(p)[b.request.key := Held(b)]
  {
    hide UniqueKeys, Keys, Held;
    var q := p + [b];
    KeysAppend(p, b);
    AppendKeepsUnique(p, b);
    IndexOfUnique(q, |p|);
    forall k | k in Keys(p)
      ensures HeldOf(q)[k] == HeldOf(p)[k]
    {
      var i := IndexOf(p, k);
      IndexOfUnique(p, i);
      IndexOfUnique(q, i);
    }
  }

  lemma UpdateKeepsKeys(p: seq<Buffered>, i: nat, b: Buffered)
    requires UniqueKeys(p) && i < |p| && b.request.key == p[i].request.key
    ensures UniqueKeys(p[i := b]) && Keys(p[i := b]) == Keys(p)
  {
    var q := p[i := b];
    forall j | 0 <= j < |p|
      ensures q[j].request.key == p[j].request.key && q[j] in q && p[j] in p
    {
    }
    forall k | k in Keys(p)
      ensures k in Keys(q)
    {
      assert q[IndexOf(p, k)].request.key == k;
    }
    forall k | k in Keys(q)
      ensures k in Keys(p)
    {
      assert p[IndexOf(q, k)].request.key == k;
    }
  }

  lemma HeldUpdates(p: seq<Buffered>, i: nat, b: Buffered)
    requires UniqueKeys(p) && i < |p| && b.request.key == p[i].request.key
    ensures UniqueKeys(p[i := b]) && Keys(p[i := b]) == Keys(p)
    ensures HeldOf(p[i := b]) == HeldOf(p)[b.request.key := Held(b)]
  {
    hide UniqueKeys, Keys, Held;
    var q := p[i := b];
    UpdateKeepsKeys(p, i, b);
    IndexOfUnique(p, i);
    forall k | k in Keys(p)
      ensures HeldOf(q)[k] == if k == b.request.key then Held(b) else HeldOf(p)[k]
    {
      var j := IndexOf(p, k);
      IndexOfUnique(p, j);
      IndexOfUnique(q, j);
    }
  }

  lemma RemoveKeepsUnique(p: seq<Buffered>, i: nat)
    requires UniqueKeys(p) && i < |p|
    ensures UniqueKeys(RemoveAt(p, i))
    ensures forall j | 0 <= j < |p| - 1 :: RemoveAt(p, i)[j].request.key != p[i].request.key
  {
  }

  lemma StillHeld(p: seq<Buffered>, i: nat, m: nat)
    requires UniqueKeys(p) && i < |p| && m < |p| && m != i
    ensures p[m].request.key in Keys(RemoveAt(p, i))
    ensures HeldOf(RemoveAt(p, i))[p[m].request.key] == Held(p[m])
  {
  }

  lemma HeldRemoves(p: seq<Buffered>, i: nat)
    requires UniqueKeys(p) && i < |p|
    ensures UniqueKeys(RemoveAt(p, i))
    ensures Keys(RemoveAt(p, i)) == Keys(p) - {p[i].request.key}
    ensures HeldOf(RemoveAt(p, i)) == HeldOf(p) - {p[i].request.key}
  {
    RemoveKeepsUnique(p, i);
    var q, gone := RemoveAt(p, i), p[i].request.key;
    forall b | b in q
      ensures b in p && b.request.key != gone
    {
    }
    hide UniqueKeys, RemoveAt;
    forall k | k in Keys(p) && k != gone
      ensures k in Keys(q) && HeldOf(q)[k] == HeldOf(p)[k]
    {
      var m := IndexOf(p, k);
      StillHeld(p, i, m);
    }
    assert Keys(q) == Keys(p) - {gone};
  }

  // ----- Invariants -----

  function PhaseOf(socket: Option<SocketId>, status: Status): Phase {
    if socket.None? then Idle else Live(socket.value, status.Connected?)
  }

  ghost predicate Observes(s: Session) {
    && Legal(s.trace)
    && After(s.trace)
       == Conduct(PhaseOf(s.socket, s.snapshot.status), |s.sockets|, s.nextToken, HeldOf(s.pending))
  }

  /** Only the opener of the latest generation may still act, and none may while a socket exists. */
  ghost predicate Generations(openers: set<Opener>, generation: nat, socket: Option<SocketId>) {
    && (forall o <- openers :: o.generation <= generation)
    && (forall o, p | o in openers && p in openers && o.generation == p.generation :: o == p)
    && (socket.Some? ==> forall o <- openers :: o.generation < generation)
  }

  /** Every socket but the current one has been closed by the session. */
  ghost predicate OthersClosed(sockets: seq<Socket>, socket: Option<SocketId>) {
    && (socket.Some? ==> socket.value < |sockets|)
    && forall i: nat | i < |sockets| && socket != Some(i) :: sockets[i].state.Closing?
  }

  /** Suspended work refers to sockets that have been open; a pairing is saved only before connecting. */
  ghost predicate Chain(receiving: Receiving, inbox: seq<(SocketId, Inbound)>, sockets: seq<Socket>,
                        socket: Option<SocketId>, status: Status)
  {
    && (receiving.Free? || (receiving.socket < |sockets| && !sockets[receiving.socket].state.Opening?))
    && (forall i | 0 <= i < |inbox| :: inbox[i].0 < |sockets| && !sockets[inbox[i].0].state.Opening?)
    && (receiving.Saving? && socket == Some(receiving.socket) ==> Waiting(status))
  }

  ghost predicate Placed(handlers: set<Handler>, failures: set<(Handler, string)>, sockets: nat) {
    && (forall h <- handlers :: h.socket < sockets)
    && (forall f <- failures :: f.0.socket < sockets)
  }

  /** A request being processed still has its handler, or the handler's failure is about to be handled. */
  ghost predicate Attended(b: Buffered, socket: SocketId, handlers: set<Handler>, failures: set<(Handler, string)>) {
    var h := Handler(socket, b.request.key, b.token);
    h in handlers || exists cause :: (h, cause) in failures
  }

  /**
   A request is idle only while the agent is locked and it may not go early, or
   the socket is already closing.
   */
  ghost predicate Tended(s: Session, id: SocketId, b: Buffered)
    requires id < |s.sockets|
  {
    if b.processing then Attended(b, id, s.handlers, s.failures)
    else (!s.ready && !s.early(b.request)) || s.sockets[id].state.Closing?
  }

  ghost predicate NoneForgotten(s: Session) {
    s.socket.Some? && s.socket.value < |s.sockets| ==> forall b <- s.pending :: Tended(s, s.socket.value, b)
  }

  ghost predicate Wired(s: Session) {
    && (s.snapshot.status.Connected? ==>
          s.socket.Some? && s.socket.value < |s.sockets| && !s.sockets[s.socket.value].state.Opening?)
    && (s.endpoint.Some? <==> s.clientLabel.Some?)
    && (s.socket.Some? || s.openers != {} ==> s.endpoint.Some?)
    && (s.retryTimer ==> s.active && s.endpoint.Some?)
    && Generations(s.openers, s.generation, s.socket)
    && OthersClosed(s.sockets, s.socket)
    && Chain(s.receiving, s.inbox, s.sockets, s.socket, s.snapshot.status)
    && Placed(s.handlers, s.failures, |s.sockets|)
  }

  /** Every running handler was started for a delivery. */
  ghost predicate Launched(handlers: set<Handler>, trace: seq<Observed>) {
    forall h <- handlers :: Handed(h.token, h.key) in trace
  }

  /** All but the promise to tend to every request. */
  ghost predicate Steady(s: Session) {
    && Launched(s.handlers, s.trace)
    && Observes(s)
    && UniqueKeys(s.pending)
    && s.snapshot.pendingRequests == |s.pending|
    && Wired(s)
  }

  ghost predicate Sound(s: Session) {
    Steady(s) && NoneForgotten(s)
  }

  lemma NewSessionIsSound(early: Request -> bool)
    ensures Sound(NewSession(early))
  {
  }

  lemma BufferedOnlyConnected(s: Session)
    requires Observes(s)
    ensures s.pending != [] ==> s.socket.Some? && s.snapshot.status.Connected?
    ensures UniqueKeys(s.pending) ==> |s.pending| <= MAX_PENDING_REQUESTS
  {
    LegalIsCoherent(s.trace);
    if s.pending != [] {
      assert s.pending[0].request.key in HeldOf(s.pending);
    }
    if UniqueKeys(s.pending) {
      KeysCount(s.pending);
      assert HeldOf(s.pending).Keys == Keys(s.pending);
      assert |HeldOf(s.pending)| == |HeldOf(s.pending).Keys|;
    }
  }

  // ----- Closing -----

  lemma LegalFarewell(trace: seq<Observed>, id: SocketId)
    requires Legal(trace) && On(After(trace), id)
    ensures var t := trace + Farewell(id, After(trace).phase.connected);
            Legal(t) && After(t) == After(trace).(phase := Idle, held := map[])
  {
    Extend(trace, Closed(id));
    if After(trace).phase.connected {
      Extend(trace + [Closed(id)], Left);
      assert trace + [Closed(id)] + [Left] == trace + [Closed(id), Left];
    }
  }

  /** The current socket is given up: buffer forgotten, socket closed, exit announced. */
  ghost function Release(s: Session): Session
    requires s.socket.Some? && s.socket.value < |s.sockets|
  {
    Shut(Clear(s.(socket := None)), s.socket.value, s.snapshot.status.Connected?)
  }

  /** After giving up the socket and publishing a status other than connected, all is sound. */
  lemma ReleaseIsSound(s: Session, status: Status, error: Option<string>)
    requires Sound(s) && s.socket.Some? && !status.Connected?
    ensures Sound(Publish(Release(s), status, error))
  {
    ReleaseIsObserved(s, status, error);
    hide Observes;
  }

  lemma ReleaseIsObserved(s: Session, status: Status, error: Option<string>)
    requires Observes(s) && s.socket.Some? && s.socket.value < |s.sockets| && !status.Connected?
    ensures Observes(Publish(Release(s), status, error))
  {
    hide Legal, After, HeldOf;
    LegalFarewell(s.trace, s.socket.value);
    NothingHeld();
  }

  lemma NothingHeld()
    ensures HeldOf([]) == map[]
  {
  }

  /** The same, with the openers made stale. */
  lemma CloseSocketIsSound(s: Session, status: Status, error: Option<string>)
    requires Sound(s) && !status.Connected?
    ensures Sound(Publish(CloseSocket(s), status, error))
    ensures !Pursued(s.openers, s.generation + 1)
  {
    hide Legal, After, HeldOf;
    if s.socket.Some? {
      ReleaseIsSound(s, status, error);
    } else {
      BufferedOnlyConnected(s);
    }
  }

  /** The opener of the latest generation has yet to resume. */
  ghost predicate Pursued(openers: set<Opener>, generation: nat) {
    exists o :: o in openers && o.generation == generation
  }

  lemma RetryIsFree(s: Session, retry: bool)
    requires Sound(s) && (retry ==> s.active && s.endpoint.Some?)
    ensures Sound(s.(retryTimer := retry))
  {
  }

  lemma FinishIsSound(s: Session, id: SocketId, status: Status, error: string)
    requires Sound(s) && id < |s.sockets| && !status.Connected?
    ensures Sound(Finish(s, id, status, error))
  {
    if s.socket == Some(id) {
      assert Finish(s, id, status, error) == Publish(Release(s), status, Some(error)).(retryTimer := false);
      hide Sound, Release, Publish, Finish;
      ReleaseIsSound(s, status, Some(error));
      RetryIsFree(Publish(Release(s), status, Some(error)), false);
    }
  }

  lemma LostIsSound(s: Session, id: SocketId)
    requires Sound(s) && id < |s.sockets|
    ensures Sound(ConnectionLost(s, id))
  {
    if s.socket == Some(id) {
      ReleaseIsSound(s, Reconnecting, None);
      var t := Publish(Release(s), Reconnecting, None);
      assert s.retryTimer ==> t.active && t.endpoint.Some?;
      assert ConnectionLost(s, id) == ScheduleRetry(t);
      hide Sound;
      RetryIsFree(t, s.retryTimer || (s.active && s.endpoint.Some?));
    }
  }

  lemma FailIsSound(s: Session, id: SocketId, cause: string)
    requires Sound(s) && id < |s.sockets|
    ensures Sound(Fail(s, id, cause))
  {
    hide Sound;
    if s.sockets[id].state.Open? {
      FinishIsSound(s, id, Errored, cause);
    } else {
      LostIsSound(s, id);
    }
  }

  // ----- Lifecycle -----

  lemma AttemptIsSound(s: Session)
    requires Sound(s)
    ensures Sound(Attempt(s))
  {
  }

  /** Conduct concerns only the sockets, the buffer, the status and the history. */
  lemma ObservesIsLocal(s: Session, t: Session)
    requires Observes(s) && t.trace == s.trace && t.socket == s.socket && t.pending == s.pending
    requires t.nextToken == s.nextToken && |t.sockets| == |s.sockets|
    requires t.socket.Some? ==> (t.snapshot.status.Connected? <==> s.snapshot.status.Connected?)
    ensures Observes(t)
  {
  }

  /** Wiring does not concern the buffer. */
  lemma WiredIsLocal(s: Session, t: Session)
    requires Wired(s) && Placed(t.handlers, t.failures, |s.sockets|)
    requires t.socket == s.socket && t.sockets == s.sockets && t.snapshot.status == s.snapshot.status
    requires t.endpoint == s.endpoint && t.clientLabel == s.clientLabel && t.active == s.active
    requires t.retryTimer == s.retryTimer && t.openers == s.openers && t.generation == s.generation
    requires t.receiving == s.receiving && t.inbox == s.inbox
    ensures Wired(t)
  {
  }

  ghost function Wanted(s: Session, endpoint: string, clientLabel: string): Session {
    s.(endpoint := Some(endpoint), clientLabel := Some(clientLabel), active := true, retryTimer := false)
  }

  lemma ConnectParts(s: Session, endpoint: string, clientLabel: string)
    requires Sound(s)
    ensures Grounds(s) && Sound(Publish(CloseSocket(Wanted(s, endpoint, clientLabel)), Connecting, None))
  {
    var wanted := Wanted(s, endpoint, clientLabel);
    assert Grounds(s) && Sound(wanted) by {
      hide UniqueKeys, Generations, Chain, Placed, Attended, HeldOf;
    }
    hide Sound, CloseSocket;
    CloseSocketIsSound(wanted, Connecting, None);
  }

  ghost predicate Grounds(s: Session) {
    s.socket.Some? ==> s.socket.value < |s.sockets|
  }

  lemma ConnectIsSound(s: Session, endpoint: string, clientLabel: string)
    requires Sound(s)
    ensures Sound(Connect(s, endpoint, clientLabel))
  {
    hide Sound, CloseSocket, Attempt;
    ConnectParts(s, endpoint, clientLabel);
    AttemptIsSound(Publish(CloseSocket(Wanted(s, endpoint, clientLabel)), Connecting, None));
  }

  lemma ReactivateIsSound(s: Session)
    requires Sound(s) && s.socket.None?
    ensures Sound(Publish(s.(active := true, retryTimer := false), Reconnecting, None))
  {
  }

  lemma SetActiveIsSound(s: Session, active: bool)
    requires Sound(s)
    ensures Sound(SetActive(s, active))
  {
    var t := s.(active := active, retryTimer := false);
    assert Sound(t) by {
      hide UniqueKeys, Generations, OthersClosed, Chain, Placed, Attended, HeldOf;
    }
    if s.snapshot.status.Rejected? || s.snapshot.status.Errored? {
    } else if !active {
      hide Sound, CloseSocket;
      CloseSocketIsSound(t, Reconnecting, None);
    } else if s.socket.None? {
      var u := Publish(t, Reconnecting, None);
      hide Sound, Attempt;
      ReactivateIsSound(s);
      AttemptIsSound(u);
    }
  }

  lemma OpenFailedIsSound(s: Session, o: Opener, cause: string)
    requires Sound(s) && (o.generation == s.generation ==> s.socket.None?)
    ensures Sound(OpenFailed(s, o, cause))
  {
  }

  lemma OpenLoadedIsSound(s: Session, o: Opener, loaded: Result<Option<PairingRecord>, string>, created: Option<string>)
    requires Sound(s) && o in s.openers
    ensures Sound(OpenLoaded(s, o, loaded, created))
  {
    var t := s.(openers := s.openers - {o});
    assert Sound(t) by {
      hide UniqueKeys, OthersClosed, Chain, Placed, Attended, HeldOf;
    }
    if loaded.Failure? {
      OpenFailedIsSound(t, o, loaded.error);
    } else if o.generation != t.generation || !t.active || t.socket.Some? {
    } else if created.Some? {
      OpenFailedIsSound(t, o, created.value);
    } else {
      AdoptIsSound(t, loaded.value, o.clientLabel);
    }
  }

  lemma AdoptIsSound(t: Session, pairing: Option<PairingRecord>, clientLabel: string)
    requires Sound(t) && t.socket.None? && t.endpoint.Some?
    requires forall p <- t.openers :: p.generation < t.generation
    ensures Sound(Adopt(t, pairing, clientLabel))
  {
    BufferedOnlyConnected(t);
    Extend(t.trace, Created(|t.sockets|));
    hide Legal, After, HeldOf, UniqueKeys;
  }

  lemma ForgetPairingIsSound(s: Session, endpoint: string)
    requires Sound(s)
    ensures Sound(ForgetPairing(s, endpoint))
  {
    var t := s.(retryTimer := false);
    RetryIsFree(s, false);
    CloseSocketIsSound(t, Reconnecting, None);
    var u := Publish(CloseSocket(t), Reconnecting, None);
    hide UniqueKeys, Generations, OthersClosed, Chain, Placed, Attended, HeldOf, CloseSocket;
    ObservesIsLocal(u, ForgetPairing(s, endpoint));
  }

  lemma ForgetsAreFree(s: Session, forgets: multiset<string>)
    requires Sound(s)
    ensures Sound(s.(forgets := forgets))
  {
  }

  lemma ForgetDoneIsSound(s: Session, endpoint: string, deleted: bool)
    requires Sound(s)
    ensures Sound(ForgetDone(s, endpoint, deleted))
  {
  }

  lemma RetryFiresIsSound(s: Session)
    requires Sound(s)
    ensures Sound(RetryFires(s))
  {
    hide Sound, Attempt;
    RetryIsFree(s, false);
    AttemptIsSound(s.(retryTimer := false));
  }

  // ----- Sockets -----

  lemma SeeIsSound(s: Session, e: Observed)
    requires Sound(s) && e.Sent? && s.socket == Some(e.socket)
    ensures Sound(See(s, [e]))
  {
  }

  lemma SocketOpenedIsSound(s: Session, id: SocketId)
    requires Sound(s) && id < |s.sockets| && s.sockets[id].state.Opening?
    ensures Sound(SocketOpened(s, id))
  {
  }

  /** Only the current socket can still be opening. */
  lemma SocketMayOpen(s: Session, id: SocketId)
    requires Sound(s) && id < |s.sockets| && s.sockets[id].state.Opening?
    ensures s.socket == Some(id) && Sound(s.(sockets := s.sockets[id := s.sockets[id].(state := Open)]))
  {
    BufferedOnlyConnected(s);
    hide UniqueKeys, Generations, Attended, HeldOf, Placed;
  }

  lemma SocketDropsIsSound(s: Session, id: SocketId)
    requires Sound(s) && id < |s.sockets|
    ensures Sound(SocketDrops(s, id))
  {
    hide UniqueKeys, Generations, Attended, HeldOf, Placed;
    ObservesIsLocal(s, SocketDrops(s, id));
  }

  lemma MessageArrivesIsSound(s: Session, id: SocketId, data: Inbound)
    requires Sound(s) && id < |s.sockets| && s.sockets[id].state.Open?
    ensures Sound(MessageArrives(s, id, data))
  {
  }

  // ----- Requests -----

  /** The requests being processed are attended, and the first `n` requests are tended to. */
  ghost predicate TendedUpTo(s: Session, id: SocketId, n: nat) {
    && s.socket == Some(id) && id < |s.sockets| && n <= |s.pending|
    && (forall i | 0 <= i < |s.pending| && (i < n || s.pending[i].processing) :: Tended(s, id, s.pending[i]))
  }

  /** Processing an entry changes neither the other entries nor what is tended. */
  lemma TryProcessTends(s: Session, id: SocketId, i: nat)
    requires TendedUpTo(s, id, i) && i < |s.pending|
    ensures TendedUpTo(TryProcess(s, id, i), id, i + 1)
  {
  }

  lemma TryProcessKeeps(s: Session, id: SocketId, i: nat)
    requires i < |s.pending|
    ensures var t := TryProcess(s, id, i);
            && |t.pending| == |s.pending| && t.socket == s.socket && |t.sockets| == |s.sockets|
            && (forall j | 0 <= j < |s.pending| && j != i :: t.pending[j] == s.pending[j])
            && t.snapshot == s.snapshot && Keys(t.pending) == Keys(s.pending)
  {
    var t := TryProcess(s, id, i);
    assert forall j | 0 <= j < |s.pending| :: t.pending[j].request == s.pending[j].request;
    forall k | k in Keys(s.pending)
      ensures k in Keys(t.pending)
    {
      var j := IndexOf(s.pending, k);
      assert t.pending[j] in t.pending;
    }
    forall k | k in Keys(t.pending)
      ensures k in Keys(s.pending)
    {
      var j := IndexOf(t.pending, k);
      assert s.pending[j] in s.pending;
    }
  }

  lemma HandingIsObserved(s: Session, i: nat)
    requires Observes(s) && UniqueKeys(s.pending) && i < |s.pending| && !s.pending[i].processing
    ensures var b := s.pending[i];
            Observes(s.(pending := s.pending[i := b.(processing := true)],
                        trace := s.trace + [Handed(b.token, b.request.key)]))
  {
    var b := s.pending[i];
    IndexOfUnique(s.pending, i);
    HeldUpdates(s.pending, i, b.(processing := true));
    hide UniqueKeys, HeldOf, Legal, After;
    Extend(s.trace, Handed(b.token, b.request.key));
  }

  lemma TryProcessIsSteady(s: Session, id: SocketId, i: nat)
    requires Steady(s) && s.socket == Some(id) && i < |s.pending|
    ensures Steady(TryProcess(s, id, i))
  {
    hide Observes, UniqueKeys, Wired, Placed, HeldOf, Keys;
    var b := s.pending[i];
    if !b.processing && (s.ready || s.early(b.request)) {
      HandingIsObserved(s, i);
      HeldUpdates(s.pending, i, b.(processing := true));
      var t := TryProcess(s, id, i);
      WiredPlaces(s);
      PlacedAdds(s.handlers, s.failures, |s.sockets|, Handler(id, b.request.key, b.token));
      WiredIsLocal(s, t);
      ObservesIsLocal(s.(pending := t.pending, trace := t.trace), t);
    }
  }

  lemma TendedOnSocket(s: Session, id: SocketId, n: nat)
    requires TendedUpTo(s, id, n)
    ensures s.socket == Some(id) && id < |s.sockets|
  {
  }

  lemma {:induction false} DrainIsSteady(s: Session, id: SocketId, n: nat)
    requires Steady(s) && TendedUpTo(s, id, 0) && n <= |s.pending|
    ensures Steady(Drain(s, id, n)) && TendedUpTo(Drain(s, id, n), id, n)
    ensures Drain(s, id, n).snapshot == s.snapshot && Keys(Drain(s, id, n).pending) == Keys(s.pending)
  {
    hide Steady, TendedUpTo, TryProcess, Keys;
    if n > 0 {
      DrainIsSteady(s, id, n - 1);
      var t := Drain(s, id, n - 1);
      TendedOnSocket(t, id, n - 1);
      TryProcessIsSteady(t, id, n - 1);
      TryProcessTends(t, id, n - 1);
      TryProcessKeeps(t, id, n - 1);
    }
  }

  lemma TendedIsSound(s: Session, id: SocketId)
    requires Steady(s) && TendedUpTo(s, id, |s.pending|)
    ensures Sound(s)
  {
  }

  lemma ReceiveIsSound(s: Session, id: SocketId, request: Request)
    requires Sound(s) && s.socket == Some(id) && s.snapshot.status.Connected?
    ensures Sound(Receive(s, id, request))
    ensures Keys(Receive(s, id, request).pending) ==
              match Enqueue(Keys(s.pending), request.key)
              case Success(keys) => keys
              case Failure(_) => Keys(s.pending)
  {
    hide Sound, Steady, TendedUpTo, TryProcess, Keys, Admit;
    ConnectedIsOpened(s);
    AdmitGrows(s, id, request);
    if Enqueue(Keys(s.pending), request.key).Success? {
      var n, t := |s.pending|, Admit(s, id, request);
      AdmitIsSteady(s, id, request);
      TendedOnSocket(t, id, n);
      KeysAppend(s.pending, Buffered(request, s.nextToken, false));
      TryProcessIsSteady(t, id, n);
      TryProcessTends(t, id, n);
      TryProcessKeeps(t, id, n);
      TendedIsSound(TryProcess(t, id, n), id);
    } else {
      ThrowIsSound(s, id, FaultText(Enqueue(Keys(s.pending), request.key).error));
    }
  }

  lemma ConnectedIsOpened(s: Session)
    requires Sound(s) && s.snapshot.status.Connected?
    ensures s.socket.Some? && s.socket.value < |s.sockets| && !s.sockets[s.socket.value].state.Opening?
  {
  }

  lemma AdmitIsSteady(s: Session, id: SocketId, request: Request)
    requires Sound(s) && s.socket == Some(id) && s.snapshot.status.Connected?
    requires request.key !in Keys(s.pending) && |Keys(s.pending)| < MAX_PENDING_REQUESTS
    ensures Steady(Admit(s, id, request)) && TendedUpTo(Admit(s, id, request), id, |s.pending|)
  {
    var t := Admit(s, id, request);
    assert TendedUpTo(t, id, |s.pending|) by {
      hide Observes, UniqueKeys, Generations, Chain, Placed, Attended, Keys;
      assert forall i | 0 <= i < |s.pending| :: t.pending[i] == s.pending[i] && s.pending[i] in s.pending;
    }
    hide Observes, UniqueKeys, Wired, Placed, Keys;
    DeliveryIsObserved(s, id, request);
    AppendKeepsUnique(s.pending, Buffered(request, s.nextToken, false));
    WiredPlaces(s);
    WiredIsLocal(s, t);
  }

  lemma WiredPlaces(s: Session)
    requires Wired(s)
    ensures Placed(s.handlers, s.failures, |s.sockets|)
    ensures s.socket.Some? ==> s.socket.value < |s.sockets|
  {
  }

  lemma PlacedAdds(handlers: set<Handler>, failures: set<(Handler, string)>, sockets: nat, h: Handler)
    requires Placed(handlers, failures, sockets) && h.socket < sockets
    ensures Placed(handlers + {h}, failures, sockets)
  {
  }

  lemma AdmitGrows(s: Session, id: SocketId, request: Request)
    ensures Admit(s, id, request).pending == s.pending + [Buffered(request, s.nextToken, false)]
  {
  }

  lemma DeliveryIsObserved(s: Session, id: SocketId, request: Request)
    requires Observes(s) && UniqueKeys(s.pending) && s.socket == Some(id) && s.snapshot.status.Connected?
    requires request.key !in Keys(s.pending) && |Keys(s.pending)| < MAX_PENDING_REQUESTS
    ensures Observes(Admit(s, id, request))
  {
    HeldSize(s.pending);
    HeldAppends(s.pending, Buffered(request, s.nextToken, false));
    hide UniqueKeys, HeldOf, Legal, After, Keys;
    Extend(s.trace, Delivered(id, s.nextToken, request.key));
  }

  lemma HeldSize(p: seq<Buffered>)
    ensures HeldOf(p).Keys == Keys(p) && |HeldOf(p)| == |Keys(p)|
  {
  }

  lemma ThrowIsSound(s: Session, id: SocketId, cause: string)
    requires Sound(s) && s.socket == Some(id) && !s.sockets[id].state.Opening?
    ensures Sound(Throw(s, id, cause))
  {
  }

  lemma SettlementIsObserved(s: Session, i: nat, outcome: Outcome, answer: seq<Observed>)
    requires Observes(s) && UniqueKeys(s.pending) && i < |s.pending|
    requires var b := s.pending[i];
             if outcome.Signed?
             then && s.socket.Some? && s.snapshot.status.Connected? && b.processing && |answer| == 1 && answer[0].Responded?
                  && answer == [Responded(s.socket.value, b.token, b.request.key, answer[0].packet)]
             else answer == []
    ensures Observes(Settle(See(s, answer), i, outcome))
  {
    var b := s.pending[i];
    IndexOfUnique(s.pending, i);
    HeldRemoves(s.pending, i);
    var settled := Settled(b.token, b.request.key, outcome);
    hide UniqueKeys, Legal, After, RemoveAt;
    if outcome.Signed? {
      Extend(s.trace, answer[0]);
      Extend(s.trace + answer, settled);
      var held := HeldOf(s.pending);
      assert held[b.request.key := Holding(b.token, Answered)] - {b.request.key} == held - {b.request.key};
    } else {
      assert s.trace + answer == s.trace;
      Extend(s.trace, settled);
    }
  }

  lemma SettleIsSound(s: Session, i: nat, outcome: Outcome, answer: seq<Observed>)
    requires Sound(s) && i < |s.pending| && Observes(Settle(See(s, answer), i, outcome))
    ensures Sound(Settle(See(s, answer), i, outcome))
    ensures Keys(Settle(See(s, answer), i, outcome).pending) == Keys(s.pending) - {s.pending[i].request.key}
  {
    hide Observes, UniqueKeys, Wired, HeldOf, Placed, Keys, Attended;
    var t := Settle(See(s, answer), i, outcome);
    HeldRemoves(s.pending, i);
    forall b | b in t.pending
      ensures b in s.pending
    {
    }
    WiredPlaces(s);
    WiredIsLocal(s, t);
    hide RemoveAt;
  }

  lemma SoundParts(s: Session)
    requires Sound(s)
    ensures Observes(s) && UniqueKeys(s.pending)
  {
  }

  lemma CancelIsSound(s: Session, key: Key, now: int)
    requires Sound(s)
    ensures Sound(Cancel(s, key, now))
    ensures Keys(Cancel(s, key, now).pending) == Keys(s.pending) - {key}
  {
    hide Steady, NoneForgotten, Settle, Observes, UniqueKeys, Keys;
    var i := IndexOf(s.pending, key);
    if i < |s.pending| {
      SoundParts(s);
      var outcome := if now >= s.pending[i].request.deadline then Expired else Canceled;
      SettlementIsObserved(s, i, outcome, []);
      assert See(s, []) == s;
      SettleIsSound(s, i, outcome, []);
    }
  }

  /** The handler of an entry that is no longer its buffered entry attends to nothing. */
  lemma HandlerGone(s: Session, h: Handler)
    requires Sound(s) && h in s.handlers
    requires var i := IndexOf(s.pending, h.key);
             s.socket != Some(h.socket) || i == |s.pending| || s.pending[i].token != h.token
    ensures Sound(s.(handlers := s.handlers - {h}))
  {
  }

  lemma HandlerThrows(s: Session, h: Handler, cause: string)
    requires Sound(s) && h in s.handlers
    ensures Sound(s.(handlers := s.handlers - {h}, failures := s.failures + {(h, cause)}))
  {
  }

  lemma HandlerAnswers(s: Session, h: Handler, i: nat, packet: bytes)
    requires Sound(s) && h in s.handlers && CanSend(s, h.socket)
    requires i < |s.pending| && s.pending[i].request.key == h.key && s.pending[i].token == h.token
    requires i == IndexOf(s.pending, h.key)
    ensures Sound(HandlerDone(s, h, Success(packet)))
    ensures Keys(HandlerDone(s, h, Success(packet)).pending) == Keys(s.pending) - {h.key}
  {
    AnswerableIsWorking(s, h, i);
    hide Steady, NoneForgotten, Observes, RemoveAt, UniqueKeys, Keys, Settle;
    SoundParts(s);
    var answer := [Responded(h.socket, h.token, h.key, packet)];
    SettlementIsObserved(s, i, Signed, answer);
    SettleIsSound(s, i, Signed, answer);
    SettleKeepsHandlers(s, h, i, answer);
    HandlerGone(Settle(See(s, answer), i, Signed), h);
  }

  lemma AnswerableIsWorking(s: Session, h: Handler, i: nat)
    requires Sound(s) && h in s.handlers && s.socket == Some(h.socket)
    requires i < |s.pending| && s.pending[i].request.key == h.key && s.pending[i].token == h.token
    ensures s.pending[i].processing && s.snapshot.status.Connected?
  {
    BufferedOnlyConnected(s);
    IndexOfUnique(s.pending, i);
    hide Legal, After, Wired, NoneForgotten, UniqueKeys;
    if !s.pending[i].processing {
      WaitingIsUnhanded(s.trace, h.key);
      assert false;
    }
  }

  lemma SettleKeepsHandlers(s: Session, h: Handler, i: nat, answer: seq<Observed>)
    requires i < |s.pending|
    ensures var t := See(s.(handlers := s.handlers - {h}), answer);
            var u := Settle(See(s, answer), i, Signed);
            Settle(t, i, Signed) == u.(handlers := u.handlers - {h}) && u.handlers == s.handlers
  {
  }

  lemma HandlerDoneIsSound(s: Session, h: Handler, result: Result<bytes, string>)
    requires Sound(s) && h in s.handlers
    ensures Sound(HandlerDone(s, h, result))
  {
    hide Sound, Settle, Keys;
    var i := IndexOf(s.pending, h.key);
    if result.Failure? {
      HandlerThrows(s, h, result.error);
    } else if s.socket != Some(h.socket) || i == |s.pending| || s.pending[i].token != h.token {
      HandlerGone(s, h);
    } else if !CanSend(s, h.socket) {
      HandlerThrows(s, h, NOT_OPEN);
    } else {
      HandlerAnswers(s, h, i, result.value);
    }
  }

  lemma FailuresArePlaced(s: Session, f: (Handler, string))
    requires Sound(s) && f in s.failures
    ensures f.0.socket < |s.sockets|
  {
  }

  /** Handling a handler's failure gives up its socket, so that nothing it attended to remains. */
  lemma HandlerFailsIsSound(s: Session, f: (Handler, string))
    requires Sound(s) && f in s.failures && f.0.socket < |s.sockets|
    ensures Sound(HandlerFails(s, f))
  {
    var id, t := f.0.socket, Fail(s, f.0.socket, f.1);
    FailIsSound(s, id, f.1);
    if s.socket == Some(id) {
      FailLeaves(s, id, f.1);
      hide Sound, Fail;
      FailureGone(t, f);
    } else {
      hide Sound, Fail;
      FailureGone(s, f);
    }
  }

  lemma FailLeaves(s: Session, id: SocketId, cause: string)
    requires id < |s.sockets| && s.socket == Some(id)
    ensures Fail(s, id, cause).socket.None?
  {
  }

  lemma FailureGone(s: Session, f: (Handler, string))
    requires Sound(s) && s.socket != Some(f.0.socket)
    ensures Sound(s.(failures := s.failures - {f}))
  {
  }

  // ----- Messages -----

  lemma EnterIsSteady(s: Session, id: SocketId, w: Welcome)
    requires Sound(s) && s.socket == Some(id) && Waiting(s.snapshot.status) && !s.sockets[id].state.Opening?
    requires s.receiving.Free?
    ensures Sound(Welcomed(s, id, w)) && Welcomed(s, id, w).pending == []
  {
    BufferedOnlyConnected(s);
    hide UniqueKeys, Generations, OthersClosed, HeldOf, Placed, Legal, After;
    Extend(s.trace, Entered(id));
  }

  lemma EnterIsSound(s: Session, id: SocketId, w: Welcome)
    requires Sound(s) && s.socket == Some(id) && Waiting(s.snapshot.status) && !s.sockets[id].state.Opening?
    requires s.receiving.Free?
    ensures Sound(Enter(s, id, w))
  {
    hide Sound;
    EnterIsSteady(s, id, w);
    var t := Welcomed(s, id, w);
    var identities, report := Sent(id, SetIdentities(t.identities)), Sent(id, Report(t.ready));
    if CanSend(t, id) {
      SeeIsSound(t, identities);
      SeeIsSound(See(t, [identities]), report);
      assert See(See(t, [identities]), [report]) == See(t, [identities, report]);
    } else {
      ThrowIsSound(t, id, NOT_OPEN);
    }
  }

  lemma HandshakeIsSound(s: Session, id: SocketId, m: ServerMessage, now: int)
    requires Sound(s) && s.socket == Some(id) && id < |s.sockets| && Waiting(s.snapshot.status)
    requires !s.sockets[id].state.Opening? && s.receiving.Free?
    ensures Sound(Handshake(s, id, m, now))
  {
    match m
    case RejectedByServer => FinishIsSound(s, id, Rejected, REJECTED);
    case Paired(_, _, _) =>
      if s.pairing.Some? {
        ThrowIsSound(s, id, ALREADY_PAIRED);
      } else {
        hide UniqueKeys, Generations, OthersClosed, HeldOf, Placed, Attended, Launched;
        ObservesIsLocal(s, Handshake(s, id, m, now));
      }
    case Authenticated(w) =>
      hide Sound, Enter;
      ThrowIsSound(s, id, WRONG_SERVER);
      EnterIsSound(s, id, w);
    case _ => ThrowIsSound(s, id, NO_HANDSHAKE);
  }

  lemma DispatchIsSound(s: Session, id: SocketId, m: ServerMessage, now: int)
    requires Sound(s) && s.socket == Some(id) && s.snapshot.status.Connected?
    ensures Sound(Dispatch(s, id, m, now))
  {
    ConnectedIsOpened(s);
    hide Sound, Receive, Cancel;
    match m
    case Ping =>
      ThrowIsSound(s, id, NOT_OPEN);
      SeeIsSound(s, Sent(id, Pong));
    case AgentRequest(request) => ReceiveIsSound(s, id, request);
    case CancelRequest(key) => CancelIsSound(s, key, now);
    case _ => ThrowIsSound(s, id, LATE_HANDSHAKE);
  }

  lemma InboxIsFree(s: Session)
    requires Sound(s) && s.inbox != []
    ensures Sound(s.(inbox := s.inbox[1..]))
    ensures s.inbox[0].0 < |s.sockets| && !s.sockets[s.inbox[0].0].state.Opening?
  {
  }

  lemma ReceiveNextIsSound(s: Session, now: int)
    requires Sound(s) && s.inbox != [] && s.receiving.Free?
    ensures s.inbox[0].0 < |s.sockets| && Sound(ReceiveNext(s, now))
  {
    var id, data := s.inbox[0].0, s.inbox[0].1;
    var t := s.(inbox := s.inbox[1..]);
    InboxIsFree(s);
    hide Sound, Handshake, Dispatch;
    if t.socket == Some(id) {
      match data
      case NotBinary => ThrowIsSound(t, id, NOT_BINARY);
      case Undecodable(error) => ThrowIsSound(t, id, error);
      case Decoded(m) =>
        if Waiting(t.snapshot.status) {
          HandshakeIsSound(t, id, m, now);
        } else if t.snapshot.status.Connected? {
          DispatchIsSound(t, id, m, now);
        }
    }
  }

  lemma PairingSavedIsSound(s: Session, failed: Option<string>)
    requires Sound(s) && s.receiving.Saving?
    ensures Sound(PairingSaved(s, failed))
  {
    var id := s.receiving.socket;
    var t := s.(receiving := Free);
    assert Sound(t) && Sound(t.(pairing := Some(s.receiving.record))) by {
      hide Observes, UniqueKeys, Generations, OthersClosed, HeldOf, Placed, Attended, Launched;
      ObservesIsLocal(s, t);
      ObservesIsLocal(s, t.(pairing := Some(s.receiving.record)));
    }
    if failed.Some? {
      hide Observes, UniqueKeys, Generations, OthersClosed, HeldOf, Placed, Attended, Launched;
      ObservesIsLocal(s, PairingSaved(s, failed));
    } else if t.socket == Some(id) {
      hide Enter;
      EnterIsSound(t.(pairing := Some(s.receiving.record)), id, s.receiving.welcome);
    }
  }

  lemma ReceiveFailsIsSound(s: Session)
    requires Sound(s) && s.receiving.Failing?
    ensures s.receiving.socket < |s.sockets| && Sound(ReceiveFails(s))
  {
    ReceivingIsFree(s);
    hide Sound;
    FailIsSound(s.(receiving := Free), s.receiving.socket, s.receiving.cause);
  }

  lemma ReceivingIsFree(s: Session)
    requires Sound(s) && !s.receiving.Free?
    ensures Sound(s.(receiving := Free)) && s.receiving.socket < |s.sockets|
  {
  }

  lemma {:induction false} DrainKeepsTransport(s: Session, id: SocketId, n: nat)
    requires n <= |s.pending|
    ensures var t := Drain(s, id, n); t.socket == s.socket && t.sockets == s.sockets && t.snapshot == s.snapshot
  {
    if n > 0 {
      DrainKeepsTransport(s, id, n - 1);
    }
  }

  // ----- The agent's side -----

  lemma TellIsSound(s: Session, m: Message)
    requires Sound(s)
    ensures Sound(Tell(s, m))
  {
  }

  lemma ReplaceIdentitiesIsSound(s: Session, identities: seq<(bytes, string)>)
    requires Sound(s)
    ensures Sound(ReplaceIdentities(s, identities))
  {
    var t := s.(identities := identities);
    assert Sound(t) by {
      hide UniqueKeys, Generations, OthersClosed, Chain, HeldOf, Placed, Attended, Launched;
    }
    TellIsSound(t, SetIdentities(identities));
  }

  lemma SetReadyIsSound(s: Session, ready: bool)
    requires Sound(s)
    ensures Sound(SetReady(s, ready))
  {
    var t := s.(ready := ready);
    BufferedOnlyConnected(s);
    if t.socket.None? || !t.snapshot.status.Connected? || !CanSend(t, t.socket.value) {
      hide Observes, UniqueKeys, Generations, OthersClosed, Chain, HeldOf, Placed, Attended, Launched;
      ObservesIsLocal(s, t);
    } else {
      ReadyIsSteady(s, ready);
      var id, u := t.socket.value, See(t, [Sent(t.socket.value, Report(ready))]);
      if ready {
        DrainIsSteady(u, id, |u.pending|);
        TendedIsSound(Drain(u, id, |u.pending|), id);
      }
    }
  }

  lemma ReadyIsSteady(s: Session, ready: bool)
    requires Sound(s) && s.socket.Some?
    ensures var u := See(s.(ready := ready), [Sent(s.socket.value, Report(ready))]);
            && Steady(u) && TendedUpTo(u, s.socket.value, 0)
            && (!ready ==> Sound(u))
  {
    var e := Sent(s.socket.value, Report(ready));
    SeeIsSound(s, e);
    WiredPlaces(s);
    var id, t, u := s.socket.value, See(s, [e]), See(s.(ready := ready), [e]);
    assert Steady(u) by {
      hide UniqueKeys, Generations, OthersClosed, Chain, HeldOf, Placed, Launched;
      ObservesIsLocal(t, u);
    }
    hide Steady, Attended;
    assert forall i | 0 <= i < |u.pending| :: u.pending[i] in s.pending && Tended(s, id, u.pending[i]);
  }
}
