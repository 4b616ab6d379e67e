/**
 Whether the session keeps trying.  While it is active, has an endpoint and
 says it is connecting or reconnecting, something is on its way to a socket --
 except after starting to delete another endpoint's pairing, or failing to
 delete its own.
 */
module SessionEffort {
  import opened Basics
  import opened LinkReplay
  import opened ClientConduct
  import opened SessionModel
  import opened SessionSafety
  import opened SessionRuns

  /** The pairing of the session's own endpoint is being deleted, after which it connects anew. */
  ghost predicate Renewing(s: Session) {
    s.endpoint.Some? && s.endpoint.value in s.forgets
  }

  ghost predicate Scheduled(s: Session) {
    s.socket.Some? || Pursued(s.openers, s.generation) || s.retryTimer || Renewing(s)
  }

  ghost predicate WantsConnection(s: Session) {
    Waiting(s.snapshot.status) && s.active && s.endpoint.Some?
  }

  ghost predicate Trying(s: Session) {
    WantsConnection(s) ==> Scheduled(s)
  }

  /**
   An active session starts to delete another endpoint's pairing while its own
   is not being deleted, or the deletion of its own fails and was all that the
   session still had under way.
   */
  ghost predicate Abandons(s: Session, a: Action) {
    || (a.Forget? && s.active && s.endpoint.Some? && s.endpoint != Some(a.endpoint) && !Renewing(s))
    || (a.ForgetEnds? && s.endpoint == Some(a.endpoint) && !a.deleted && WantsConnection(s)
        && s.socket.None? && !Pursued(s.openers, s.generation) && !s.retryTimer && s.forgets[a.endpoint] == 1)
  }

  lemma AttemptTries(s: Session)
    requires s.clientLabel.Some? <==> s.endpoint.Some?
    ensures Trying(Attempt(s))
  {
  }

  lemma FailTries(s: Session, id: SocketId, cause: string)
    requires Trying(s) && id < |s.sockets|
    ensures Trying(Fail(s, id, cause)) && Trying(ConnectionLost(s, id)) && Trying(Finish(s, id, Rejected, cause))
  {
  }

  lemma DrainKeepsWiring(s: Session, id: SocketId, n: nat)
    requires n <= |s.pending|
    ensures var t := Drain(s, id, n);
            && t.socket == s.socket && t.openers == s.openers && t.generation == s.generation && t.forgets == s.forgets
            && t.retryTimer == s.retryTimer && t.snapshot == s.snapshot && t.active == s.active && t.endpoint == s.endpoint
  {
  }

  lemma OpenerTries(s: Session, o: Opener, loaded: Result<Option<PairingRecord>, string>, created: Option<string>)
    requires Sound(s) && Trying(s) && o in s.openers
    ensures Trying(OpenLoaded(s, o, loaded, created))
  {
  }

  lemma ConnectTries(s: Session, endpoint: string, clientLabel: string)
    requires s.socket.Some? ==> s.socket.value < |s.sockets|
    ensures Trying(Connect(s, endpoint, clientLabel))
  {
  }

  lemma SetActiveTries(s: Session, active: bool)
    requires Trying(s) && (s.endpoint.Some? <==> s.clientLabel.Some?)
    requires s.socket.Some? ==> s.socket.value < |s.sockets|
    ensures Trying(SetActive(s, active))
  {
  }

  lemma ForgetEndsTries(s: Session, a: Action)
    requires a.ForgetEnds? && Enabled(s, a) && Trying(s) && (s.endpoint.Some? <==> s.clientLabel.Some?)
    ensures Trying(ForgetDone(s, a.endpoint, a.deleted)) <==> !Abandons(s, a)
  {
    var t := s.(forgets := s.forgets - multiset{a.endpoint});
    AttemptTries(t);
    hide Attempt, Pursued;
  }

  lemma ForgetTries(s: Session, endpoint: string)
    requires Sound(s) && (s.socket.Some? ==> s.socket.value < |s.sockets|)
    ensures Trying(ForgetPairing(s, endpoint)) <==> !Abandons(s, Forget(endpoint))
  {
    GenerationsPast(s);
    hide Sound;
    var t := ForgetPairing(s, endpoint);
    assert t.generation == s.generation + 1 && t.openers == s.openers && t.socket.None? && !t.retryTimer;
    assert !Pursued(t.openers, t.generation);
    assert Renewing(t) <==> s.endpoint.Some? && (s.endpoint.value in s.forgets || s.endpoint.value == endpoint);
  }

  lemma GenerationsPast(s: Session)
    requires Sound(s)
    ensures forall o <- s.openers :: o.generation <= s.generation
  {
  }

  lemma OpenSocketTries(s: Session, id: SocketId)
    requires Trying(s) && id < |s.sockets|
    ensures Trying(SocketOpened(s, id))
  {
  }

  lemma HandlerTries(s: Session, h: Handler, result: Result<bytes, string>)
    requires Trying(s)
    ensures Trying(HandlerDone(s, h, result))
  {
  }

  /** The session stops trying exactly when it abandons the attempt. */
  lemma TryingExactly(s: Session, a: Action)
    requires Sound(s) && Enabled(s, a) && Trying(s)
    ensures Grounded(s) && (Trying(Next(s, a)) <==> !Abandons(s, a))
  {
    hide Sound, Connect, SetActive, SetReady, ForgetDone, OpenLoaded, SocketOpened, ConnectionLost, ReceiveNext;
    hide PairingSaved, Fail, HandlerDone, Pursued, Grounded, RetryFires, ForgetPairing;
    SoundIsGrounded(s);
    WiredParts(s);
    match a
    case ConnectTo(endpoint, clientLabel) => ConnectTries(s, endpoint, clientLabel);
    case Activate(active) => SetActiveTries(s, active);
    case Forget(endpoint) => ForgetTries(s, endpoint);
    case ForgetEnds(_, _) => ForgetEndsTries(s, a);
    case OpenerResumes(o, loaded, created) => OpenerTries(s, o, loaded, created);
    case TimerFires => TimerTries(s);
    case SocketOpens(id) => OpenSocketTries(s, id);
    case SocketReports(id) => FailTries(s, id, NOT_OPEN);
    case ChainFails => FailTries(s.(receiving := Free), s.receiving.socket, s.receiving.cause);
    case HandlerFailed(f) => FailTries(s, f.0.socket, f.1);
    case HandlerEnds(h, result) => HandlerTries(s, h, result);
    case ChainAdvances(now) => ReceiveTries(s, now);
    case SaveEnds(failed) => SavedTries(s, failed);
    case ReadyChanges(ready) => ReadyTries(s, ready);
    case _ =>
  }

  lemma TimerTries(s: Session)
    requires s.endpoint.Some? <==> s.clientLabel.Some?
    ensures Trying(RetryFires(s))
  {
  }

  lemma WiredParts(s: Session)
    requires Sound(s)
    ensures s.endpoint.Some? <==> s.clientLabel.Some?
    ensures s.snapshot.status.Connected? ==> s.socket.Some?
    ensures s.socket.Some? ==> s.socket.value < |s.sockets|
    ensures forall f <- s.failures :: f.0.socket < |s.sockets|
    ensures s.receiving.Failing? ==> s.receiving.socket < |s.sockets|
    ensures s.inbox != [] ==> s.inbox[0].0 < |s.sockets|
  {
  }

  lemma ReadyTries(s: Session, ready: bool)
    requires Trying(s)
    ensures Trying(SetReady(s, ready))
  {
    hide Pursued, Drain;
    var t := s.(ready := ready);
    if t.socket.Some? {
      var u := See(t, [Sent(t.socket.value, Report(ready))]);
      DrainKeepsWiring(u, u.socket.value, |u.pending|);
    }
  }

  lemma EnterTries(s: Session, id: SocketId, w: Welcome)
    ensures Trying(Enter(s, id, w))
  {
    hide Pursued, Drain;
    var t := Welcomed(s, id, w);
    var u := See(t, [Sent(id, SetIdentities(t.identities)), Sent(id, Report(t.ready))]);
    DrainKeepsWiring(u, id, |u.pending|);
  }

  lemma SavedTries(s: Session, failed: Option<string>)
    requires Trying(s) && s.receiving.Saving?
    ensures Trying(PairingSaved(s, failed))
  {
    hide Pursued, Enter;
    EnterTries(s.(receiving := Free, pairing := Some(s.receiving.record)), s.receiving.socket, s.receiving.welcome);
  }

  lemma HandshakeTries(s: Session, id: SocketId, m: ServerMessage, now: int)
    requires Trying(s) && id < |s.sockets|
    ensures Trying(Handshake(s, id, m, now))
  {
    hide Pursued, Enter, Finish;
    FailTries(s, id, REJECTED);
    if m.Authenticated? {
      EnterTries(s, id, m.welcome);
    }
  }

  lemma ReceiveTries(s: Session, now: int)
    requires Trying(s) && s.inbox != [] && s.inbox[0].0 < |s.sockets|
    ensures Trying(ReceiveNext(s, now))
  {
    hide Pursued, Handshake, IndexOf, Enqueue;
    var id, data := s.inbox[0].0, s.inbox[0].1;
    var t := s.(inbox := s.inbox[1..]);
    if data.Decoded? {
      HandshakeTries(t, id, data.message, now);
    }
  }

  ghost predicate NeverAbandons(early: Request -> bool, run: seq<Action>)
    requires IsRun(early, run)
    decreases |run|
  {
    run == [] ||
    var n := |run| - 1;
    NeverAbandons(early, run[..n]) && !Abandons(At(early, run[..n]), run[n])
  }

  /** A session that never abandons an attempt is trying in every state it reaches. */
  lemma {:induction false} KeepsTrying(early: Request -> bool, run: seq<Action>)
    requires IsRun(early, run) && NeverAbandons(early, run)
    ensures Trying(At(early, run))
  {
    hide Sound, Next, Enabled, Abandons;
    if run == [] {
      assert NewSession(early).endpoint.None?;
    } else {
      var n := |run| - 1;
      KeepsTrying(early, run[..n]);
      RunsAreSound(early, run[..n]);
      hide Trying;
      TryingExactly(At(early, run[..n]), run[n]);
    }
  }

  ghost function Starting(early: Request -> bool, endpoint: string, clientLabel: string): Session {
    NewSession(early).(endpoint := Some(endpoint), clientLabel := Some(clientLabel), generation := 2,
                       openers := {Opener(2, endpoint, clientLabel)})
  }

  ghost function Deleting(early: Request -> bool, endpoint: string, other: string, clientLabel: string): Session {
    Publish(Starting(early, endpoint, clientLabel), Reconnecting, None).(generation := 3, forgets := multiset{other})
  }

  lemma StopSteps(early: Request -> bool, endpoint: string, other: string, clientLabel: string)
    requires endpoint != other
    ensures Connect(NewSession(early), endpoint, clientLabel) == Starting(early, endpoint, clientLabel)
    ensures ForgetPairing(Starting(early, endpoint, clientLabel), other) == Deleting(early, endpoint, other, clientLabel)
    ensures var middle := Deleting(early, endpoint, other, clientLabel);
            var end := ForgetDone(middle, other, true);
            WantsConnection(middle) && !Scheduled(middle) && WantsConnection(end) && !Scheduled(end)
  {
  }

  /** Forgetting another endpoint's pairing ends the present attempt and leaves nothing in its place, then or later. */
  lemma ForgettingAnotherStops(early: Request -> bool, endpoint: string, other: string, clientLabel: string)
    requires endpoint != other
    ensures var run := [ConnectTo(endpoint, clientLabel), Forget(other)];
            IsRun(early, run) && WantsConnection(At(early, run)) && !Scheduled(At(early, run))
    ensures var run := [ConnectTo(endpoint, clientLabel), Forget(other), ForgetEnds(other, true)];
            IsRun(early, run) && WantsConnection(At(early, run)) && !Scheduled(At(early, run))
  {
    var a, b, c := ConnectTo(endpoint, clientLabel), Forget(other), ForgetEnds(other, true);
    StopSteps(early, endpoint, other, clientLabel);
    assert IsRun(early, []) && At(early, []) == NewSession(early);
    assert other in Deleting(early, endpoint, other, clientLabel).forgets;
    assert [] + [a] == [a] && [a] + [b] == [a, b] && [a, b] + [c] == [a, b, c];
    hide IsRun, At, Connect, ForgetPairing, ForgetDone, Starting, Deleting, NewSession;
    hide WantsConnection, Scheduled, Grounded;
    RunsExtend(early, [], a);
    RunsExtend(early, [a], b);
    RunsExtend(early, [a, b], c);
  }
}
