/**
 Whether a failed session is over.  A session that reports an error or a
 rejection should hold no socket; it can, when an attempt under way at that
 time goes on, and then it ignores whatever the server sends.
 */
module SessionSilence {
  import opened Basics
  import opened ClientConduct
  import opened SessionModel
  import opened SessionSafety
  import opened SessionRuns
  import opened ClientRefinement

  /** Terminal, and yet connected or connecting. */
  ghost predicate Mute(s: Session) {
    s.socket.Some? && Terminal(s.snapshot.status)
  }

  /** The opener of the latest generation adopts a socket for a session that has given up. */
  ghost predicate OpensTerminal(s: Session, a: Action) {
    && a.OpenerResumes? && a.loaded.Success? && a.created.None?
    && a.opener.generation == s.generation && s.active && s.socket.None? && Terminal(s.snapshot.status)
  }

  /** A mute session takes messages up and drops them. */
  lemma MuteIgnores(s: Session, now: int)
    requires Mute(s) && s.inbox != [] && s.inbox[0].0 < |s.sockets| && s.inbox[0].1.Decoded?
    ensures ReceiveNext(s, now) == s.(inbox := s.inbox[1..])
  {
  }

  lemma OpenerMutes(s: Session, o: Opener, loaded: Result<Option<PairingRecord>, string>, created: Option<string>)
    requires Sound(s) && o in s.openers && !Mute(s)
    ensures Mute(OpenLoaded(s, o, loaded, created)) <==> OpensTerminal(s, OpenerResumes(o, loaded, created))
  {
    assert s.socket.Some? ==> o.generation < s.generation;
    hide Sound;
  }

  lemma MessageKeepsVoice(s: Session, k: SocketId, data: Inbound, now: int)
    requires !Mute(s) && k < |s.sockets|
    ensures !Mute(ReceiveMessage(s, k, data, now))
  {
    hide Handshake, Receive, Cancel, Replies, Keys;
    if data.Decoded? {
      var m := data.message;
      HandshakeKeepsVoice(s, k, m, now);
      if m.AgentRequest? {
        ReceiveKeepsReplies(s, k, m.request, k);
      } else if m.CancelRequest? {
        CancelKeepsReplies(s, m.key, now, k);
      }
    }
  }

  lemma HandshakeKeepsVoice(s: Session, k: SocketId, m: ServerMessage, now: int)
    requires !Mute(s) && k < |s.sockets|
    ensures !Mute(Handshake(s, k, m, now)) || s.socket != Some(k)
  {
    hide Replies, Keys, Enter, Finish;
    FinishIsCalm(s, k, Rejected, REJECTED, k);
    if m.Authenticated? && s.socket == Some(k) {
      EnterIsCalm(s, k, m.welcome, k);
    }
  }

  lemma OthersKeepVoice(s: Session, a: Action)
    requires Sound(s) && Grounded(s) && Enabled(s, a) && !Mute(s) && !a.OpenerResumes?
    ensures !Mute(Next(s, a))
  {
    if Aside(a) {
      AsideKeepsVoice(s, a);
    } else {
      hide Sound, ReceiveMessage, PairingSaved, Fail, HandlerDone, Calm;
      var t := Next(s, a);
      var id := if t.socket.Some? then t.socket.value else 0;
      if a.ChainAdvances? {
        MessageKeepsVoice(s.(inbox := s.inbox[1..]), s.inbox[0].0, s.inbox[0].1, a.now);
      } else if a.SaveEnds? {
        SavedIsCalm(s, a.failed, id);
        CalmKeepsVoice(s, t, id);
      } else if a.ChainFails? {
        FailIsCalm(s.(receiving := Free), s.receiving.socket, s.receiving.cause, id);
        CalmKeepsVoice(s.(receiving := Free), t, id);
      } else if a.HandlerEnds? {
        HandlerKeeps(s, a.handler, a.result);
      }
    }
  }

  lemma AsideKeepsVoice(s: Session, a: Action)
    requires Sound(s) && Grounded(s) && Enabled(s, a) && Aside(a) && !Mute(s) && !a.OpenerResumes?
    ensures !Mute(Next(s, a))
  {
    hide Sound, Next, Calm, Grounded, Enabled;
    var t := Next(s, a);
    var id := if t.socket.Some? then t.socket.value else 0;
    AsidesAreCalm(s, a, id);
    CalmKeepsVoice(s, t, id);
  }

  lemma CalmKeepsVoice(s: Session, t: Session, id: SocketId)
    requires Calm(s, t, id) && !Mute(s) && (t.socket.Some? ==> t.socket.value == id)
    ensures !Mute(t)
  {
  }

  /** A session falls mute exactly when it adopts a socket although it has given up. */
  lemma MuteExactly(s: Session, a: Action)
    requires Sound(s) && Enabled(s, a) && !Mute(s)
    ensures Grounded(s) && (Mute(Next(s, a)) <==> OpensTerminal(s, a))
  {
    hide Sound, Mute, OpenLoaded;
    SoundIsGrounded(s);
    if a.OpenerResumes? {
      OpenerMutes(s, a.opener, a.loaded, a.created);
    } else {
      OthersKeepVoice(s, a);
    }
  }

  ghost predicate NeverOpensTerminal(early: Request -> bool, run: seq<Action>)
    requires IsRun(early, run)
    decreases |run|
  {
    run == [] ||
    var n := |run| - 1;
    NeverOpensTerminal(early, run[..n]) && !OpensTerminal(At(early, run[..n]), run[n])
  }

  /** Without such a step a session that failed holds no socket. */
  lemma {:induction false} FailedIsClosed(early: Request -> bool, run: seq<Action>)
    requires IsRun(early, run) && NeverOpensTerminal(early, run)
    ensures !Mute(At(early, run))
  {
    hide Sound, SessionRuns.Next, Enabled, OpensTerminal;
    if run != [] {
      var n := |run| - 1;
      FailedIsClosed(early, run[..n]);
      RunsAreSound(early, run[..n]);
      hide Mute;
      MuteExactly(At(early, run[..n]), run[n]);
    }
  }

  // ----- A session that falls mute -----

  ghost function Reopening(early: Request -> bool, endpoint: string, clientLabel: string): Session {
    NewSession(early).(endpoint := Some(endpoint), clientLabel := Some(clientLabel), generation := 4,
                       snapshot := Snapshot(Reconnecting, None, None, None, 0, None),
                       openers := {Opener(2, endpoint, clientLabel), Opener(4, endpoint, clientLabel)},
                       forgets := multiset{endpoint})
  }

  ghost function Renewed(early: Request -> bool, endpoint: string, clientLabel: string, cause: string): Session {
    NewSession(early).(endpoint := Some(endpoint), clientLabel := Some(clientLabel), generation := 5,
                       snapshot := Snapshot(Errored, None, None, None, 0, Some(cause)),
                       openers := {Opener(2, endpoint, clientLabel), Opener(5, endpoint, clientLabel)})
  }

  lemma SilentSteps(early: Request -> bool, endpoint: string, clientLabel: string, cause: string)
    ensures SetActive(ForgetPairing(Connect(NewSession(early), endpoint, clientLabel), endpoint), true)
         == Reopening(early, endpoint, clientLabel)
    ensures ForgetDone(OpenLoaded(Reopening(early, endpoint, clientLabel), Opener(4, endpoint, clientLabel),
                                  Failure(cause), None), endpoint, true)
         == Renewed(early, endpoint, clientLabel, cause)
    ensures Mute(OpenLoaded(Renewed(early, endpoint, clientLabel, cause), Opener(5, endpoint, clientLabel),
                            Success(None), None))
  {
    var first, second := Opener(2, endpoint, clientLabel), Opener(4, endpoint, clientLabel);
    assert {first} + {second} == {first, second};
    assert {first, second} - {second} == {first};
    assert multiset{} + multiset{endpoint} == multiset{endpoint};
    assert multiset{endpoint} - multiset{endpoint} == multiset{};
  }

  /** An attempt fails while the endpoint's pairing is being deleted; the deletion starts another that connects. */
  lemma FailedSessionConnects(early: Request -> bool, endpoint: string, clientLabel: string, cause: string)
    returns (run: seq<Action>)
    ensures IsRun(early, run) && Mute(At(early, run))
  {
    var second, third := Opener(4, endpoint, clientLabel), Opener(5, endpoint, clientLabel);
    SilentSteps(early, endpoint, clientLabel, cause);
    hide IsRun, At, Connect, ForgetPairing, ForgetDone, OpenLoaded, SetActive, Mute, Grounded;
    run := [];
    assert IsRun(early, run) && At(early, run) == NewSession(early);
    run := Then(early, run, ConnectTo(endpoint, clientLabel));
    run := Then(early, run, Forget(endpoint));
    run := Then(early, run, Activate(true));
    run := Then(early, run, OpenerResumes(second, Failure(cause), None));
    run := Then(early, run, ForgetEnds(endpoint, true));
    run := Then(early, run, OpenerResumes(third, Success(None), None));
  }

  lemma Then(early: Request -> bool, run: seq<Action>, a: Action) returns (longer: seq<Action>)
    requires IsRun(early, run) && Enabled(At(early, run), a)
    ensures IsRun(early, longer) && Grounded(At(early, run)) && At(early, longer) == Next(At(early, run), a)
  {
    RunsExtend(early, run, a);
    longer := run + [a];
  }
}
