/** All interleavings of the client session, and what holds in every state they reach. */
module SessionRuns {
  import opened Basics
  import opened LinkReplay
  import opened ClientConduct
  import opened SessionModel
  import opened SessionSafety

  /** A call from the page, a browser event, or the continuation of suspended work. */
  datatype Action =
    | ConnectTo(endpoint: string, clientLabel: string)
    | Activate(active: bool)
    | ReadyChanges(ready: bool)
    | IdentitiesChange(identities: seq<(bytes, string)>)
    | PushRegisters(subscription: bytes)
    | Forget(endpoint: string)
    | ForgetEnds(endpoint: string, deleted: bool)
    | OpenerResumes(opener: Opener, loaded: Result<Option<PairingRecord>, string>, created: Option<string>)
    | TimerFires
    | SocketOpens(socket: SocketId)
    | SocketDies(socket: SocketId)
    | SocketReports(socket: SocketId)
    | Arrives(socket: SocketId, data: Inbound)
    | ChainAdvances(now: int)
    | SaveEnds(failed: Option<string>)
    | ChainFails
    | HandlerEnds(handler: Handler, result: Result<bytes, string>)
    | HandlerFailed(failure: (Handler, string))

  ghost predicate Enabled(s: Session, a: Action) {
    match a
    case ForgetEnds(endpoint, _) => endpoint in s.forgets
    case OpenerResumes(o, _, _) => o in s.openers
    case TimerFires => s.retryTimer
    case SocketOpens(id) => id < |s.sockets| && s.sockets[id].state.Opening?
    case SocketDies(id) => id < |s.sockets|
    case SocketReports(id) => id < |s.sockets|
    case Arrives(id, _) => id < |s.sockets| && s.sockets[id].state.Open?
    case ChainAdvances(_) => s.receiving.Free? && s.inbox != []
    case SaveEnds(_) => s.receiving.Saving?
    case ChainFails => s.receiving.Failing?
    case HandlerEnds(h, _) => h in s.handlers
    case HandlerFailed(f) => f in s.failures
    case _ => true
  }

  /** The references inside the state are to existing sockets; every sound state is so. */
  ghost predicate Grounded(s: Session) {
    && (s.socket.Some? ==> s.socket.value < |s.sockets|)
    && (s.inbox != [] ==> s.inbox[0].0 < |s.sockets|)
    && (s.receiving.Failing? ==> s.receiving.socket < |s.sockets|)
    && (forall f <- s.failures :: f.0.socket < |s.sockets|)
  }

  lemma SoundIsGrounded(s: Session)
    requires Sound(s)
    ensures Grounded(s)
  {
  }

  ghost function Next(s: Session, a: Action): Session
    requires Grounded(s) && Enabled(s, a)
  {
    match a
    case ConnectTo(endpoint, clientLabel) => Connect(s, endpoint, clientLabel)
    case Activate(active) => SetActive(s, active)
    case ReadyChanges(ready) => SetReady(s, ready)
    case IdentitiesChange(identities) => ReplaceIdentities(s, identities)
    case PushRegisters(subscription) => Tell(s, SetPushSubscription(subscription))
    case Forget(endpoint) => ForgetPairing(s, endpoint)
    case ForgetEnds(endpoint, deleted) => ForgetDone(s, endpoint, deleted)
    case OpenerResumes(o, loaded, created) => OpenLoaded(s, o, loaded, created)
    case TimerFires => RetryFires(s)
    case SocketOpens(id) => SocketOpened(s, id)
    case SocketDies(id) => SocketDrops(s, id)
    case SocketReports(id) => ConnectionLost(s, id)
    case Arrives(id, data) => MessageArrives(s, id, data)
    case ChainAdvances(now) => ReceiveNext(s, now)
    case SaveEnds(failed) => PairingSaved(s, failed)
    case ChainFails => ReceiveFails(s)
    case HandlerEnds(h, result) => HandlerDone(s, h, result)
    case HandlerFailed(f) => HandlerFails(s, f)
  }

  lemma NextIsSound(s: Session, a: Action)
    requires Sound(s) && Enabled(s, a)
    ensures Grounded(s) && Sound(Next(s, a))
  {
    hide *;
    SoundIsGrounded(s);
    NextIsSoundBy(s, a);
  }

  lemma NextIsSoundBy(s: Session, a: Action)
    requires Sound(s) && Grounded(s) && Enabled(s, a)
    ensures Sound(Next(s, a))
  {
    hide Sound, Connect, SetActive, SetReady, ReplaceIdentities, Tell, ForgetPairing, ForgetDone, OpenLoaded;
    hide RetryFires, SocketOpened, SocketDrops, ConnectionLost, MessageArrives, ReceiveNext, PairingSaved;
    hide ReceiveFails, HandlerDone, HandlerFails;
    match a
    case ConnectTo(endpoint, clientLabel) => ConnectIsSound(s, endpoint, clientLabel);
    case Activate(active) => SetActiveIsSound(s, active);
    case ReadyChanges(ready) => SetReadyIsSound(s, ready);
    case IdentitiesChange(identities) => ReplaceIdentitiesIsSound(s, identities);
    case PushRegisters(subscription) => TellIsSound(s, SetPushSubscription(subscription));
    case Forget(endpoint) => ForgetPairingIsSound(s, endpoint);
    case ForgetEnds(endpoint, deleted) => ForgetDoneIsSound(s, endpoint, deleted);
    case OpenerResumes(o, loaded, created) => OpenLoadedIsSound(s, o, loaded, created);
    case TimerFires => RetryFiresIsSound(s);
    case SocketOpens(id) => SocketOpenedIsSound(s, id);
    case SocketDies(id) => SocketDropsIsSound(s, id);
    case SocketReports(id) => LostIsSound(s, id);
    case Arrives(id, data) => MessageArrivesIsSound(s, id, data);
    case ChainAdvances(now) => ReceiveNextIsSound(s, now);
    case SaveEnds(failed) => PairingSavedIsSound(s, failed);
    case ChainFails => ReceiveFailsIsSound(s);
    case HandlerEnds(h, result) => HandlerDoneIsSound(s, h, result);
    case HandlerFailed(f) => HandlerFailsIsSound(s, f);
  }

  // ----- Runs -----

  ghost predicate IsRun(early: Request -> bool, run: seq<Action>)
    decreases |run|, 0
  {
    run == [] ||
    var n := |run| - 1;
    IsRun(early, run[..n]) && Grounded(At(early, run[..n])) && Enabled(At(early, run[..n]), run[n])
  }

  ghost function At(early: Request -> bool, run: seq<Action>): Session
    requires IsRun(early, run)
    decreases |run|, 1
  {
    if run == [] then NewSession(early)
    else
      var n := |run| - 1;
      Next(At(early, run[..n]), run[n])
  }

  lemma {:induction false} RunsAreSound(early: Request -> bool, run: seq<Action>)
    requires IsRun(early, run)
    ensures Sound(At(early, run))
  {
    hide Sound, Next, Enabled;
    if run == [] {
      NewSessionIsSound(early);
    } else {
      var n := |run| - 1;
      RunsAreSound(early, run[..n]);
      NextIsSound(At(early, run[..n]), run[n]);
    }
  }

  /** The next step of a run is possible whenever its action is enabled. */
  lemma RunsExtend(early: Request -> bool, run: seq<Action>, a: Action)
    requires IsRun(early, run) && Enabled(At(early, run), a)
    ensures IsRun(early, run + [a]) && Grounded(At(early, run))
    ensures At(early, run + [a]) == Next(At(early, run), a)
  {
    RunsAreSound(early, run);
    SoundIsGrounded(At(early, run));
    hide Grounded, Enabled, Next;
    assert (run + [a])[..|run|] == run;
  }

  /**
   Over every interleaving: conduct is legal; the published count is the size of
   the buffer and within bounds; the connected state has a socket; every other
   socket ever created has been closed; and exits were announced once each.
   */
  lemma SessionGuarantees(early: Request -> bool, run: seq<Action>)
    requires IsRun(early, run)
    ensures var s := At(early, run);
            && Legal(s.trace)
            && s.snapshot.pendingRequests == |s.pending| <= MAX_PENDING_REQUESTS
            && (s.snapshot.status.Connected? ==> s.socket.Some?)
            && (forall id: SocketId :: id < |s.sockets| <==> Created(id) in s.trace)
            && (forall id: SocketId | id < |s.sockets| :: Closes(s.trace, id) <==> s.socket != Some(id))
            && Entries(s.trace) == Exits(s.trace) + if s.snapshot.status.Connected? then 1 else 0
  {
    RunsAreSound(early, run);
    var s := At(early, run);
    BufferedOnlyConnected(s);
    DisconnectsMatchConnections(s.trace);
    hide Legal, After, Closes, HeldOf, UniqueKeys, NoneForgotten, Chain, Generations;
    forall id: SocketId
      ensures id < |s.sockets| <==> Created(id) in s.trace
      ensures id < |s.sockets| ==> (Closes(s.trace, id) <==> s.socket != Some(id))
    {
      ClosedUnlessCurrent(s.trace, id);
    }
  }
}
