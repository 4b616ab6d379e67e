/**
 The client of the two-party protocol is an abstraction of the session: every
 step of the session on a socket is a delivery, an answer or a close of the
 protocol's client on its link, or nothing that the protocol can see.
 */
module ClientRefinement {
  import opened Basics
  import opened LinkReplay
  import opened ClientConduct
  import opened SessionModel
  import opened SessionSafety
  import opened SessionRuns
  import BrokerTypes
  import RemoteProtocol

  type RemoteCommand = BrokerTypes.RemoteCommand

  // ----- Messages and replies -----

  /** The message a command becomes on the wire. */
  function MessageFor(c: RemoteCommand): ServerMessage {
    match c
    case Request(id, attempt, requestedAt, deadline, packet, context) =>
      AgentRequest(Request(Key(id, attempt), requestedAt, deadline, packet, context))
    case CancelAttempt(id, attempt) => CancelRequest(Key(id, attempt))
  }

  function MessagesFor(commands: seq<RemoteCommand>): seq<ServerMessage> {
    seq(|commands|, i requires 0 <= i < |commands| => MessageFor(commands[i]))
  }

  predicate IsCommand(data: Inbound) {
    data.Decoded? && (data.message.AgentRequest? || data.message.CancelRequest?)
  }

  /** The command messages received on a socket and not taken up yet. */
  function Unread(inbox: seq<(SocketId, Inbound)>, id: SocketId): seq<ServerMessage> {
    if inbox == [] then []
    else
      (if inbox[0].0 == id && IsCommand(inbox[0].1) then [inbox[0].1.message] else []) + Unread(inbox[1..], id)
  }

  lemma {:induction false} UnreadGrows(inbox: seq<(SocketId, Inbound)>, k: SocketId, data: Inbound, id: SocketId)
    ensures Unread(inbox + [(k, data)], id)
         == Unread(inbox, id) + if k == id && IsCommand(data) then [data.message] else []
  {
    if inbox == [] {
      assert inbox + [(k, data)] == [(k, data)];
    } else {
      UnreadGrows(inbox[1..], k, data, id);
      assert (inbox + [(k, data)])[1..] == inbox[1..] + [(k, data)];
    }
  }

  /** The replies sent on a socket. */
  function Replies(trace: seq<Observed>, id: SocketId): seq<Reply> {
    if trace == [] then []
    else
      var n := |trace| - 1;
      Replies(trace[..n], id) +
      match trace[n]
      case Responded(k, _, key, packet) => if k == id then [Reply(key, packet)] else []
      case _ => []
  }

  lemma RepliesSnoc(trace: seq<Observed>, e: Observed, id: SocketId)
    ensures Replies(trace + [e], id)
         == Replies(trace, id) + if e.Responded? && e.socket == id then [Reply(e.key, e.packet)] else []
  {
    assert (trace + [e])[..|trace|] == trace;
  }

  /** Events that are no replies go unnoticed. */
  lemma {:induction false} RepliesSilent(trace: seq<Observed>, es: seq<Observed>, id: SocketId)
    requires forall e <- es :: !e.Responded?
    ensures Replies(trace + es, id) == Replies(trace, id)
  {
    if es == [] {
      assert trace + es == trace;
    } else {
      var n := |es| - 1;
      RepliesSilent(trace, es[..n], id);
      RepliesSnoc(trace + es[..n], es[n], id);
      assert trace + es == trace + es[..n] + [es[n]];
    }
  }

  // ----- Steps that the protocol cannot see, except for a close -----

  /** The socket is current, and the session has not given up on it. */
  ghost predicate InUse(s: Session, id: SocketId) {
    s.socket == Some(id) && !Terminal(s.snapshot.status)
  }

  /** No reply was sent on the socket, and if it is still live its buffer holds the same keys. */
  ghost predicate Calm(s: Session, t: Session, id: SocketId) {
    && Replies(t.trace, id) == Replies(s.trace, id)
    && |s.sockets| <= |t.sockets|
    && (t.socket == Some(id) ==> s.socket == Some(id) && (Terminal(t.snapshot.status) ==> Terminal(s.snapshot.status)))
    && (InUse(t, id) ==> InUse(s, id) && Keys(t.pending) == Keys(s.pending))
  }

  ghost predicate ChainKept(s: Session, t: Session) {
    t.inbox == s.inbox && t.receiving == s.receiving
  }

  lemma SeeIsCalm(s: Session, es: seq<Observed>, id: SocketId)
    requires forall e <- es :: !e.Responded?
    ensures Calm(s, See(s, es), id) && ChainKept(s, See(s, es))
  {
    RepliesSilent(s.trace, es, id);
  }

  lemma ShutIsCalm(s: Session, k: SocketId, wasConnected: bool, id: SocketId)
    requires k < |s.sockets|
    ensures Calm(s, Shut(s, k, wasConnected), id) && ChainKept(s, Shut(s, k, wasConnected))
    ensures Shut(s, k, wasConnected).socket == s.socket
  {
    hide Replies, Keys;
    RepliesSilent(s.trace, Farewell(k, wasConnected), id);
  }

  lemma ReleaseIsCalm(s: Session, k: SocketId, status: Status, error: Option<string>, id: SocketId)
    requires k < |s.sockets|
    ensures var t := Shut(Publish(Clear(s.(socket := None, retryTimer := false)), status, error), k,
                          s.snapshot.status.Connected?);
            Calm(s, t, id) && ChainKept(s, t) && t.socket.None?
    ensures var t := Shut(Publish(Clear(s.(socket := None)), status, error), k, s.snapshot.status.Connected?);
            Calm(s, t, id) && ChainKept(s, t) && t.socket.None?
  {
    var was := s.snapshot.status.Connected?;
    ShutIsCalm(Publish(Clear(s.(socket := None, retryTimer := false)), status, error), k, was, id);
    ShutIsCalm(Publish(Clear(s.(socket := None)), status, error), k, was, id);
    hide Shut, Replies, Keys;
  }

  lemma FinishIsCalm(s: Session, k: SocketId, status: Status, error: string, id: SocketId)
    requires k < |s.sockets|
    ensures Calm(s, Finish(s, k, status, error), id) && ChainKept(s, Finish(s, k, status, error))
    ensures s.socket == Some(k) ==> Finish(s, k, status, error).socket.None?
  {
    hide Shut, Replies, Keys, Publish, Clear;
    ReleaseIsCalm(s, k, status, Some(error), id);
  }

  lemma LostIsCalm(s: Session, k: SocketId, id: SocketId)
    requires k < |s.sockets|
    ensures Calm(s, ConnectionLost(s, k), id) && ChainKept(s, ConnectionLost(s, k))
    ensures s.socket == Some(k) ==> ConnectionLost(s, k).socket.None?
  {
    hide Shut, Replies, Keys, Publish, Clear;
    ReleaseIsCalm(s, k, Reconnecting, None, id);
  }

  lemma FailIsCalm(s: Session, k: SocketId, cause: string, id: SocketId)
    requires k < |s.sockets|
    ensures Calm(s, Fail(s, k, cause), id) && ChainKept(s, Fail(s, k, cause))
    ensures s.socket == Some(k) ==> Fail(s, k, cause).socket.None?
  {
    hide Finish, ConnectionLost, Calm;
    FinishIsCalm(s, k, Errored, cause, id);
    LostIsCalm(s, k, id);
  }

  lemma CloseIsCalm(s: Session, status: Status, error: Option<string>, id: SocketId)
    requires s.socket.Some? ==> s.socket.value < |s.sockets|
    ensures var t := Publish(CloseSocket(s), status, error);
            Calm(s, t, id) && ChainKept(s, t) && t.socket.None?
  {
    hide Replies, Keys, Shut;
    if s.socket.Some? {
      var t := Clear(s.(generation := s.generation + 1, socket := None, pairing := None));
      ShutIsCalm(t, s.socket.value, s.snapshot.status.Connected?, id);
    }
  }

  lemma AttemptIsCalm(s: Session, id: SocketId)
    ensures Calm(s, Attempt(s), id) && ChainKept(s, Attempt(s))
  {
  }

  lemma ConnectIsCalm(s: Session, endpoint: string, clientLabel: string, id: SocketId)
    requires s.socket.Some? ==> s.socket.value < |s.sockets|
    ensures var t := Connect(s, endpoint, clientLabel); Calm(s, t, id) && ChainKept(s, t)
  {
    var wanted := s.(endpoint := Some(endpoint), clientLabel := Some(clientLabel), active := true, retryTimer := false);
    CloseIsCalm(wanted, Connecting, None, id);
    hide CloseSocket, Publish, Attempt, Replies, Keys;
    AttemptIsCalm(Publish(CloseSocket(wanted), Connecting, None), id);
  }

  lemma SetActiveIsCalm(s: Session, active: bool, id: SocketId)
    requires s.socket.Some? ==> s.socket.value < |s.sockets|
    ensures var t := SetActive(s, active); Calm(s, t, id) && ChainKept(s, t)
  {
    var t := s.(active := active, retryTimer := false);
    CloseIsCalm(t, Reconnecting, None, id);
    hide CloseSocket, Attempt, Replies, Keys;
    AttemptIsCalm(Publish(t, Reconnecting, None), id);
  }

  lemma ForgetIsCalm(s: Session, endpoint: string, id: SocketId)
    requires s.socket.Some? ==> s.socket.value < |s.sockets|
    ensures var t := ForgetPairing(s, endpoint); Calm(s, t, id) && ChainKept(s, t)
  {
    CloseIsCalm(s.(retryTimer := false), Reconnecting, None, id);
    hide CloseSocket, Publish, Replies, Keys;
  }

  lemma ForgetDoneIsCalm(s: Session, endpoint: string, deleted: bool, id: SocketId)
    ensures var t := ForgetDone(s, endpoint, deleted); Calm(s, t, id) && ChainKept(s, t)
  {
    hide Attempt, Replies, Keys;
    AttemptIsCalm(s.(forgets := s.forgets - multiset{endpoint}), id);
  }

  lemma RetryIsCalm(s: Session, id: SocketId)
    ensures Calm(s, RetryFires(s), id) && ChainKept(s, RetryFires(s))
  {
    hide Attempt, Replies, Keys;
    AttemptIsCalm(s.(retryTimer := false), id);
  }

  /** An opener neither fails nor adopts while there is a socket. */
  lemma OpenerIsCalm(s: Session, o: Opener, loaded: Result<Option<PairingRecord>, string>, created: Option<string>,
                     id: SocketId)
    requires Sound(s) && o in s.openers && id < |s.sockets|
    ensures var t := OpenLoaded(s, o, loaded, created); Calm(s, t, id) && ChainKept(s, t)
  {
    hide Sound, Replies, Keys;
    StaleWithSocket(s, o);
    RepliesSilent(s.trace, [Created(|s.sockets|)], id);
  }

  lemma StaleWithSocket(s: Session, o: Opener)
    requires Sound(s) && o in s.openers
    ensures s.socket.Some? ==> o.generation < s.generation
  {
  }

  lemma OpenedIsCalm(s: Session, k: SocketId, id: SocketId)
    requires k < |s.sockets|
    ensures var t := SocketOpened(s, k); Calm(s, t, id) && ChainKept(s, t)
  {
    var t := s.(sockets := s.sockets[k := s.sockets[k].(state := Open)]);
    FailIsCalm(t, k, NOT_OPEN, id);
    RepliesSilent(t.trace, [Sent(k, Greeting(t.sockets[k]))], id);
    hide Fail, Replies, Keys, Greeting;
  }

  lemma {:induction false} DrainIsCalm(s: Session, k: SocketId, n: nat, id: SocketId)
    requires n <= |s.pending|
    ensures var t := Drain(s, k, n);
            && Calm(s, t, id) && ChainKept(s, t) && t.socket == s.socket && t.snapshot == s.snapshot
            && Keys(t.pending) == Keys(s.pending)
  {
    if n > 0 {
      DrainIsCalm(s, k, n - 1, id);
      var t := Drain(s, k, n - 1);
      TryProcessIsCalm(t, k, n - 1, id);
      hide Keys, Replies, TryProcess;
    }
  }

  lemma TryProcessIsCalm(s: Session, k: SocketId, i: nat, id: SocketId)
    requires i < |s.pending|
    ensures var t := TryProcess(s, k, i);
            && Calm(s, t, id) && ChainKept(s, t) && t.socket == s.socket && t.snapshot == s.snapshot
            && Keys(t.pending) == Keys(s.pending)
  {
    TryProcessKeeps(s, k, i);
    var b := s.pending[i];
    RepliesSilent(s.trace, [Handed(b.token, b.request.key)], id);
    hide Keys, Replies;
  }

  lemma SetReadyIsCalm(s: Session, ready: bool, id: SocketId)
    ensures var t := SetReady(s, ready); Calm(s, t, id) && ChainKept(s, t)
  {
    var t := s.(ready := ready);
    if t.socket.Some? {
      var u := See(t, [Sent(t.socket.value, Report(ready))]);
      SeeIsCalm(t, [Sent(t.socket.value, Report(ready))], id);
      DrainIsCalm(u, t.socket.value, |u.pending|, id);
    }
    hide Drain, Replies, Keys;
  }

  lemma TellIsCalm(s: Session, m: Message, id: SocketId)
    ensures Calm(s, Tell(s, m), id) && ChainKept(s, Tell(s, m))
  {
    if s.socket.Some? {
      SeeIsCalm(s, [Sent(s.socket.value, m)], id);
    }
  }

  lemma ReplaceIsCalm(s: Session, identities: seq<(bytes, string)>, id: SocketId)
    ensures var t := ReplaceIdentities(s, identities); Calm(s, t, id) && ChainKept(s, t)
  {
    hide Tell, Replies, Keys;
    TellIsCalm(s.(identities := identities), SetIdentities(identities), id);
  }

  lemma HandlerFailsIsCalm(s: Session, f: (Handler, string), id: SocketId)
    requires f.0.socket < |s.sockets|
    ensures var t := HandlerFails(s, f); Calm(s, t, id) && ChainKept(s, t)
  {
    hide Fail, Replies, Keys;
    FailIsCalm(s, f.0.socket, f.1, id);
  }

  /** Steps that concern neither the receive chain nor an answer. */
  predicate Aside(a: Action) {
    !a.Arrives? && !a.ChainAdvances? && !a.SaveEnds? && !a.ChainFails? && !a.HandlerEnds?
  }

  lemma AsidesAreCalm(s: Session, a: Action, id: SocketId)
    requires Sound(s) && Grounded(s) && Enabled(s, a) && Aside(a) && (a.OpenerResumes? ==> id < |s.sockets|)
    ensures Calm(s, Next(s, a), id) && ChainKept(s, Next(s, a))
  {
    hide Sound, Connect, SetActive, SetReady, ReplaceIdentities, Tell, ForgetPairing, ForgetDone, OpenLoaded;
    hide RetryFires, SocketOpened, ConnectionLost, HandlerFails, Replies, Keys;
    match a
    case ConnectTo(endpoint, clientLabel) => ConnectIsCalm(s, endpoint, clientLabel, id);
    case Activate(active) => SetActiveIsCalm(s, active, id);
    case ReadyChanges(ready) => SetReadyIsCalm(s, ready, id);
    case IdentitiesChange(identities) => ReplaceIsCalm(s, identities, id);
    case PushRegisters(subscription) => TellIsCalm(s, SetPushSubscription(subscription), id);
    case Forget(endpoint) => ForgetIsCalm(s, endpoint, id);
    case ForgetEnds(endpoint, deleted) => ForgetDoneIsCalm(s, endpoint, deleted, id);
    case OpenerResumes(o, loaded, created) => OpenerIsCalm(s, o, loaded, created, id);
    case TimerFires => RetryIsCalm(s, id);
    case SocketOpens(k) => OpenedIsCalm(s, k, id);
    case SocketDies(_) =>
    case SocketReports(k) => LostIsCalm(s, k, id);
    case HandlerFailed(f) => HandlerFailsIsCalm(s, f, id);
  }

  // ----- The receive chain -----

  lemma EnterIsCalm(s: Session, k: SocketId, w: Welcome, id: SocketId)
    requires !Terminal(s.snapshot.status)
    ensures var t := Enter(s, k, w);
            && Calm(s, t, id) && t.inbox == s.inbox && t.socket == s.socket
            && (t.receiving == s.receiving || t.receiving == Failing(k, NOT_OPEN))
  {
    var t := Welcomed(s, k, w);
    var u := See(t, [Sent(k, SetIdentities(t.identities)), Sent(k, Report(t.ready))]);
    SeeIsCalm(s, [Entered(k)], id);
    SeeIsCalm(t, [Sent(k, SetIdentities(t.identities)), Sent(k, Report(t.ready))], id);
    DrainIsCalm(u, k, |u.pending|, id);
    hide Drain, Replies, Keys;
  }

  /** The chain goes on, or waits for an error of this socket to be handled or a pairing to be saved. */
  ghost predicate Interrupted(s: Session, t: Session, k: SocketId) {
    t.receiving == s.receiving || (t.receiving.Failing? && t.receiving.socket == k) || t.receiving.Saving?
  }

  lemma HandshakeIsCalm(s: Session, k: SocketId, m: ServerMessage, now: int, id: SocketId)
    requires k < |s.sockets| && !Terminal(s.snapshot.status)
    ensures var t := Handshake(s, k, m, now);
            && Calm(s, t, id) && t.inbox == s.inbox && Interrupted(s, t, k)
            && (s.endpoint.Some? && IsCommand(Decoded(m)) ==> t == Throw(s, k, NO_HANDSHAKE))
  {
    hide Enter, Finish, Replies, Keys;
    FinishIsCalm(s, k, Rejected, REJECTED, id);
    if m.Authenticated? {
      EnterIsCalm(s, k, m.welcome, id);
    }
  }

  lemma DispatchIsCalm(s: Session, k: SocketId, m: ServerMessage, now: int, id: SocketId)
    requires !IsCommand(Decoded(m))
    ensures var t := Dispatch(s, k, m, now); Calm(s, t, id) && t.inbox == s.inbox && Interrupted(s, t, k)
  {
    SeeIsCalm(s, [Sent(k, Pong)], id);
    hide Replies, Keys;
  }

  /** Messages other than commands, and messages of other sockets. */
  lemma OtherMessagesAreCalm(s: Session, k: SocketId, data: Inbound, now: int, id: SocketId)
    requires k < |s.sockets| && (k != id || !IsCommand(data))
    ensures var t := ReceiveMessage(s, k, data, now);
            Calm(s, t, id) && t.inbox == s.inbox && (s.socket == Some(id) ==> Interrupted(s, t, id))
  {
    hide Handshake, Dispatch, Replies, Keys, Calm;
    ItselfIsCalm(s, k, id);
    if data.Decoded? {
      if Waiting(s.snapshot.status) {
        HandshakeIsCalm(s, k, data.message, now, id);
      }
      if !IsCommand(data) {
        DispatchIsCalm(s, k, data.message, now, id);
      } else if s.socket == Some(k) {
        CommandsElsewhereAreCalm(s, k, data.message, now, id);
      }
    }
  }

  lemma ItselfIsCalm(s: Session, k: SocketId, id: SocketId)
    ensures Calm(s, s, id) && forall cause :: Calm(s, Throw(s, k, cause), id)
  {
  }

  /** A command on the current socket does not touch any other. */
  lemma CommandsElsewhereAreCalm(s: Session, k: SocketId, m: ServerMessage, now: int, id: SocketId)
    requires s.socket == Some(k) && k != id && IsCommand(Decoded(m))
    ensures var t := Dispatch(s, k, m, now); Calm(s, t, id) && t.inbox == s.inbox
  {
    hide Replies, Receive, Cancel;
    if m.AgentRequest? {
      ReceiveKeepsReplies(s, k, m.request, id);
    } else {
      CancelKeepsReplies(s, m.key, now, id);
    }
  }

  lemma ReceiveKeepsReplies(s: Session, k: SocketId, request: SessionModel.Request, id: SocketId)
    ensures var t := Receive(s, k, request);
            && Replies(t.trace, id) == Replies(s.trace, id) && t.inbox == s.inbox && t.socket == s.socket
            && t.sockets == s.sockets && t.endpoint == s.endpoint && t.snapshot.status == s.snapshot.status
            && (Enqueue(Keys(s.pending), request.key).Success? ==> t.receiving == s.receiving)
  {
    hide Keys;
    var t := Admit(s, k, request);
    RepliesSilent(s.trace, [Delivered(k, s.nextToken, request.key)], id);
    TryProcessIsCalm(t, k, |s.pending|, id);
    hide Replies, Enqueue;
  }

  lemma CancelKeepsReplies(s: Session, key: Key, now: int, id: SocketId)
    ensures var t := Cancel(s, key, now);
            && Replies(t.trace, id) == Replies(s.trace, id) && ChainKept(s, t) && t.socket == s.socket
            && t.sockets == s.sockets && t.endpoint == s.endpoint && t.snapshot.status == s.snapshot.status
  {
    hide Keys, Replies, RemoveAt;
    var i := IndexOf(s.pending, key);
    if i < |s.pending| {
      var outcome := if now >= s.pending[i].request.deadline then Expired else Canceled;
      RepliesSilent(s.trace, [Settled(s.pending[i].token, s.pending[i].request.key, outcome)], id);
    }
  }

  // ----- The session represents the protocol's client -----

  /**
   How a link's commands and replies are spread over the session and the wire:
   the command an error was thrown for, those read but not taken up, those still
   coming, and the replies that reached the server.
   */
  datatype Channel = Channel(
    held: seq<RemoteCommand>,
    waiting: seq<RemoteCommand>,
    coming: seq<RemoteCommand>,
    arrived: seq<Reply>)

  /** While the socket is live the link is open and buffer and channels agree; otherwise the link is closed. */
  ghost predicate Represents(s: Session, id: SocketId, c: Channel, link: Link) {
    && Sound(s) && id < |s.sockets|
    && Replies(s.trace, id) == c.arrived + link.up
    && if InUse(s, id) then Attached(s, id, c, link) else !link.open && link.buffer == {}
  }

  ghost predicate Attached(s: Session, id: SocketId, c: Channel, link: Link) {
    && link.open && link.buffer == Keys(s.pending)
    && Unread(s.inbox, id) == MessagesFor(c.waiting)
    && link.down == c.held + c.waiting + c.coming
    && (c.held != [] ==> s.receiving.Failing? && s.receiving.socket == id)
  }

  /** Commands reach the socket in the order in which they were sent. */
  predicate Feasible(c: Channel, id: SocketId, a: Action) {
    a.Arrives? && a.socket == id && IsCommand(a.data) ==> c.coming != [] && a.data.message == MessageFor(c.coming[0])
  }

  /** The handler's result is sent as a reply. */
  ghost predicate Answers(s: Session, h: Handler, result: Result<bytes, string>) {
    var i := IndexOf(s.pending, h.key);
    && result.Success? && s.socket == Some(h.socket) && i < |s.pending| && s.pending[i].token == h.token
    && CanSend(s, h.socket)
  }

  ghost predicate TakesCommand(s: Session, id: SocketId, a: Action) {
    a.ChainAdvances? && s.inbox != [] && s.inbox[0].0 == id && IsCommand(s.inbox[0].1)
  }

  function ClosedLink(link: Link): Link {
    link.(open := false, buffer := {})
  }

  /** What the protocol's client does when the session takes a step. */
  ghost function Counterpart(s: Session, id: SocketId, c: Channel, link: Link, a: Action): (Channel, Link)
    requires Grounded(s) && Enabled(s, a)
  {
    var t := Next(s, a);
    if !InUse(s, id) then (c, link)
    else if !InUse(t, id) then (c, ClosedLink(link))
    else if a.Arrives? && a.socket == id && IsCommand(a.data) && c.coming != [] then
      (c.(waiting := c.waiting + [c.coming[0]], coming := c.coming[1..]), link)
    else if TakesCommand(s, id, a) && c.waiting != [] && link.down != [] then
      if t.receiving.Failing? then (c.(held := [c.waiting[0]], waiting := c.waiting[1..]), link)
      else (c.(waiting := c.waiting[1..]), RemoteProtocol.Receive(link).0)
    else if a.HandlerEnds? && Answers(s, a.handler, a.result) then
      (c, link.(buffer := link.buffer - {a.handler.key}, up := link.up + [Reply(a.handler.key, a.result.value)]))
    else (c, link)
  }

  /** A stutter, a delivery without fault, a response or a close of the protocol's client. */
  ghost predicate ClientMove(link: Link, next: Link) {
    || next == link
    || (link.open && link.down != [] && RemoteProtocol.Receive(link) == (next, None))
    || (exists key: Key, packet: bytes ::
          link.open && key in link.buffer &&
          next == link.(buffer := link.buffer - {key}, up := link.up + [Reply(key, packet)]))
    || next == ClosedLink(link)
  }

  // ----- Step by step -----

  /** A calm step keeps the representation, or closes the link. */
  lemma CalmSimulates(s: Session, t: Session, id: SocketId, c: Channel, link: Link)
    requires Represents(s, id, c, link) && Sound(t) && Calm(s, t, id)
    requires InUse(t, id) ==>
               && Unread(t.inbox, id) == Unread(s.inbox, id)
               && (c.held != [] ==> t.receiving.Failing? && t.receiving.socket == id)
    ensures Represents(t, id, c, if InUse(s, id) && !InUse(t, id) then ClosedLink(link) else link)
  {
    hide Sound, Replies, Keys, Unread;
  }

  lemma AsideSimulates(s: Session, id: SocketId, c: Channel, link: Link, a: Action)
    requires Represents(s, id, c, link) && Grounded(s) && Enabled(s, a) && Aside(a) && Sound(Next(s, a))
    ensures var (d, next) := Counterpart(s, id, c, link, a);
            Represents(Next(s, a), id, d, next) && ClientMove(link, next)
  {
    hide Sound, Replies, Keys, Unread, Next, Attached, MessagesFor;
    AsidesAreCalm(s, a, id);
    if InUse(s, id) {
      HeldIsFailing(s, id, c, link);
    }
    CalmSimulates(s, Next(s, a), id, c, link);
  }

  lemma HeldIsFailing(s: Session, id: SocketId, c: Channel, link: Link)
    requires Attached(s, id, c, link)
    ensures c.held != [] ==> s.receiving.Failing? && s.receiving.socket == id
  {
  }

  lemma ArrivalSimulates(s: Session, id: SocketId, c: Channel, link: Link, a: Action)
    requires Represents(s, id, c, link) && Grounded(s) && Enabled(s, a) && a.Arrives? && Sound(Next(s, a))
    requires Feasible(c, id, a)
    ensures var (d, next) := Counterpart(s, id, c, link, a);
            Represents(Next(s, a), id, d, next) && ClientMove(link, next)
  {
    UnreadGrows(s.inbox, a.socket, a.data, id);
    if a.socket == id && IsCommand(a.data) {
      MoveFirst(c.held, c.waiting, c.coming);
    }
    hide Sound, Replies, Keys, Unread;
  }

  lemma MoveFirst(held: seq<RemoteCommand>, waiting: seq<RemoteCommand>, coming: seq<RemoteCommand>)
    requires coming != []
    ensures held + waiting + coming == held + (waiting + [coming[0]]) + coming[1..]
    ensures MessagesFor(waiting + [coming[0]]) == MessagesFor(waiting) + [MessageFor(coming[0])]
  {
  }

  lemma SaveSimulates(s: Session, id: SocketId, c: Channel, link: Link, a: Action)
    requires Represents(s, id, c, link) && Grounded(s) && Enabled(s, a) && a.SaveEnds? && Sound(Next(s, a))
    ensures var (d, next) := Counterpart(s, id, c, link, a);
            Represents(Next(s, a), id, d, next) && ClientMove(link, next)
  {
    SavedIsCalm(s, a.failed, id);
    hide Sound, Replies, Keys, Unread, PairingSaved;
    CalmSimulates(s, Next(s, a), id, c, link);
  }

  lemma SavedIsCalm(s: Session, failed: Option<string>, id: SocketId)
    requires Sound(s) && s.receiving.Saving?
    ensures var t := PairingSaved(s, failed); Calm(s, t, id) && t.inbox == s.inbox
  {
    hide Sound, Enter, Replies, Keys;
    if s.socket == Some(s.receiving.socket) {
      SavesWhileWaiting(s);
      var t := s.(receiving := Free, pairing := Some(s.receiving.record));
      EnterIsCalm(t, s.receiving.socket, s.receiving.welcome, id);
    }
  }

  lemma SavesWhileWaiting(s: Session)
    requires Sound(s) && s.receiving.Saving? && s.socket == Some(s.receiving.socket)
    ensures Waiting(s.snapshot.status)
  {
  }

  lemma FailureSimulates(s: Session, id: SocketId, c: Channel, link: Link, a: Action)
    requires Represents(s, id, c, link) && Grounded(s) && Enabled(s, a) && a.ChainFails? && Sound(Next(s, a))
    ensures var (d, next) := Counterpart(s, id, c, link, a);
            Represents(Next(s, a), id, d, next) && ClientMove(link, next)
  {
    var t := s.(receiving := Free);
    FailIsCalm(t, s.receiving.socket, s.receiving.cause, id);
    hide Sound, Replies, Keys, Unread, Fail;
    CalmSimulates(s, Next(s, a), id, c, link);
  }

  lemma AnswerSimulates(s: Session, id: SocketId, c: Channel, link: Link, a: Action)
    requires Represents(s, id, c, link) && Grounded(s) && Enabled(s, a) && a.HandlerEnds? && Sound(Next(s, a))
    ensures var (d, next) := Counterpart(s, id, c, link, a);
            Represents(Next(s, a), id, d, next) && ClientMove(link, next)
  {
    hide Sound, Replies, Keys, Unread, HandlerDone, Answers;
    HandlerKeeps(s, a.handler, a.result);
    if Answers(s, a.handler, a.result) {
      AnswerReplies(s, a.handler, a.result, id);
      AnswersLive(s, a.handler, a.result);
      var reply := Reply(a.handler.key, a.result.value);
      assert c.arrived + link.up + [reply] == c.arrived + (link.up + [reply]);
    } else {
      CalmSimulates(s, Next(s, a), id, c, link);
    }
  }

  lemma AnswersLive(s: Session, h: Handler, result: Result<bytes, string>)
    requires Sound(s) && Answers(s, h, result)
    ensures result.Success? && InUse(s, h.socket)
  {
    BufferedOnlyConnected(s);
  }

  /** An answer takes the key out of the buffer and sends one reply. */
  ghost predicate Replied(s: Session, t: Session, h: Handler, packet: bytes, id: SocketId) {
    && h.key in Keys(s.pending) && Keys(t.pending) == Keys(s.pending) - {h.key}
    && Replies(t.trace, id) == Replies(s.trace, id) + if h.socket == id then [Reply(h.key, packet)] else []
  }

  lemma AnswerReplies(s: Session, h: Handler, result: Result<bytes, string>, id: SocketId)
    requires Sound(s) && h in s.handlers && Answers(s, h, result)
    ensures Replied(s, HandlerDone(s, h, result), h, result.value, id)
  {
    var i := IndexOf(s.pending, h.key);
    HandlerAnswers(s, h, i, result.value);
    var e := Responded(h.socket, h.token, h.key, result.value);
    RepliesSnoc(s.trace, e, id);
    RepliesSilent(s.trace + [e], [Settled(s.pending[i].token, s.pending[i].request.key, Signed)], id);
    hide Sound, Replies, Keys, RemoveAt;
  }

  lemma HandlerKeeps(s: Session, h: Handler, result: Result<bytes, string>)
    ensures var t := HandlerDone(s, h, result);
            && ChainKept(s, t) && t.socket == s.socket && t.endpoint == s.endpoint && t.sockets == s.sockets
            && t.snapshot.status == s.snapshot.status
            && (!Answers(s, h, result) ==> t.pending == s.pending && t.trace == s.trace)
  {
    hide RemoveAt, Keys, IndexOf;
    var t := HandlerDone(s, h, result);
    if !Answers(s, h, result) {
      assert t == s.(handlers := t.handlers, failures := t.failures);
    } else {
      var u := See(s.(handlers := t.handlers), [Responded(h.socket, h.token, h.key, result.value)]);
      assert t == Settle(u, IndexOf(s.pending, h.key), Signed);
    }
  }

  lemma OtherMessageSimulates(s: Session, id: SocketId, c: Channel, link: Link, a: Action)
    requires Represents(s, id, c, link) && Grounded(s) && Enabled(s, a) && a.ChainAdvances? && Sound(Next(s, a))
    requires InUse(s, id) ==> !TakesCommand(s, id, a)
    ensures var (d, next) := Counterpart(s, id, c, link, a);
            Represents(Next(s, a), id, d, next) && ClientMove(link, next)
  {
    var k, data, u, t := s.inbox[0].0, s.inbox[0].1, s.(inbox := s.inbox[1..]), Next(s, a);
    assert InUse(s, id) ==> Unread(u.inbox, id) == Unread(s.inbox, id) && c.held == [];
    hide Sound, Unread, Replies, Keys, ReceiveMessage;
    if s.socket == Some(k) && InUse(s, k) {
      OtherMessagesAreCalm(u, k, data, a.now, id);
    } else {
      NotLive(u, k, data, a.now);
    }
    CalmSimulates(s, t, id, c, link);
  }

  /** Messages of other sockets and to a session that has given up have no effect but to be complained about. */
  lemma NotLive(s: Session, k: SocketId, data: Inbound, now: int)
    requires k < |s.sockets| && !InUse(s, k)
    ensures var t := ReceiveMessage(s, k, data, now); t == s.(receiving := t.receiving)
    ensures s.socket != Some(k) ==> ReceiveMessage(s, k, data, now) == s
  {
  }

  /** The buffer after a command, or the fault. */
  function Taken(buffer: set<Key>, command: RemoteCommand): Result<set<Key>, Fault> {
    if command.Request? then Enqueue(buffer, KeyOf(command)) else Success(buffer - {KeyOf(command)})
  }

  lemma ReceiveIsTaken(link: Link)
    requires link.down != []
    ensures RemoteProtocol.Receive(link) ==
            match Taken(link.buffer, link.down[0])
            case Success(buffer) => (link.(down := link.down[1..], buffer := buffer), None)
            case Failure(fault) => (link.(down := link.down[1..], buffer := {}, open := false), Some(fault))
  {
    hide Enqueue;
  }

  /** The session took a command up: connected, it did to its buffer what the protocol does, or threw the fault. */
  ghost predicate Took(s: Session, t: Session, id: SocketId, command: RemoteCommand) {
    && t.socket == s.socket && t.endpoint == s.endpoint && t.sockets == s.sockets && t.inbox == s.inbox
    && t.snapshot.status == s.snapshot.status && Replies(t.trace, id) == Replies(s.trace, id)
    && if !s.snapshot.status.Connected? then
         t.receiving == Failing(id, NO_HANDSHAKE) && Keys(t.pending) == Keys(s.pending)
       else
         match Taken(Keys(s.pending), command)
         case Success(buffer) => t.receiving.Free? && Keys(t.pending) == buffer
         case Failure(fault) => t.receiving == Failing(id, FaultText(fault)) && Keys(t.pending) == Keys(s.pending)
  }

  lemma RequestTook(s: Session, id: SocketId, command: RemoteCommand)
    requires Sound(s) && s.socket == Some(id) && s.snapshot.status.Connected? && s.receiving.Free? && command.Request?
    ensures Took(s, Receive(s, id, MessageFor(command).request), id, command)
  {
    var request := MessageFor(command).request;
    ReceiveIsSound(s, id, request);
    ReceiveKeepsReplies(s, id, request, id);
    ReceiveThrows(s, id, request);
    hide Sound, Receive, Replies, Keys, Enqueue;
  }

  lemma CancelTook(s: Session, id: SocketId, command: RemoteCommand, now: int)
    requires Sound(s) && s.snapshot.status.Connected? && s.receiving.Free? && command.CancelAttempt?
    ensures Took(s, Cancel(s, KeyOf(command), now), id, command)
  {
    CancelIsSound(s, KeyOf(command), now);
    CancelKeepsReplies(s, KeyOf(command), now, id);
    hide Sound, Cancel, Replies, Keys;
  }

  lemma EarlyTook(s: Session, id: SocketId, command: RemoteCommand, now: int)
    requires s.endpoint.Some? && Waiting(s.snapshot.status) && id < |s.sockets|
    ensures Took(s, Handshake(s, id, MessageFor(command), now), id, command)
  {
    HandshakeIsCalm(s, id, MessageFor(command), now, id);
    hide Handshake, Replies, Keys, Enqueue;
  }

  lemma CommandTook(s: Session, id: SocketId, command: RemoteCommand, now: int)
    requires Sound(s) && InUse(s, id) && s.receiving.Free? && id < |s.sockets|
    ensures Took(s, ReceiveMessage(s, id, Decoded(MessageFor(command)), now), id, command)
  {
    hide Sound, Took, Handshake, Receive, Cancel;
    SocketHasEndpoint(s);
    if !s.snapshot.status.Connected? {
      EarlyTook(s, id, command, now);
    } else if command.Request? {
      RequestTook(s, id, command);
    } else {
      CancelTook(s, id, command, now);
    }
  }

  lemma SocketHasEndpoint(s: Session)
    requires Sound(s) && s.socket.Some?
    ensures s.endpoint.Some?
  {
  }

  lemma ReceiveThrows(s: Session, id: SocketId, request: SessionModel.Request)
    ensures Enqueue(Keys(s.pending), request.key).Failure? ==>
              Receive(s, id, request) == Throw(s, id, FaultText(Enqueue(Keys(s.pending), request.key).error))
  {
  }

  lemma FirstWaiting(s: Session, c: Channel, id: SocketId)
    requires s.inbox != [] && s.inbox[0].0 == id && IsCommand(s.inbox[0].1) && Unread(s.inbox, id) == MessagesFor(c.waiting)
    ensures c.waiting != [] && s.inbox[0].1 == Decoded(MessageFor(c.waiting[0]))
    ensures Unread(s.inbox[1..], id) == MessagesFor(c.waiting[1..])
  {
    var ms := Unread(s.inbox, id);
    assert ms == [s.inbox[0].1.message] + Unread(s.inbox[1..], id);
    assert ms[0] == MessageFor(c.waiting[0]);
    assert ms[1..] == MessagesFor(c.waiting[1..]);
  }

  lemma CommandSimulates(s: Session, id: SocketId, c: Channel, link: Link, a: Action)
    requires Represents(s, id, c, link) && Grounded(s) && Enabled(s, a) && Sound(Next(s, a))
    requires InUse(s, id) && TakesCommand(s, id, a)
    ensures var (d, next) := Counterpart(s, id, c, link, a);
            Represents(Next(s, a), id, d, next) && ClientMove(link, next)
  {
    hide Sound, Unread, Replies, Keys, ReceiveMessage, Enqueue, MessageFor, MessagesFor, RemoteProtocol.Receive, Taken;
    var u, t := s.(inbox := s.inbox[1..]), Next(s, a);
    FirstWaiting(s, c, id);
    InboxIsFree(s);
    CommandTook(u, id, c.waiting[0], a.now);
    FirstOfAll(c.waiting, c.coming);
    assert [] + c.waiting + c.coming == c.waiting + c.coming;
    ReceiveIsTaken(link);
  }

  lemma FirstOfAll(waiting: seq<RemoteCommand>, coming: seq<RemoteCommand>)
    requires waiting != []
    ensures (waiting + coming)[0] == waiting[0] && (waiting + coming)[1..] == [] + waiting[1..] + coming
    ensures waiting + coming == [waiting[0]] + waiting[1..] + coming
  {
  }

  /**
   Every step of the session, whatever it is, is a step of the protocol's
   client: a stutter, a delivery without fault, a response or a close.
   */
  lemma Simulates(s: Session, id: SocketId, c: Channel, link: Link, a: Action)
    requires Represents(s, id, c, link) && Enabled(s, a) && Feasible(c, id, a)
    ensures Grounded(s)
    ensures var (d, next) := Counterpart(s, id, c, link, a);
            Represents(Next(s, a), id, d, next) && ClientMove(link, next)
  {
    NextIsSound(s, a);
    hide Represents, Next, Counterpart, ClientMove, Sound;
    match a
    case Arrives(_, _) => ArrivalSimulates(s, id, c, link, a);
    case ChainAdvances(_) =>
      if InUse(s, id) && TakesCommand(s, id, a) {
        CommandSimulates(s, id, c, link, a);
      } else {
        OtherMessageSimulates(s, id, c, link, a);
      }
    case SaveEnds(_) => SaveSimulates(s, id, c, link, a);
    case ChainFails => FailureSimulates(s, id, c, link, a);
    case HandlerEnds(_, _) => AnswerSimulates(s, id, c, link, a);
    case _ => AsideSimulates(s, id, c, link, a);
  }

  // ----- Sockets that no command was sent on -----

  /** Nothing was received on the socket that the protocol knows of, and nothing was answered. */
  ghost predicate Quiet(s: Session, id: SocketId) {
    Unread(s.inbox, id) == [] && Replies(s.trace, id) == [] && (s.socket == Some(id) ==> s.pending == [])
  }

  lemma CalmIsQuiet(s: Session, t: Session, id: SocketId)
    requires Quiet(s, id) && Calm(s, t, id) && Sound(t) && Unread(t.inbox, id) == []
    ensures Quiet(t, id)
  {
    BufferedOnlyConnected(t);
    hide Sound, Observes, UniqueKeys, Replies, Unread, Keys;
    NoKeys(s.pending);
    NoKeys(t.pending);
  }

  lemma NoKeys(p: seq<Buffered>)
    ensures Keys(p) == {} <==> p == []
  {
    if p != [] {
      assert p[0].request.key in Keys(p);
    }
  }

  lemma OpenerIsQuiet(s: Session, o: Opener, loaded: Result<Option<PairingRecord>, string>, created: Option<string>,
                      id: SocketId)
    requires Sound(s) && Quiet(s, id)
    ensures Quiet(OpenLoaded(s, o, loaded, created), id)
  {
    hide Sound, Replies, Unread;
    SocketHasBuffer(s);
    RepliesSilent(s.trace, [Created(|s.sockets|)], id);
  }

  lemma SocketHasBuffer(s: Session)
    requires Sound(s)
    ensures s.pending != [] ==> s.socket.Some?
  {
    BufferedOnlyConnected(s);
  }

  lemma HandlerIsQuiet(s: Session, h: Handler, result: Result<bytes, string>, id: SocketId)
    requires Sound(s) && h in s.handlers && Quiet(s, id)
    ensures Quiet(HandlerDone(s, h, result), id)
  {
    HandlerKeeps(s, h, result);
    if Answers(s, h, result) {
      AnswerReplies(s, h, result, id);
    }
    hide Sound, Replies, Unread, HandlerDone, Keys;
  }

  lemma AdvanceIsQuiet(s: Session, now: int, id: SocketId)
    requires Sound(s) && Quiet(s, id) && s.inbox != [] && s.inbox[0].0 < |s.sockets| && Sound(ReceiveNext(s, now))
    ensures Quiet(ReceiveNext(s, now), id)
  {
    var u := s.(inbox := s.inbox[1..]);
    assert Unread(s.inbox[1..], id) == [];
    hide Sound, Replies, Calm, ReceiveMessage;
    OtherMessagesAreCalm(u, s.inbox[0].0, s.inbox[0].1, now, id);
    CalmIsQuiet(u, ReceiveNext(s, now), id);
  }

  lemma ArrivalIsQuiet(s: Session, k: SocketId, data: Inbound, id: SocketId)
    requires Quiet(s, id) && !(k == id && IsCommand(data))
    ensures Quiet(MessageArrives(s, k, data), id)
  {
    UnreadGrows(s.inbox, k, data, id);
    hide Replies, Unread;
  }

  lemma SaveIsQuiet(s: Session, failed: Option<string>, id: SocketId)
    requires Sound(s) && s.receiving.Saving? && Quiet(s, id) && Sound(PairingSaved(s, failed))
    ensures Quiet(PairingSaved(s, failed), id)
  {
    hide Sound, Replies, Calm, PairingSaved;
    SavedIsCalm(s, failed, id);
    CalmIsQuiet(s, PairingSaved(s, failed), id);
  }

  lemma FailureIsQuiet(s: Session, id: SocketId)
    requires s.receiving.Failing? && s.receiving.socket < |s.sockets| && Quiet(s, id) && Sound(ReceiveFails(s))
    ensures Quiet(ReceiveFails(s), id)
  {
    hide Sound, Replies, Calm, Fail;
    var t := s.(receiving := Free);
    FailIsCalm(t, s.receiving.socket, s.receiving.cause, id);
    CalmIsQuiet(t, ReceiveFails(s), id);
  }

  lemma AsideIsQuiet(s: Session, a: Action, id: SocketId)
    requires Sound(s) && Grounded(s) && Enabled(s, a) && Aside(a) && Quiet(s, id) && Sound(Next(s, a))
    ensures Quiet(Next(s, a), id)
  {
    hide Sound, Replies, Calm, Unread, OpenLoaded;
    if a.OpenerResumes? {
      OpenerIsQuiet(s, a.opener, a.loaded, a.created, id);
    } else {
      hide Next;
      AsidesAreCalm(s, a, id);
      CalmIsQuiet(s, Next(s, a), id);
    }
  }

  lemma ChainParts(s: Session, a: Action)
    requires Grounded(s) && Enabled(s, a)
    ensures a.ChainAdvances? ==> s.inbox[0].0 < |s.sockets|
    ensures a.ChainFails? ==> s.receiving.socket < |s.sockets|
  {
  }

  /** A socket stays quiet until a command arrives on it. */
  lemma QuietStays(s: Session, a: Action, id: SocketId)
    requires Sound(s) && Grounded(s) && Enabled(s, a) && Quiet(s, id)
    requires !(a.Arrives? && a.socket == id && IsCommand(a.data))
    ensures Quiet(Next(s, a), id)
  {
    hide Sound, Quiet, Grounded;
    NextIsSound(s, a);
    if Aside(a) {
      hide Next, Enabled;
      AsideIsQuiet(s, a, id);
    } else {
      ChainParts(s, a);
      hide ReceiveNext, PairingSaved, ReceiveFails, HandlerDone;
      match a
      case Arrives(k, data) => ArrivalIsQuiet(s, k, data, id);
      case ChainAdvances(now) => AdvanceIsQuiet(s, now, id);
      case SaveEnds(failed) => SaveIsQuiet(s, failed, id);
      case ChainFails => FailureIsQuiet(s, id);
      case HandlerEnds(h, result) => HandlerIsQuiet(s, h, result, id);
    }
  }
}
