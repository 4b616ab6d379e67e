/**
 The client's session with one server as a state and its transitions.  Each
 transition is a stretch of the session's code between two suspension points;
 suspended work (openers, the receive chain, request handlers, pairing
 deletions) is part of the state, so every interleaving is a sequence of
 transitions.
 */
module SessionModel {
  import opened Basics
  import opened LinkReplay
  import opened ClientConduct
  import BrokerTypes

  datatype Status = Connecting | Connected | Reconnecting | Rejected | Errored

  datatype Snapshot = Snapshot(
    status: Status,
    serverId: Option<string>,
    sessionId: Option<string>,
    vapidKey: Option<bytes>,
    pendingRequests: nat,
    error: Option<string>)

  datatype PairingRecord = PairingRecord(
    endpoint: string,
    serverId: string,
    clientId: string,
    credential: bytes,
    clientLabel: string,
    pairedAt: int)

  datatype Request = Request(
    key: Key,
    requestedAt: int,
    deadline: int,
    packet: bytes,
    context: Option<BrokerTypes.RequestContext>)

  /** A buffered request; `token` stands for the identity of the entry. */
  datatype Buffered = Buffered(request: Request, token: Token, processing: bool)

  datatype ReadyState = Opening | Open | Closing

  /** A WebSocket with the values its listeners captured. */
  datatype Socket = Socket(state: ReadyState, pairing: Option<PairingRecord>, clientLabel: string)

  datatype Welcome = Welcome(serverId: string, sessionId: string, vapidKey: bytes)

  datatype ServerMessage =
    | Ping
    | AgentRequest(request: Request)
    | CancelRequest(key: Key)
    | Paired(welcome: Welcome, clientId: string, credential: bytes)
    | Authenticated(welcome: Welcome)
    | RejectedByServer

  datatype Inbound = NotBinary | Undecodable(error: string) | Decoded(message: ServerMessage)

  /** What the chain that serialises inbound messages is waiting for. */
  datatype Receiving =
    | Free
    | Saving(socket: SocketId, record: PairingRecord, welcome: Welcome)
    | Failing(socket: SocketId, cause: string)

  datatype Opener = Opener(generation: nat, endpoint: string, clientLabel: string)

  datatype Handler = Handler(socket: SocketId, key: Key, token: Token)

  datatype Session = Session(
    early: Request -> bool,
    socket: Option<SocketId>,
    endpoint: Option<string>,
    clientLabel: Option<string>,
    pairing: Option<PairingRecord>,
    ready: bool,
    identities: seq<(bytes, string)>,
    active: bool,
    retryTimer: bool,
    generation: nat,
    pending: seq<Buffered>,
    snapshot: Snapshot,
    sockets: seq<Socket>,
    nextToken: Token,
    openers: set<Opener>,
    inbox: seq<(SocketId, Inbound)>,
    receiving: Receiving,
    handlers: set<Handler>,
    failures: set<(Handler, string)>,
    forgets: multiset<string>,
    trace: seq<Observed>)

  const NOT_OPEN: string := "WebSocket is not open"
  const NOT_BINARY: string := "expected a binary WebSocket message"
  const LATE_HANDSHAKE: string := "received a handshake message after authentication"
  const REJECTED: string := "server rejected the connection"
  const ALREADY_PAIRED: string := "server paired an already-known client"
  const WRONG_SERVER: string := "server identity does not match the stored pairing"
  const NO_HANDSHAKE: string := "expected a handshake response"
  const DUPLICATE: string := "received a duplicate agent request"
  const FULL: string := "remote request buffer is full"

  ghost function NewSession(early: Request -> bool): Session {
    Session(early, None, None, None, None, false, [], true, false, 0, [],
            Snapshot(Connecting, None, None, None, 0, None), [], 0, {}, [], Free, {}, {}, multiset{}, [])
  }

  predicate Waiting(status: Status) {
    status.Connecting? || status.Reconnecting?
  }

  predicate Terminal(status: Status) {
    status.Rejected? || status.Errored?
  }

  // ----- The buffer, in order of arrival -----

  function Keys(p: seq<Buffered>): set<Key> {
    set b | b in p :: b.request.key
  }

  /** Where a key is buffered, or the length of the buffer. */
  function IndexOf(p: seq<Buffered>, key: Key): (i: nat)
    ensures i <= |p| && (i < |p| ==> p[i].request.key == key)
    ensures key in Keys(p) <==> i < |p|
  {
    if p == [] then 0
    else if p[0].request.key == key then 0
    else
      assert p == [p[0]] + p[1..];
      1 + IndexOf(p[1..], key)
  }

  function RemoveAt<T>(p: seq<T>, i: nat): seq<T>
    requires i < |p|
  {
    p[..i] + p[i + 1..]
  }

  // ----- Closing -----

  ghost function See(s: Session, es: seq<Observed>): Session {
    s.(trace := s.trace + es)
  }

  ghost function Farewell(s: SocketId, wasConnected: bool): seq<Observed> {
    if wasConnected then [Closed(s), Left] else [Closed(s)]
  }

  ghost function Publish(s: Session, status: Status, error: Option<string>): Session {
    s.(snapshot := Snapshot(status, None, None, None, s.snapshot.pendingRequests, error))
  }

  ghost function Clear(s: Session): Session {
    s.(pending := [], snapshot := s.snapshot.(pendingRequests := 0))
  }

  ghost function CloseAt(sockets: seq<Socket>, id: SocketId): seq<Socket>
    requires id < |sockets|
  {
    sockets[id := sockets[id].(state := Closing)]
  }

  /** Close a socket that is no longer current, announcing the exit if it was connected. */
  ghost function Shut(s: Session, id: SocketId, wasConnected: bool): Session
    requires id < |s.sockets|
  {
    See(s.(sockets := CloseAt(s.sockets, id)), Farewell(id, wasConnected))
  }

  ghost function CloseSocket(s: Session): Session
    requires s.socket.Some? ==> s.socket.value < |s.sockets|
  {
    var t := Clear(s.(generation := s.generation + 1, socket := None, pairing := None));
    if s.socket.Some? then Shut(t, s.socket.value, s.snapshot.status.Connected?) else t
  }

  ghost function Finish(s: Session, id: SocketId, status: Status, error: string): Session
    requires id < |s.sockets|
  {
    if s.socket != Some(id) then s
    else
      Shut(Publish(Clear(s.(socket := None, retryTimer := false)), status, Some(error)), id,
           s.snapshot.status.Connected?)
  }

  ghost function ScheduleRetry(s: Session): Session {
    s.(retryTimer := s.retryTimer || (s.active && s.endpoint.Some?))
  }

  ghost function ConnectionLost(s: Session, id: SocketId): Session
    requires id < |s.sockets|
  {
    if s.socket != Some(id) then s
    else
      ScheduleRetry(Shut(Publish(Clear(s.(socket := None)), Reconnecting, None), id, s.snapshot.status.Connected?))
  }

  ghost function Fail(s: Session, id: SocketId, cause: string): Session
    requires id < |s.sockets|
  {
    if s.sockets[id].state.Open? then Finish(s, id, Errored, cause) else ConnectionLost(s, id)
  }

  // ----- Lifecycle -----

  ghost function Attempt(s: Session): Session {
    if !s.active || s.endpoint.None? || s.clientLabel.None? || s.socket.Some? then s
    else
      s.(generation := s.generation + 1,
         openers := s.openers + {Opener(s.generation + 1, s.endpoint.value, s.clientLabel.value)})
  }

  ghost function Connect(s: Session, endpoint: string, clientLabel: string): Session
    requires s.socket.Some? ==> s.socket.value < |s.sockets|
  {
    var wanted := s.(endpoint := Some(endpoint), clientLabel := Some(clientLabel), active := true, retryTimer := false);
    Attempt(Publish(CloseSocket(wanted), Connecting, None))
  }

  ghost function SetActive(s: Session, active: bool): Session
    requires s.socket.Some? ==> s.socket.value < |s.sockets|
  {
    var t := s.(active := active, retryTimer := false);
    if Terminal(s.snapshot.status) then t
    else if !active then Publish(CloseSocket(t), Reconnecting, None)
    else if s.socket.Some? then t
    else Attempt(Publish(t, Reconnecting, None))
  }

  ghost function OpenFailed(s: Session, o: Opener, cause: string): Session {
    if o.generation == s.generation then Publish(s, Errored, Some(cause)) else s
  }

  /** An opener resumes with what the pairing store and the socket constructor returned. */
  ghost function OpenLoaded(s: Session, o: Opener, loaded: Result<Option<PairingRecord>, string>,
                            created: Option<string>): Session
  {
    var t := s.(openers := s.openers - {o});
    if loaded.Failure? then OpenFailed(t, o, loaded.error)
    else if o.generation != t.generation || !t.active || t.socket.Some? then t
    else if created.Some? then OpenFailed(t, o, created.value)
    else Adopt(t, loaded.value, o.clientLabel)
  }

  /** A newly created socket becomes the current one. */
  ghost function Adopt(s: Session, pairing: Option<PairingRecord>, clientLabel: string): Session {
    var id := |s.sockets|;
    See(s.(pairing := pairing, socket := Some(id), sockets := s.sockets + [Socket(Opening, pairing, clientLabel)]),
        [Created(id)])
  }

  ghost function ForgetPairing(s: Session, endpoint: string): Session
    requires s.socket.Some? ==> s.socket.value < |s.sockets|
  {
    var t := Publish(CloseSocket(s.(retryTimer := false)), Reconnecting, None);
    t.(forgets := t.forgets + multiset{endpoint})
  }

  ghost function ForgetDone(s: Session, endpoint: string, deleted: bool): Session {
    var t := s.(forgets := s.forgets - multiset{endpoint});
    if deleted && Some(endpoint) == t.endpoint && t.active then Attempt(t) else t
  }

  ghost function RetryFires(s: Session): Session {
    Attempt(s.(retryTimer := false))
  }

  // ----- Sockets -----

  predicate CanSend(s: Session, id: SocketId) {
    s.socket == Some(id) && id < |s.sockets| && s.sockets[id].state.Open?
  }

  function Greeting(k: Socket): Message {
    if k.pairing.Some? then Authenticate(k.pairing.value.clientId, k.pairing.value.credential)
    else PairRequest(k.clientLabel)
  }

  ghost function SocketOpened(s: Session, id: SocketId): Session
    requires id < |s.sockets|
  {
    var t := s.(sockets := s.sockets[id := s.sockets[id].(state := Open)]);
    if CanSend(t, id) then See(t, [Sent(id, Greeting(t.sockets[id]))]) else Fail(t, id, NOT_OPEN)
  }

  ghost function SocketDrops(s: Session, id: SocketId): Session
    requires id < |s.sockets|
  {
    s.(sockets := CloseAt(s.sockets, id))
  }

  ghost function MessageArrives(s: Session, id: SocketId, data: Inbound): Session {
    s.(inbox := s.inbox + [(id, data)])
  }

  // ----- Requests -----

  ghost function TryProcess(s: Session, id: SocketId, i: nat): Session
    requires i < |s.pending|
  {
    var b := s.pending[i];
    if b.processing || (!s.ready && !s.early(b.request)) then s
    else
      See(s.(pending := s.pending[i := b.(processing := true)],
             handlers := s.handlers + {Handler(id, b.request.key, b.token)}),
          [Handed(b.token, b.request.key)])
  }

  /** Offer the first `n` buffered requests for processing. */
  ghost function Drain(s: Session, id: SocketId, n: nat): (t: Session)
    requires n <= |s.pending|
    ensures |t.pending| == |s.pending|
  {
    if n == 0 then s else TryProcess(Drain(s, id, n - 1), id, n - 1)
  }

  ghost function Throw(s: Session, id: SocketId, cause: string): Session {
    s.(receiving := Failing(id, cause))
  }

  ghost function Caught(s: Session, id: SocketId, thrown: Option<string>): Session {
    if thrown.Some? then Throw(s, id, thrown.value) else s
  }

  function FaultText(f: Fault): string {
    match f
    case DuplicateRequest => DUPLICATE
    case BufferFull => FULL
  }

  /** Append a request to the buffer. */
  ghost function Admit(s: Session, id: SocketId, request: Request): Session {
    See(s.(pending := s.pending + [Buffered(request, s.nextToken, false)],
           nextToken := s.nextToken + 1,
           snapshot := s.snapshot.(pendingRequests := |s.pending| + 1)),
        [Delivered(id, s.nextToken, request.key)])
  }

  ghost function Receive(s: Session, id: SocketId, request: Request): Session {
    match Enqueue(Keys(s.pending), request.key)
    case Failure(fault) => Throw(s, id, FaultText(fault))
    case Success(_) => TryProcess(Admit(s, id, request), id, |s.pending|)
  }

  /** Take entry `i` out of the buffer, reporting how it ended. */
  ghost function Settle(s: Session, i: nat, outcome: Outcome): Session
    requires i < |s.pending|
  {
    See(s.(pending := RemoveAt(s.pending, i), snapshot := s.snapshot.(pendingRequests := |s.pending| - 1)),
        [Settled(s.pending[i].token, s.pending[i].request.key, outcome)])
  }

  ghost function Cancel(s: Session, key: Key, now: int): Session {
    var i := IndexOf(s.pending, key);
    if i == |s.pending| then s
    else Settle(s, i, if now >= s.pending[i].request.deadline then Expired else Canceled)
  }

  /** A handler's result arrives: answer only if the very same entry is still buffered on the same socket. */
  ghost function HandlerDone(s: Session, h: Handler, result: Result<bytes, string>): Session {
    var t := s.(handlers := s.handlers - {h});
    var i := IndexOf(s.pending, h.key);
    if result.Failure? then t.(failures := t.failures + {(h, result.error)})
    else if s.socket != Some(h.socket) || i == |s.pending| || s.pending[i].token != h.token then t
    else if !CanSend(s, h.socket) then t.(failures := t.failures + {(h, NOT_OPEN)})
    else Settle(See(t, [Responded(h.socket, h.token, h.key, result.value)]), i, Signed)
  }

  ghost function HandlerFails(s: Session, f: (Handler, string)): Session
    requires f.0.socket < |s.sockets|
  {
    var t := Fail(s, f.0.socket, f.1);
    t.(failures := t.failures - {f})
  }

  // ----- Messages -----

  function Report(ready: bool): Message {
    if ready then ReportReady else ReportLocked
  }

  ghost function Welcomed(s: Session, id: SocketId, w: Welcome): Session {
    See(s.(snapshot := Snapshot(Connected, Some(w.serverId), Some(w.sessionId), Some(w.vapidKey),
                                s.snapshot.pendingRequests, None)), [Entered(id)])
  }

  /** Authentication succeeded: publish, introduce the agent, and offer what is buffered. */
  ghost function Enter(s: Session, id: SocketId, w: Welcome): Session {
    var t := Welcomed(s, id, w);
    if CanSend(t, id)
    then Drain(See(t, [Sent(id, SetIdentities(t.identities)), Sent(id, Report(t.ready))]), id, |t.pending|)
    else Throw(t, id, NOT_OPEN)
  }

  ghost function Handshake(s: Session, id: SocketId, m: ServerMessage, now: int): Session
    requires id < |s.sockets|
  {
    if s.endpoint.None? then s
    else
      match m
      case RejectedByServer => Finish(s, id, Rejected, REJECTED)
      case Paired(w, clientId, credential) =>
        if s.pairing.Some? then Throw(s, id, ALREADY_PAIRED)
        else
          s.(receiving := Saving(id, PairingRecord(s.endpoint.value, w.serverId, clientId, credential,
                                                   s.sockets[id].clientLabel, now), w))
      case Authenticated(w) =>
        if s.pairing.None? || w.serverId != s.pairing.value.serverId then Throw(s, id, WRONG_SERVER)
        else Enter(s, id, w)
      case _ => Throw(s, id, NO_HANDSHAKE)
  }

  ghost function Dispatch(s: Session, id: SocketId, m: ServerMessage, now: int): Session {
    match m
    case Ping => if CanSend(s, id) then See(s, [Sent(id, Pong)]) else Throw(s, id, NOT_OPEN)
    case AgentRequest(request) => Receive(s, id, request)
    case CancelRequest(key) => Cancel(s, key, now)
    case _ => Throw(s, id, LATE_HANDSHAKE)
  }

  /** Route one message, unless its socket was replaced meanwhile. */
  ghost function ReceiveMessage(s: Session, id: SocketId, data: Inbound, now: int): Session
    requires id < |s.sockets|
  {
    if s.socket != Some(id) then s
    else
      match data
      case NotBinary => Throw(s, id, NOT_BINARY)
      case Undecodable(error) => Throw(s, id, error)
      case Decoded(m) =>
        if Waiting(s.snapshot.status) then Handshake(s, id, m, now)
        else if !s.snapshot.status.Connected? then s
        else Dispatch(s, id, m, now)
  }

  /** The chain takes up the next message. */
  ghost function ReceiveNext(s: Session, now: int): Session
    requires s.inbox != [] && s.inbox[0].0 < |s.sockets|
  {
    ReceiveMessage(s.(inbox := s.inbox[1..]), s.inbox[0].0, s.inbox[0].1, now)
  }

  ghost function PairingSaved(s: Session, failed: Option<string>): Session
    requires s.receiving.Saving?
  {
    var Saving(id, record, w) := s.receiving;
    var t := s.(receiving := Free);
    if failed.Some? then Throw(t, id, failed.value)
    else if t.socket != Some(id) then t
    else Enter(t.(pairing := Some(record)), id, w)
  }

  ghost function ReceiveFails(s: Session): Session
    requires s.receiving.Failing? && s.receiving.socket < |s.sockets|
  {
    Fail(s.(receiving := Free), s.receiving.socket, s.receiving.cause)
  }

  // ----- The agent's side -----

  ghost function SetReady(s: Session, ready: bool): Session {
    var t := s.(ready := ready);
    if t.socket.None? || !t.snapshot.status.Connected? || !CanSend(t, t.socket.value) then t
    else
      var u := See(t, [Sent(t.socket.value, Report(ready))]);
      if ready then Drain(u, u.socket.value, |u.pending|) else u
  }

  /** A message that only goes out while connected: push registrations and identity updates. */
  ghost function Tell(s: Session, m: Message): Session {
    if s.socket.None? || !s.snapshot.status.Connected? || !CanSend(s, s.socket.value) then s
    else See(s, [Sent(s.socket.value, m)])
  }

  ghost function ReplaceIdentities(s: Session, identities: seq<(bytes, string)>): Session {
    Tell(s.(identities := identities), SetIdentities(identities))
  }
}
