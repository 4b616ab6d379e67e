/** Requests, events and effects of the request broker. */
module BrokerTypes {
  import opened Basics

  type RequestId = nat
  type SessionId = nat
  type Instant = int

  /** Caller-provided explanation shared by the requests of one local connection. */
  datatype RequestContext = RequestContext(groupId: nat, reason: bytes, command: seq<bytes>)

  datatype RequestError = Unavailable | QueueFull | TimedOut | Cancelled

  type Answer = Result<bytes, RequestError>

  datatype Agent =
    | Disconnected
    | Locked(session: SessionId, capacity: nat)
    | Ready(session: SessionId, capacity: nat)
  {
    predicate Holds(id: SessionId) {
      !Disconnected? && session == id
    }
  }

  datatype Event =
    | Submit(
        requestId: RequestId,
        packet: bytes,
        context: Option<RequestContext>,
        deadline: Instant,
        requestedAt: nat,
        deadlineTimestamp: nat)
    | Connected(sessionId: SessionId, capacity: nat)
    | AgentReady(sessionId: SessionId)
    | AgentLocked(sessionId: SessionId)
    | SessionClosed(sessionId: SessionId)
    | Response(sessionId: SessionId, requestId: RequestId, attempt: nat, packet: bytes)
    | CancelRequest(requestId: RequestId)
    | Tick

  datatype Effect =
    | Dispatch(
        sessionId: SessionId,
        requestId: RequestId,
        attempt: nat,
        requestedAt: nat,
        deadline: nat,
        packet: bytes,
        context: Option<RequestContext>)
    | Cancel(sessionId: SessionId, requestId: RequestId, attempt: nat)
    | WakeRequired(reasons: seq<bytes>)
    | Complete(requestId: RequestId, result: Answer)

  /** Message for the active remote session. */
  datatype RemoteCommand =
    | Request(
        requestId: RequestId,
        attempt: nat,
        requestedAt: nat,
        deadline: nat,
        packet: bytes,
        context: Option<RequestContext>)
    | CancelAttempt(requestId: RequestId, attempt: nat)

  datatype ModelError = RemoteAlreadyConnected
}
