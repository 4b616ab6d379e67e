/**
 Routing the packets of one local connection: the context it opened with, the
 cached identities answer, and what is passed on to the broker.
 */
module LocalRouter {
  import opened Basics
  import opened BrokerTypes
  import opened Wire
  import opened Pairing
  import ContextCodec

  const FAILURE_FRAME: bytes := [0, 0, 0, 1, 5]
  const SUCCESS_FRAME: bytes := [0, 0, 0, 1, 6]
  const IDENTITY_REQUEST: bytes := [11]

  /** "session-bind@openssh.com" */
  const SESSION_BIND: bytes := [
    0x73, 0x65, 0x73, 0x73, 0x69, 0x6F, 0x6E, 0x2D, 0x62, 0x69, 0x6E, 0x64, 0x40, 0x6F, 0x70, 0x65, 0x6E, 0x73, 0x73,
    0x68, 0x2E, 0x63, 0x6F, 0x6D]

  predicate IsIdentityRequest(packet: bytes) {
    ContextCodec.Framed(packet) && packet[4..] == IDENTITY_REQUEST
  }

  predicate IsSessionBind(packet: bytes) {
    && ContextCodec.Framed(packet) && |packet| > 4 && packet[4] == 27
    && TakeBlob(packet[5..]).Some? && TakeBlob(packet[5..]).value.0 == SESSION_BIND
  }

  datatype RouteError = UnencodableIdentities | InvalidContext(error: ContextCodec.ContextError) | LateContext

  /** An answer at hand, or a request for the broker. */
  datatype Routed = Immediate(frame: bytes) | Forward(packet: bytes, context: Option<RequestContext>)

  /** A connection's router; `seen` is the version of the identities it last took over. */
  datatype Router = Router(
    seen: nat,
    identityAnswer: Option<bytes>,
    context: Option<RequestContext>,
    acceptsContext: bool)

  function Derive(lib: Library, identities: Option<Identities>): Result<Option<bytes>, RouteError> {
    if identities.None? then Success(None)
    else
      match lib.answer(identities.value)
      case None => Failure(UnencodableIdentities)
      case Some(answer) => Success(Some(answer))
  }

  /** A router for a new connection; it inherits what the shared receiver has seen. */
  function NewRouter(lib: Library, w: Watch, seen: nat): Result<Router, RouteError> {
    var answer :- Derive(lib, w.value);
    Success(Router(seen, answer, None, true))
  }

  /** Take over changed identities; a closed watch never reports a change. */
  function Refresh(lib: Library, r: Router, w: Watch, closed: bool): (Router, Result<(), RouteError>) {
    if closed || r.seen == w.version then (r, Success(()))
    else
      match Derive(lib, w.value)
      case Failure(error) => (r.(seen := w.version), Failure(error))
      case Success(answer) => (r.(seen := w.version, identityAnswer := answer), Success(()))
  }

  function Route(lib: Library, r: Router, w: Watch, closed: bool, packet: bytes): (Router, Result<Routed, RouteError>) {
    var (current, refreshed) := Refresh(lib, r, w, closed);
    if refreshed.Failure? then (current, Failure(refreshed.error))
    else Classify(current, packet)
  }

  function Classify(r: Router, packet: bytes): (Router, Result<Routed, RouteError>) {
    match ContextCodec.DecodePacket(packet)
    case Failure(error) => (r, Failure(InvalidContext(error)))
    case Success(Some(received)) =>
      if r.acceptsContext
      then (r.(context := Some(received), acceptsContext := false), Success(Immediate(SUCCESS_FRAME)))
      else (r, Failure(LateContext))
    case Success(None) =>
      var t := r.(acceptsContext := false);
      if IsIdentityRequest(packet) && r.identityAnswer.Some? then (t, Success(Immediate(r.identityAnswer.value)))
      else if IsSessionBind(packet) then (t, Success(Immediate(FAILURE_FRAME)))
      else (t, Success(Forward(packet, r.context)))
  }

  // ----- The cache agrees with what is published -----

  ghost predicate Cached(lib: Library, r: Router, w: Watch) {
    && r.seen <= w.version
    && (r.seen == w.version ==> Derive(lib, w.value) == Success(r.identityAnswer))
  }

  lemma NewRouterIsCached(lib: Library, w: Watch, seen: nat)
    requires Encodable(lib, w.value) && seen <= w.version
    ensures NewRouter(lib, w, seen).Success? && Cached(lib, NewRouter(lib, w, seen).value, w)
  {
  }

  /** Routing keeps the cache in step, and published identities never fail to encode. */
  lemma RouteKeepsCached(lib: Library, r: Router, w: Watch, closed: bool, packet: bytes)
    requires Encodable(lib, w.value) && Cached(lib, r, w)
    ensures Cached(lib, Route(lib, r, w, closed, packet).0, w)
    ensures Route(lib, r, w, closed, packet).1 != Failure(UnencodableIdentities)
  {
  }

  /** Replacing the published identities leaves every router behind, until it routes again. */
  lemma PublishKeepsCached(lib: Library, r: Router, s: Service)
    requires s.applying.Some? && Cached(lib, r, s.published)
    ensures Cached(lib, r, Apply(s).published)
  {
  }

  /** An identity request answered locally gets the answer for the published identities. */
  lemma IdentityAnswerIsPublished(lib: Library, r: Router, w: Watch, packet: bytes)
    requires Encodable(lib, w.value) && Cached(lib, r, w)
    requires IsIdentityRequest(packet)
    ensures var (_, routed) := Route(lib, r, w, false, packet);
            if w.value.Some? then routed == Success(Immediate(lib.answer(w.value.value).value))
            else routed == Success(Forward(packet, r.context))
  {
  }

  // ----- Every router against every run of the pairing service -----

  /** The pairing service with one connection's router, which may open at any time. */
  datatype Setup = Setup(pairing: Pairing.System, router: Option<Router>)

  datatype Step = PairingStep(action: Pairing.Action) | Accept(seen: nat) | Packet(packet: bytes)

  predicate Enabled(y: Setup, step: Step) {
    match step
    case PairingStep(a) => Pairing.Enabled(y.pairing, a)
    case Accept(seen) => y.router.None? && seen <= y.pairing.service.published.version
    case Packet(_) => y.router.Some?
  }

  function Next(lib: Library, y: Setup, step: Step): Setup
    requires Enabled(y, step)
  {
    var w := y.pairing.service.published;
    match step
    case PairingStep(a) => y.(pairing := Pairing.Next(lib, y.pairing, a))
    case Accept(seen) =>
      (match NewRouter(lib, w, seen)
       case Success(r) => y.(router := Some(r))
       case Failure(_) => y)
    case Packet(packet) => y.(router := Some(Route(lib, y.router.value, w, false, packet).0))
  }

  ghost predicate Inv(lib: Library, serverId: ServerId, y: Setup) {
    && Consistent(lib, serverId, y.pairing)
    && (y.router.Some? ==> Cached(lib, y.router.value, y.pairing.service.published))
  }

  lemma NextKeepsInv(lib: Library, serverId: ServerId, y: Setup, step: Step)
    requires Inv(lib, serverId, y) && Enabled(y, step)
    ensures Inv(lib, serverId, Next(lib, y, step))
  {
    var s := y.pairing.service;
    match step
    case PairingStep(a) =>
      NextIsConsistent(lib, serverId, y.pairing, a);
      if a.TakeEffect? && y.router.Some? {
        PublishKeepsCached(lib, y.router.value, s);
      }
    case Accept(seen) => NewRouterIsCached(lib, s.published, seen);
    case Packet(packet) =>
      hide Route;
      RouteKeepsCached(lib, y.router.value, s.published, false, packet);
  }

  ghost predicate IsRun(lib: Library, start: Service, run: seq<Step>)
    decreases |run|, 0
  {
    run == [] ||
    var n := |run| - 1;
    IsRun(lib, start, run[..n]) && Enabled(At(lib, start, run[..n]), run[n])
  }

  ghost function At(lib: Library, start: Service, run: seq<Step>): Setup
    requires IsRun(lib, start, run)
    decreases |run|, 1
  {
    if run == [] then Setup(Pairing.Start(start), None)
    else
      var n := |run| - 1;
      Next(lib, At(lib, start, run[..n]), run[n])
  }

  lemma {:induction false} RunsKeepInv(lib: Library, start: Service, run: seq<Step>)
    requires IsRun(lib, start, run) && Consistent(lib, start.state.serverId, Pairing.Start(start))
    ensures Inv(lib, start.state.serverId, At(lib, start, run))
  {
    if run != [] {
      var n := |run| - 1;
      RunsKeepInv(lib, start, run[..n]);
      hide Inv, Next, Enabled;
      NextKeepsInv(lib, start.state.serverId, At(lib, start, run[..n]), run[n]);
    }
  }

  /** All the pairing steps of a run. */
  ghost function PairingSteps(run: seq<Step>): seq<Pairing.Action> {
    if run == [] then []
    else
      var n := |run| - 1;
      PairingSteps(run[..n]) + if run[n].PairingStep? then [run[n].action] else []
  }

  /** The pairing service does not notice the router. */
  lemma {:induction false} PairingRunsAlone(lib: Library, start: Service, run: seq<Step>)
    requires IsRun(lib, start, run)
    ensures Pairing.IsRun(lib, start, PairingSteps(run))
    ensures At(lib, start, run).pairing == Pairing.At(lib, start, PairingSteps(run))
  {
    if run != [] {
      var n := |run| - 1;
      PairingRunsAlone(lib, start, run[..n]);
      hide Pairing.Next, Pairing.Enabled, Route, NewRouter;
      var steps := PairingSteps(run[..n]);
      if run[n].PairingStep? {
        assert (steps + [run[n].action])[..|steps|] == steps;
      } else {
        assert steps + [] == steps;
      }
    }
  }

  /**
   Whenever an identity request is routed, after any run of pairing operations,
   the local answer encodes the identities in memory.  Once they took effect
   these are the last ones whose save was confirmed, and the persisted ones
   exactly unless the last operation to replace the store changed them and was
   reported as failed.
   */
  lemma AnswersArePersisted(lib: Library, start: Service, run: seq<Step>, packet: bytes)
    requires IsRun(lib, start, run) && Consistent(lib, start.state.serverId, Pairing.Start(start))
    requires At(lib, start, run).router.Some? && IsIdentityRequest(packet)
    ensures var y := At(lib, start, run);
            var s := y.pairing.service;
            var current := IdentitiesOf(s.state);
            && Encodable(lib, current)
            && Route(lib, y.router.value, s.published, false, packet).1 ==
               (if current.Some? then Success(Immediate(lib.answer(current.value).value))
                else Success(Forward(packet, y.router.value.context)))
            && (s.applying.None? ==> s.state == LastConfirmed(start.state, y.pairing.journal))
            && Pairing.IsRun(lib, start, PairingSteps(run))
            && var w := LastWriter(lib, start, PairingSteps(run));
               s.applying.None? && start.applying.None? ==>
                 (current == IdentitiesOf(s.stored) <==>
                  !(Diverges(lib, w) && ChangesIdentities(w.value.memory, w.value.operation)))
  {
    RunsKeepInv(lib, start, run);
    PairingRunsAlone(lib, start, run);
    if start.applying.None? {
      StoredIsMemoryExactly(lib, start, PairingSteps(run));
    }
    Pairing.RunsAreConsistent(lib, start, PairingSteps(run));
    var y := At(lib, start, run);
    hide Route, Derive, IsIdentityRequest;
    IdentityAnswerIsPublished(lib, y.router.value, y.pairing.service.published, packet);
  }

  // ----- The context is fixed by the first packet -----

  /** The context a connection opened with. */
  function FirstContext(packets: seq<bytes>): Option<RequestContext> {
    if packets == [] then None
    else
      match ContextCodec.DecodePacket(packets[0])
      case Success(received) => received
      case Failure(_) => None
  }

  /** The router after packets that were all accepted, whatever was published meanwhile. */
  ghost predicate After(lib: Library, first: Router, packets: seq<bytes>, r: Router)
    decreases |packets|
  {
    if packets == [] then r == first
    else
      var n := |packets| - 1;
      exists before: Router, w: Watch, closed: bool ::
        && After(lib, first, packets[..n], before)
        && Route(lib, before, w, closed, packets[n]).1.Success?
        && Route(lib, before, w, closed, packets[n]).0 == r
  }

  lemma {:induction false} ContextFollowsFirst(lib: Library, first: Router, packets: seq<bytes>, r: Router)
    requires first.context.None? && first.acceptsContext && After(lib, first, packets, r)
    ensures r.context == FirstContext(packets) && r.acceptsContext == (packets == [])
    decreases |packets|
  {
    if packets != [] {
      var n := |packets| - 1;
      var before: Router, w: Watch, closed: bool :|
        && After(lib, first, packets[..n], before)
        && Route(lib, before, w, closed, packets[n]).1.Success?
        && Route(lib, before, w, closed, packets[n]).0 == r;
      ContextFollowsFirst(lib, first, packets[..n], before);
      hide ContextCodec.DecodePacket, IsIdentityRequest, IsSessionBind, Derive;
      if n > 0 {
        assert packets[..n][0] == packets[0];
      }
    }
  }

  /** Every forwarded request carries the context of the connection's first packet, and that only. */
  lemma ForwardedContext(lib: Library, first: Router, packets: seq<bytes>, r: Router, w: Watch, closed: bool,
                         packet: bytes)
    requires first.context.None? && first.acceptsContext && After(lib, first, packets, r)
    requires var (_, routed) := Route(lib, r, w, closed, packet); routed.Success? && routed.value.Forward?
    ensures Route(lib, r, w, closed, packet).1.value == Forward(packet, FirstContext(packets + [packet]))
  {
    ContextFollowsFirst(lib, first, packets, r);
    hide ContextCodec.DecodePacket, IsIdentityRequest, IsSessionBind, Derive, After;
    if packets != [] {
      assert (packets + [packet])[0] == packets[0];
    }
  }
}
