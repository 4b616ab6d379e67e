/**
 One local connection: packets are routed as they arrive, their answers come
 back in any order, and they are written in the order of the packets.
 */
module LocalConnection {
  import opened Basics
  import opened BrokerTypes
  import opened Pairing
  import opened LocalRouter

  const MAX_PIPELINED_REQUESTS: nat := 8

  /** An answer that has been asked for, and its result once there is one. */
  datatype Pending = Pending(result: Option<Result<bytes, RequestError>>)

  /** `accepted` counts the packets taken so far; `written` is what the peer has been sent. */
  datatype Connection = Connection(
    router: Router,
    responses: seq<Pending>,
    written: seq<bytes>,
    accepted: nat,
    closed: bool)

  /** What is written for a result. */
  function FrameFor(result: Result<bytes, RequestError>): bytes {
    match result
    case Success(frame) => frame
    case Failure(_) => FAILURE_FRAME
  }

  function NewConnection(router: Router): Connection {
    Connection(router, [], [], 0, false)
  }

  /** Refuse what arrived: tell the peer unless an earlier answer is still due, and close. */
  function Refuse(c: Connection): Connection {
    c.(closed := true, written := if c.responses == [] then c.written + [FAILURE_FRAME] else c.written)
  }

  function PendingFor(routed: Routed): Pending {
    match routed
    case Immediate(frame) => Pending(Some(Success(frame)))
    case Forward(_, _) => Pending(None)
  }

  function PacketArrives(lib: Library, c: Connection, w: Watch, closed: bool, packet: bytes): Connection {
    if |c.responses| >= MAX_PIPELINED_REQUESTS then c.(closed := true)
    else
      var (router, routed) := Route(lib, c.router, w, closed, packet);
      match routed
      case Failure(_) => Refuse(c.(router := router))
      case Success(routed) =>
        c.(router := router, responses := c.responses + [PendingFor(routed)], accepted := c.accepted + 1)
  }

  /** The broker answers the `i`th request that is still due. */
  function Completes(c: Connection, i: nat, result: Result<bytes, RequestError>): Connection
    requires i < |c.responses|
  {
    c.(responses := c.responses[i := Pending(Some(result))])
  }

  function WriteNext(c: Connection): Connection
    requires c.responses != [] && c.responses[0].result.Some?
  {
    c.(written := c.written + [FrameFor(c.responses[0].result.value)], responses := c.responses[1..])
  }

  // ----- Runs -----

  datatype Step =
    | Arrives(watch: Watch, watchClosed: bool, packet: bytes)
    | FrameError
    | End
    | Answered(index: nat, result: Result<bytes, RequestError>)
    | Writes

  /** A request is answered once; answers are written from the front. */
  predicate Enabled(c: Connection, step: Step) {
    && !c.closed
    && match step
       case Answered(i, _) => i < |c.responses| && c.responses[i].result.None?
       case Writes => c.responses != [] && c.responses[0].result.Some?
       case _ => true
  }

  function Next(lib: Library, c: Connection, step: Step): Connection
    requires Enabled(c, step)
  {
    match step
    case Arrives(w, closed, packet) => PacketArrives(lib, c, w, closed, packet)
    case FrameError => Refuse(c)
    case End => c.(closed := true)
    case Answered(i, result) => Completes(c, i, result)
    case Writes => WriteNext(c)
  }

  ghost predicate IsRun(lib: Library, router: Router, run: seq<Step>)
    decreases |run|, 0
  {
    run == [] ||
    var n := |run| - 1;
    IsRun(lib, router, run[..n]) && Enabled(At(lib, router, run[..n]), run[n])
  }

  ghost function At(lib: Library, router: Router, run: seq<Step>): Connection
    requires IsRun(lib, router, run)
    decreases |run|, 1
  {
    if run == [] then NewConnection(router)
    else
      var n := |run| - 1;
      Next(lib, At(lib, router, run[..n]), run[n])
  }

  /**
   The result each accepted packet was given, by position: local answers when
   the packet was routed, broker answers when they came in.
   */
  ghost function Results(lib: Library, router: Router, run: seq<Step>): seq<Option<Result<bytes, RequestError>>>
    requires IsRun(lib, router, run)
    decreases |run|
  {
    if run == [] then []
    else
      var n := |run| - 1;
      var c, before := At(lib, router, run[..n]), Results(lib, router, run[..n]);
      match run[n]
      case Arrives(w, closed, packet) =>
        if |c.responses| >= MAX_PIPELINED_REQUESTS then before
        else
          (match Route(lib, c.router, w, closed, packet).1
           case Success(routed) => before + [PendingFor(routed).result]
           case Failure(_) => before)
      case Answered(i, result) =>
        var k := Position(c, i);
        if k < |before| then before[k := Some(result)] else before
      case _ => before
  }

  /** Which packet the `i`th answer due belongs to. */
  function Position(c: Connection, i: nat): nat {
    if |c.responses| <= c.accepted then c.accepted - |c.responses| + i else i
  }

  /** The answers due are the last packets' results; the others have been written, in order. */
  ghost predicate InOrder(c: Connection, results: seq<Option<Result<bytes, RequestError>>>) {
    && |results| == c.accepted && |c.responses| <= MAX_PIPELINED_REQUESTS && |c.responses| <= c.accepted
    && var done := c.accepted - |c.responses|;
       && (forall i | 0 <= i < |c.responses| :: c.responses[i].result == results[done + i])
       && (forall i | 0 <= i < done :: results[i].Some?)
       && done <= |c.written| <= done + 1
       && (forall i | 0 <= i < done :: c.written[i] == FrameFor(results[i].value))
       && (|c.written| == done + 1 ==> c.closed && c.responses == [] && c.written[done] == FAILURE_FRAME)
  }

  lemma RefuseInOrder(c: Connection, results: seq<Option<Result<bytes, RequestError>>>)
    requires InOrder(c, results) && !c.closed
    ensures InOrder(Refuse(c), results)
  {
  }

  lemma AcceptInOrder(c: Connection, router: Router, pending: Pending,
                      results: seq<Option<Result<bytes, RequestError>>>)
    requires InOrder(c, results) && !c.closed && |c.responses| < MAX_PIPELINED_REQUESTS
    ensures InOrder(c.(router := router, responses := c.responses + [pending], accepted := c.accepted + 1),
                    results + [pending.result])
  {
  }

  lemma CompleteInOrder(c: Connection, i: nat, result: Result<bytes, RequestError>,
                        results: seq<Option<Result<bytes, RequestError>>>)
    requires InOrder(c, results) && i < |c.responses|
    ensures Position(c, i) < |results| && InOrder(Completes(c, i, result), results[Position(c, i) := Some(result)])
  {
  }

  lemma WriteInOrder(c: Connection, results: seq<Option<Result<bytes, RequestError>>>)
    requires InOrder(c, results) && !c.closed && c.responses != [] && c.responses[0].result.Some?
    ensures InOrder(WriteNext(c), results)
  {
  }

  /**
   Under every interleaving, the peer has been sent the in-order answers to a
   prefix of its packets, perhaps followed by one failure frame for the very
   next one; and at most eight answers are due.
   */
  lemma {:induction false} AnswersInOrder(lib: Library, router: Router, run: seq<Step>)
    requires IsRun(lib, router, run)
    ensures InOrder(At(lib, router, run), Results(lib, router, run))
  {
    if run != [] {
      var n := |run| - 1;
      AnswersInOrder(lib, router, run[..n]);
      var c, before := At(lib, router, run[..n]), Results(lib, router, run[..n]);
      hide Route, InOrder, FrameFor, IsRun;
      match run[n]
      case Arrives(w, closed, packet) =>
        if |c.responses| >= MAX_PIPELINED_REQUESTS {
          ClosingInOrder(c, c.router, before);
        } else {
          var routed := Route(lib, c.router, w, closed, packet);
          if routed.1.Success? {
            AcceptInOrder(c, routed.0, PendingFor(routed.1.value), before);
          } else {
            RerouteInOrder(c, routed.0, before);
            RefuseInOrder(c.(router := routed.0), before);
          }
        }
      case FrameError => RefuseInOrder(c, before);
      case End => ClosingInOrder(c, c.router, before);
      case Answered(i, result) => CompleteInOrder(c, i, result, before);
      case Writes => WriteInOrder(c, before);
    }
  }

  lemma RerouteInOrder(c: Connection, router: Router, results: seq<Option<Result<bytes, RequestError>>>)
    requires InOrder(c, results)
    ensures InOrder(c.(router := router), results)
  {
  }

  lemma ClosingInOrder(c: Connection, router: Router, results: seq<Option<Result<bytes, RequestError>>>)
    requires InOrder(c, results)
    ensures InOrder(c.(closed := true), results)
  {
  }

  /** What was written stays written, and a result once given is final. */
  lemma StepsOnlyAdd(lib: Library, router: Router, run: seq<Step>, step: Step)
    requires IsRun(lib, router, run + [step]) && IsRun(lib, router, run)
    ensures At(lib, router, run).written <= At(lib, router, run + [step]).written
    ensures var before, after := Results(lib, router, run), Results(lib, router, run + [step]);
            |before| <= |after| && forall i | 0 <= i < |before| && before[i].Some? :: after[i] == before[i]
  {
    var longer := run + [step];
    assert longer[..|longer| - 1] == run && longer[|run|] == step;
    AnswersInOrder(lib, router, run);
    hide Route;
  }
}
