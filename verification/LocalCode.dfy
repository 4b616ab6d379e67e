/**
 The router's and the connection's code.  The answers due are objects that the
 broker completes in any order while the connection waits for the oldest.
 */
module LocalCode {
  import opened Basics
  import opened BrokerTypes
  import opened Pairing
  import opened LocalRouter
  import opened LocalConnection
  import ContextCodec

  class ConnectionRouter {
    const lib: Library
    var seen: nat
    var identityAnswer: Option<bytes>
    var context: Option<RequestContext>
    var acceptsContext: bool

    // The packets routed so far, without a refused last one.
    ghost var packets: seq<bytes>

    ghost function View(): Router
      reads this
    {
      Router(seen, identityAnswer, context, acceptsContext)
    }

    /** The context is the first packet's, and only the first packet can bring one. */
    ghost predicate Valid()
      reads this
    {
      context == FirstContext(packets) && acceptsContext == (packets == [])
    }

    constructor (lib: Library, seen: nat, identityAnswer: Option<bytes>)
      ensures Valid() && packets == [] && this.lib == lib && View() == Router(seen, identityAnswer, None, true)
    {
      this.lib, this.seen, this.identityAnswer := lib, seen, identityAnswer;
      context, acceptsContext, packets := None, true, [];
    }

    /** A router for a new connection; it fails exactly when the published identities have no encoding. */
    static method Accept(lib: Library, w: Watch, seen: nat) returns (r: Result<ConnectionRouter, RouteError>)
      ensures r.Success? <==> Encodable(lib, w.value)
      ensures r.Success? ==> fresh(r.value) && r.value.Valid() && r.value.packets == [] && r.value.lib == lib
      ensures r.Success? && seen <= w.version ==> Cached(lib, r.value.View(), w)
    {
      var answer :- Derive(lib, w.value);
      var router := new ConnectionRouter(lib, seen, answer);
      r := Success(router);
    }

    /** Take over changed identities. */
    method RefreshIdentityAnswer(w: Watch, closed: bool) returns (r: Result<(), RouteError>)
      modifies this`seen, this`identityAnswer
      ensures (View(), r) == Refresh(lib, old(View()), w, closed)
    {
      if closed || seen == w.version {
        return Success(());
      }
      seen := w.version;
      identityAnswer :- Derive(lib, w.value);
      r := Success(());
    }

    /** Classify a packet at once. */
    method Route(w: Watch, closed: bool, packet: bytes) returns (r: Result<Routed, RouteError>)
      requires Valid()
      modifies this
      ensures Valid() && (View(), r) == LocalRouter.Route(lib, old(View()), w, closed, packet)
      ensures packets == old(packets) + if r.Success? then [packet] else []
      ensures r.Success? && r.value.Forward? ==> r.value == Forward(packet, FirstContext(packets))
      ensures Encodable(lib, w.value) && old(Cached(lib, View(), w)) ==>
                Cached(lib, View(), w) && r != Failure(UnencodableIdentities)
      ensures Encodable(lib, w.value) && old(Cached(lib, View(), w)) && !closed && IsIdentityRequest(packet) ==>
                r == Success(if w.value.Some? then Immediate(lib.answer(w.value.value).value)
                             else Forward(packet, context))
    {
      hide ContextCodec.DecodePacket, IsIdentityRequest, IsSessionBind, Cached;
      if Encodable(lib, w.value) && Cached(lib, View(), w) {
        RouteKeepsCached(lib, View(), w, closed, packet);
        if !closed && IsIdentityRequest(packet) {
          IdentityAnswerIsPublished(lib, View(), w, packet);
        }
      }
      FirstContextGrows(packets, packet);
      var refreshed :- RefreshIdentityAnswer(w, closed);
      hide Derive;
      var decoded := ContextCodec.Decode(packet);
      if decoded.Failure? {
        return Failure(InvalidContext(decoded.error));
      }
      if decoded.value.Some? {
        if !acceptsContext {
          return Failure(LateContext);
        }
        packets := packets + [packet];
        context := decoded.value;
        acceptsContext := false;
        return Success(Immediate(SUCCESS_FRAME));
      }
      packets := packets + [packet];
      acceptsContext := false;
      if IsIdentityRequest(packet) && identityAnswer.Some? {
        return Success(Immediate(identityAnswer.value));
      }
      if IsSessionBind(packet) {
        return Success(Immediate(FAILURE_FRAME));
      }
      r := Success(Forward(packet, context));
    }
  }

  lemma FirstContextGrows(packets: seq<bytes>, packet: bytes)
    ensures packets != [] ==> FirstContext(packets + [packet]) == FirstContext(packets)
    ensures packets == [] ==> packets + [packet] == [packet]
  {
    if packets != [] {
      assert (packets + [packet])[0] == packets[0];
    }
  }

  /** An answer to come; whoever holds it may complete it, once. */
  class Response {
    var result: Option<Result<bytes, RequestError>>

    constructor (result: Option<Result<bytes, RequestError>>)
      ensures this.result == result
    {
      this.result := result;
    }
  }

  /** The loop that serves one connection, one turn at a time. */
  class ConnectionTask {
    const router: ConnectionRouter
    var responses: seq<Response>
    var written: seq<bytes>
    var closed: bool

    // The result of every packet taken so far, in the order of the packets.
    ghost var results: seq<Option<Result<bytes, RequestError>>>

    ghost function View(): Connection
      reads this, router, responses
    {
      Connection(router.View(), Values(responses), written, |results|, closed)
    }

    /** Answers come in order: what is due are the last packets' results, and the others have been written. */
    ghost predicate Valid()
      reads this, router, responses
    {
      router.Valid() && NoDuplicates(responses) && InOrder(View(), results)
    }

    constructor (router: ConnectionRouter)
      requires router.Valid()
      ensures Valid() && View() == NewConnection(router.View()) && this.router == router && results == []
    {
      this.router := router;
      responses, written, closed, results := [], [], false, [];
    }

    /** Tell the peer unless an earlier answer is still due, and close. */
    method Refuse()
      requires Valid() && !closed
      modifies this`written, this`closed
      ensures Valid() && closed
      ensures written == old(written) + if responses == [] then [FAILURE_FRAME] else []
    {
      RefuseInOrder(View(), results);
      hide InOrder;
      if |responses| == 0 {
        written := written + [FAILURE_FRAME];
      }
      closed := true;
      assert View() == LocalConnection.Refuse(old(View()));
    }

    method PacketArrives(w: Watch, watchClosed: bool, packet: bytes)
      requires Valid() && !closed
      modifies this, router
      ensures Valid() && View() == LocalConnection.PacketArrives(router.lib, old(View()), w, watchClosed, packet)
      ensures fresh(Elements(responses) - old(Elements(responses)))
      ensures closed ==> results == old(results)
      ensures !closed ==>
                && router.packets == old(router.packets) + [packet]
                && exists r: Routed :: results == old(results) + [PendingFor(r).result]
                     && (r.Forward? ==> r == Forward(packet, FirstContext(router.packets)))
    {
      hide LocalRouter.Route, Cached, InOrder, FirstContext;
      if |responses| >= MAX_PIPELINED_REQUESTS {
        ClosingInOrder(View(), router.View(), results);
        closed := true;
        return;
      }
      var routed := router.Route(w, watchClosed, packet);
      RerouteInOrder(old(View()), router.View(), results);
      if routed.Failure? {
        Refuse();
        return;
      }
      AcceptInOrder(old(View()), router.View(), PendingFor(routed.value), results);
      var response := new Response(PendingFor(routed.value).result);
      ValuesGrow(responses, response);
      responses := responses + [response];
      results := results + [response.result];
    }

    /** The broker completes an answer that is still due, whichever it is. */
    method Completes(response: Response, result: Result<bytes, RequestError>) returns (ghost i: nat)
      requires Valid() && !closed && response in responses && response.result.None?
      modifies response, this`results
      ensures Valid()
      ensures i < |responses| && responses[i] == response
      ensures View() == LocalConnection.Completes(old(View()), i, result)
      ensures |responses| <= |old(results)| && results == old(results)[|old(results)| - |responses| + i := Some(result)]
    {
      DueFits(View(), results);
      hide InOrder, NoDuplicates;
      i :| i < |responses| && responses[i] == response;
      CompleteInOrder(View(), i, result, results);
      OnlyOne(responses, i);
      results := results[Position(View(), i) := Some(result)];
      response.result := Some(result);
      assert Values(responses) == old(Values(responses))[i := Pending(Some(result))];
      assert View() == LocalConnection.Completes(old(View()), i, result);
    }

    /** Write the oldest answer. */
    method WriteNext()
      requires Valid() && !closed && responses != [] && responses[0].result.Some?
      modifies this`responses, this`written
      ensures Valid() && View() == LocalConnection.WriteNext(old(View()))
      ensures |written| == old(|written|) + 1 && written[..|written| - 1] == old(written)
      ensures |written| <= |results| && results[|written| - 1].Some?
      ensures written[|written| - 1] == FrameFor(results[|written| - 1].value)
    {
      WriteInOrder(View(), results);
      written := written + [FrameFor(responses[0].result.value)];
      responses := responses[1..];
      assert Values(responses) == old(Values(responses))[1..];
    }
  }

  ghost function Values(responses: seq<Response>): (values: seq<Pending>)
    reads responses
    ensures |values| == |responses|
    ensures forall i | 0 <= i < |responses| :: values[i] == Pending(responses[i].result)
  {
    seq(|responses|, i requires 0 <= i < |responses| reads responses => Pending(responses[i].result))
  }

  lemma OnlyOne<T>(s: seq<T>, i: nat)
    requires NoDuplicates(s) && i < |s|
    ensures forall j | 0 <= j < |s| && j != i :: s[j] != s[i]
  {
  }

  lemma DueFits(c: Connection, results: seq<Option<Result<bytes, RequestError>>>)
    requires InOrder(c, results)
    ensures |c.responses| <= c.accepted == |results|
  {
  }

  lemma ValuesGrow(responses: seq<Response>, response: Response)
    ensures Values(responses + [response]) == Values(responses) + [Pending(response.result)]
  {
  }
}
