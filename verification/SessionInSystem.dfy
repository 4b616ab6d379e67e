/**
 The whole: the broker, its links, and the session itself in place of the
 protocol's client, from the start and over all its reconnections.  Each socket
 the server accepts is one end of a link of its own.  What holds of every run of
 the protocol holds of every run of the whole.
 */
module SessionInSystem {
  import opened Basics
  import opened BrokerTypes
  import opened LinkReplay
  import opened ClientConduct
  import opened SessionModel
  import opened SessionSafety
  import opened ClientRefinement
  import SessionRuns
  import Ledger
  import LedgerEffects
  import LedgerHistory
  import RemoteProtocol
  import RemoteSafety

  /** What a socket is an end of: the broker's session, and what is under way. */
  datatype End = End(session: SessionId, channel: Channel)

  datatype Whole = Whole(system: RemoteProtocol.System, client: Session, ends: map<SocketId, End>)

  /** A step of the server or of other clients, the server accepting a socket of the session, or a step of the session. */
  datatype Step =
    | Server(action: RemoteProtocol.Action)
    | Accept(socket: SocketId, session: SessionId, capacity: nat, now: Instant)
    | Client(move: SessionRuns.Action)

  ghost function Start(max: nat, early: Request -> bool): Whole {
    Whole(RemoteProtocol.Opening(max), NewSession(early), map[])
  }

  /** Every accepted socket represents its link, links are not shared, and other sockets are quiet. */
  ghost predicate Joined(system: RemoteProtocol.System, client: Session, ends: map<SocketId, End>) {
    && (forall id <- ends :: ends[id].session in system.links)
    && (forall id <- ends :: Represents(client, id, ends[id].channel, system.links[ends[id].session]))
    && (forall a, b | a in ends && b in ends && a != b :: ends[a].session != ends[b].session)
    && (forall id: SocketId | id !in ends :: Quiet(client, id))
  }

  ghost predicate Inv(w: Whole) {
    RemoteSafety.Inv(w.system) && Sound(w.client) && Joined(w.system, w.client, w.ends)
  }

  // ----- Steps -----

  ghost predicate IsEnd(ends: map<SocketId, End>, session: SessionId) {
    exists id <- ends :: ends[id].session == session
  }

  /** Commands reach a socket in the order in which they were sent on its link. */
  ghost predicate InOrder(ends: map<SocketId, End>, m: SessionRuns.Action) {
    m.Arrives? && IsCommand(m.data) ==> m.socket in ends && Feasible(ends[m.socket].channel, m.socket, m)
  }

  /** The clients' part on the session's links is the session's to play. */
  ghost predicate Enabled(w: Whole, step: Step) {
    match step
    case Server(a) =>
      && RemoteProtocol.Enabled(w.system, a)
      && ((a.Deliver? || a.Respond? || a.ClientCloses?) ==> !IsEnd(w.ends, a.session))
    case Accept(socket, session, capacity, now) =>
      && RemoteProtocol.Enabled(w.system, RemoteProtocol.Connect(session, capacity, now))
      && socket < |w.client.sockets| && socket !in w.ends
    case Client(m) => SessionRuns.Enabled(w.client, m) && InOrder(w.ends, m)
  }

  /** New commands are coming, and a reply that the broker takes has arrived. */
  ghost function Follow(c: Channel, link: Link, taken: bool, next: Link): Channel {
    c.(coming := if |link.down| <= |next.down| then c.coming + next.down[|link.down|..] else c.coming,
       arrived := if taken && link.up != [] then c.arrived + [link.up[0]] else c.arrived)
  }

  ghost predicate Takes(a: RemoteProtocol.Action, session: SessionId) {
    a.DeliverReply? && a.session == session
  }

  /** What a step of the server means for the ends. */
  ghost function FollowAll(ends: map<SocketId, End>, before: map<SessionId, Link>, a: RemoteProtocol.Action,
                           after: map<SessionId, Link>): map<SocketId, End>
    requires forall id <- ends :: ends[id].session in before && ends[id].session in after
  {
    map id | id in ends ::
      var session := ends[id].session;
      End(session, Follow(ends[id].channel, before[session], Takes(a, session), after[session]))
  }

  ghost predicate Linked(w: Whole) {
    forall id <- w.ends :: w.ends[id].session in w.system.links
  }

  ghost function ServerNext(w: Whole, a: RemoteProtocol.Action): Whole
    requires Linked(w) && RemoteProtocol.Enabled(w.system, a)
  {
    var system := RemoteProtocol.Next(w.system, a).0;
    LinksStay(w, a);
    Whole(system, w.client, FollowAll(w.ends, w.system.links, a, system.links))
  }

  /** A socket that is no longer live when the server accepts it is closed at once. */
  ghost function AcceptNext(w: Whole, socket: SocketId, session: SessionId, capacity: nat, now: Instant): Whole
    requires Linked(w) && RemoteProtocol.Enabled(w.system, RemoteProtocol.Connect(session, capacity, now))
  {
    var next := ServerNext(w, RemoteProtocol.Connect(session, capacity, now));
    if !w.system.broker.agent.Disconnected? || session !in next.system.links then next
    else
      var link := next.system.links[session];
      next.(system := if InUse(w.client, socket) then next.system
                      else RemoteProtocol.Next(next.system, RemoteProtocol.ClientCloses(session)).0,
            ends := next.ends[socket := End(session, Channel([], [], link.down, []))])
  }

  ghost function ClientNext(w: Whole, m: SessionRuns.Action): Whole
    requires Linked(w) && SessionRuns.Grounded(w.client) && SessionRuns.Enabled(w.client, m)
  {
    var client := SessionRuns.Next(w.client, m);
    if w.client.socket.None? || w.client.socket.value !in w.ends then w.(client := client)
    else
      var id := w.client.socket.value;
      var End(session, c) := w.ends[id];
      var (channel, link) := Counterpart(w.client, id, c, w.system.links[session], m);
      Whole(w.system.(links := w.system.links[session := link]), client, w.ends[id := End(session, channel)])
  }

  ghost function Next(w: Whole, step: Step): Whole
    requires Linked(w) && SessionRuns.Grounded(w.client) && Enabled(w, step)
  {
    match step
    case Server(a) => ServerNext(w, a)
    case Accept(socket, session, capacity, now) => AcceptNext(w, socket, session, capacity, now)
    case Client(m) => ClientNext(w, m)
  }

  // ----- The server's side -----

  /** The server only appends to a link's commands and takes replies from the front. */
  ghost predicate Extends(link: Link, taken: bool, next: Link) {
    && |link.down| <= |next.down| && next.down[..|link.down|] == link.down
    && next.buffer == link.buffer && next.open == link.open
    && if taken then link.up != [] && next.up == link.up[1..] else next.up == link.up
  }

  lemma BrokerStepExtends(y: RemoteProtocol.System, e: Event, now: Instant, session: SessionId)
    requires session in y.links
    ensures var links := RemoteProtocol.BrokerStep(y, e, now).links;
            session in links && Extends(y.links[session], false, links[session])
  {
    hide Ledger.Step, RemoteProtocol.Commands;
  }

  lemma ServerExtends(y: RemoteProtocol.System, a: RemoteProtocol.Action, session: SessionId)
    requires session in y.links && RemoteProtocol.Enabled(y, a)
    requires (a.Deliver? || a.Respond? || a.ClientCloses?) ==> a.session != session
    ensures var links := RemoteProtocol.Next(y, a).0.links;
            session in links && Extends(y.links[session], Takes(a, session), links[session])
  {
    hide RemoteProtocol.BrokerStep, RemoteProtocol.Receive, RemoteProtocol.Keys;
    match a
    case Local(e, now) => BrokerStepExtends(y, e, now, session);
    case Connect(other, capacity, now) =>
      if y.broker.agent.Disconnected? {
        var started := y.(links := y.links[other := RemoteProtocol.NewLink(capacity, y.broker.maxPending)]);
        BrokerStepExtends(started, Event.Connected(other, capacity), now, session);
      } else {
        BrokerStepExtends(RemoteProtocol.DropRecalls(y, now), Event.Connected(other, capacity), now, session);
      }
    case ServerCloses(closed, now) => BrokerStepExtends(y, SessionClosed(closed), now, session);
    case DeliverReply(from, now) =>
      var link := y.links[from];
      var reply := link.up[0];
      BrokerStepExtends(y.(links := y.links[from := link.(up := link.up[1..])]),
                        Response(from, reply.key.requestId, reply.key.attempt, reply.packet), now, session);
    case _ =>
  }

  lemma LinkStays(y: RemoteProtocol.System, a: RemoteProtocol.Action, session: SessionId)
    requires session in y.links && RemoteProtocol.Enabled(y, a)
    ensures session in RemoteProtocol.Next(y, a).0.links
  {
    hide Ledger.Step, RemoteProtocol.Commands, RemoteProtocol.Receive, RemoteProtocol.Keys;
  }

  lemma LinksStay(w: Whole, a: RemoteProtocol.Action)
    requires Linked(w) && RemoteProtocol.Enabled(w.system, a)
    ensures forall id <- w.ends :: w.ends[id].session in RemoteProtocol.Next(w.system, a).0.links
  {
    forall id <- w.ends
      ensures w.ends[id].session in RemoteProtocol.Next(w.system, a).0.links
    {
      LinkStays(w.system, a, w.ends[id].session);
    }
  }

  /** The session does not notice the server's steps; only what is under way changes. */
  lemma FollowRepresents(s: Session, id: SocketId, c: Channel, link: Link, taken: bool, next: Link)
    requires Represents(s, id, c, link) && Extends(link, taken, next)
    ensures Represents(s, id, Follow(c, link, taken, next), next)
  {
    hide Sound, Replies, Keys, Unread, MessagesFor;
    assert next.down == link.down + next.down[|link.down|..];
    var more := next.down[|link.down|..];
    assert c.held + c.waiting + c.coming + more == c.held + c.waiting + (c.coming + more);
    if taken {
      assert link.up == [link.up[0]] + link.up[1..];
      assert c.arrived + link.up == c.arrived + [link.up[0]] + link.up[1..];
    }
  }

  lemma ServerKeepsInv(w: Whole, a: RemoteProtocol.Action)
    requires Inv(w) && Linked(w) && RemoteProtocol.Enabled(w.system, a)
    requires (a.Deliver? || a.Respond? || a.ClientCloses?) ==> !IsEnd(w.ends, a.session)
    ensures Inv(ServerNext(w, a))
  {
    hide RemoteProtocol.Next, RemoteProtocol.Enabled, RemoteSafety.Inv, Sound, Represents, Follow, Extends, Quiet, Takes;
    RemoteSafety.NextKeepsInv(w.system, a);
    LinksStay(w, a);
    var system := RemoteProtocol.Next(w.system, a).0;
    forall id <- w.ends
      ensures var End(session, c) := w.ends[id];
              Represents(w.client, id, Follow(c, w.system.links[session], Takes(a, session), system.links[session]),
                         system.links[session])
    {
      var End(session, c) := w.ends[id];
      assert (a.Deliver? || a.Respond? || a.ClientCloses?) ==> a.session != session;
      ServerExtends(w.system, a, session);
      FollowRepresents(w.client, id, c, w.system.links[session], Takes(a, session), system.links[session]);
    }
  }

  // ----- Accepting a socket -----

  /** The link of a session that has just been accepted. */
  lemma NewLinkBegins(y: RemoteProtocol.System, session: SessionId, capacity: nat, now: Instant)
    requires y.broker.agent.Disconnected? && session !in y.links
    ensures var links := RemoteProtocol.Next(y, RemoteProtocol.Connect(session, capacity, now)).0.links;
            session in links && links[session].open && links[session].buffer == {} && links[session].up == []
  {
    hide RemoteProtocol.BrokerStep;
    var started := y.(links := y.links[session := RemoteProtocol.NewLink(capacity, y.broker.maxPending)]);
    BrokerStepExtends(started, Event.Connected(session, capacity), now, session);
  }

  /** A quiet socket represents a new link, closed at once where the socket is not live. */
  lemma Begins(s: Session, id: SocketId, link: Link)
    requires Sound(s) && Quiet(s, id) && id < |s.sockets|
    requires link.open && link.buffer == {} && link.up == []
    ensures Represents(s, id, Channel([], [], link.down, []), if InUse(s, id) then link else ClosedLink(link))
  {
    hide Sound, Replies, Unread;
    assert Keys([]) == {};
    assert [] + [] + link.down == link.down;
  }

  lemma AcceptKeepsInv(w: Whole, socket: SocketId, session: SessionId, capacity: nat, now: Instant)
    requires Inv(w) && Linked(w) && Enabled(w, Accept(socket, session, capacity, now))
    ensures Inv(AcceptNext(w, socket, session, capacity, now))
  {
    var a := RemoteProtocol.Connect(session, capacity, now);
    ServerKeepsInv(w, a);
    var next := ServerNext(w, a);
    if w.system.broker.agent.Disconnected? {
      NewLinkBegins(w.system, session, capacity, now);
      assert forall id <- next.ends :: next.ends[id].session != session;
      hide RemoteProtocol.BrokerStep, ServerNext;
      AttachKeepsInv(next, socket, session);
    }
  }

  /** A link that is no end yet becomes one. */
  lemma AttachKeepsInv(w: Whole, socket: SocketId, session: SessionId)
    requires Inv(w) && session in w.system.links && !IsEnd(w.ends, session)
    requires socket < |w.client.sockets| && socket !in w.ends
    requires var link := w.system.links[session]; link.open && link.buffer == {} && link.up == []
    ensures var y := if InUse(w.client, socket) then w.system
                     else RemoteProtocol.Next(w.system, RemoteProtocol.ClientCloses(session)).0;
            Inv(Whole(y, w.client, w.ends[socket := End(session, Channel([], [], w.system.links[session].down, []))]))
  {
    hide RemoteSafety.Inv, Sound, Represents, InUse;
    Begins(w.client, socket, w.system.links[session]);
    RemoteSafety.NextKeepsInv(w.system, RemoteProtocol.ClientCloses(session));
    hide Quiet;
  }

  // ----- The session's side -----

  /** A move of the protocol's client keeps the distributed invariant. */
  lemma MoveKeepsInv(y: RemoteProtocol.System, session: SessionId, next: Link)
    requires RemoteSafety.Inv(y) && session in y.links && ClientMove(y.links[session], next)
    ensures RemoteSafety.Inv(y.(links := y.links[session := next]))
  {
    hide RemoteSafety.Inv;
    var moves := MoveActions(y, session, next);
    if moves == [] {
      assert y.links[session := next] == y.links;
    } else {
      RemoteSafety.NextKeepsInv(y, moves[0]);
    }
  }

  /** The action of the protocol that is this move, or none for a stutter. */
  lemma MoveActions(y: RemoteProtocol.System, session: SessionId, next: Link) returns (moves: seq<RemoteProtocol.Action>)
    requires session in y.links && ClientMove(y.links[session], next)
    ensures |moves| <= 1 && (moves == [] ==> next == y.links[session])
    ensures moves != [] ==>
              && !moves[0].Connect? && RemoteProtocol.Enabled(y, moves[0])
              && RemoteProtocol.Next(y, moves[0]) == (y.(links := y.links[session := next]), None)
  {
    hide RemoteProtocol.Receive;
    var link := y.links[session];
    if next == link {
      moves := [];
    } else if link.open && link.down != [] && RemoteProtocol.Receive(link) == (next, None) {
      moves := [RemoteProtocol.Deliver(session)];
    } else if next == ClosedLink(link) {
      moves := [RemoteProtocol.ClientCloses(session)];
    } else {
      var key: Key, packet: bytes :|
        link.open && key in link.buffer &&
        next == link.(buffer := link.buffer - {key}, up := link.up + [Reply(key, packet)]);
      moves := [RemoteProtocol.Respond(session, key, packet)];
    }
  }

  /** What the session's step does to one accepted socket. */
  lemma EndFollows(w: Whole, m: SessionRuns.Action, id: SocketId)
    requires Inv(w) && Linked(w) && SessionRuns.Grounded(w.client) && Enabled(w, Client(m)) && id in w.ends
    ensures var End(session, c) := w.ends[id];
            var link := w.system.links[session];
            var (d, next) := Counterpart(w.client, id, c, link, m);
            && Represents(SessionRuns.Next(w.client, m), id, d, next) && ClientMove(link, next)
            && (w.client.socket != Some(id) ==> (d, next) == (c, link))
  {
    var End(session, c) := w.ends[id];
    Simulates(w.client, id, c, w.system.links[session], m);
    hide Represents, Sound, Quiet, RemoteSafety.Inv, ClientMove;
  }

  lemma ClientKeepsInv(w: Whole, m: SessionRuns.Action)
    requires Inv(w) && Linked(w) && SessionRuns.Grounded(w.client) && Enabled(w, Client(m))
    ensures Inv(ClientNext(w, m))
  {
    hide RemoteSafety.Inv, Sound, Represents, Counterpart, ClientMove, SessionRuns.Next, Quiet, SessionRuns.Enabled;
    SessionRuns.NextIsSound(w.client, m);
    forall id <- w.ends
      ensures var End(session, c) := w.ends[id];
              var (d, next) := Counterpart(w.client, id, c, w.system.links[session], m);
              && Represents(SessionRuns.Next(w.client, m), id, d, next)
              && (w.client.socket != Some(id) ==> (d, next) == (c, w.system.links[session]))
    {
      EndFollows(w, m, id);
    }
    forall id: SocketId | id !in w.ends
      ensures Quiet(SessionRuns.Next(w.client, m), id)
    {
      QuietStays(w.client, m, id);
    }
    if w.client.socket.Some? && w.client.socket.value in w.ends {
      var id := w.client.socket.value;
      EndFollows(w, m, id);
      var End(session, c) := w.ends[id];
      MoveKeepsInv(w.system, session, Counterpart(w.client, id, c, w.system.links[session], m).1);
    }
  }

  // ----- Runs -----

  lemma InvIsGrounded(w: Whole)
    requires Inv(w)
    ensures SessionRuns.Grounded(w.client) && Linked(w)
  {
    SessionRuns.SoundIsGrounded(w.client);
  }

  lemma StartIsSound(max: nat, early: Request -> bool)
    ensures Inv(Start(max, early))
  {
    NewSessionIsSound(early);
    RemoteSafety.ReachableStatesAreSafe(max, []);
    hide RemoteSafety.Inv, Sound;
  }

  lemma StepKeepsInv(w: Whole, step: Step)
    requires Inv(w) && Enabled(w, step)
    ensures Linked(w) && SessionRuns.Grounded(w.client) && Inv(Next(w, step))
  {
    InvIsGrounded(w);
    hide Inv, ServerNext, AcceptNext, ClientNext, SessionRuns.Grounded, Linked;
    match step
    case Server(a) => ServerKeepsInv(w, a);
    case Accept(socket, session, capacity, now) => AcceptKeepsInv(w, socket, session, capacity, now);
    case Client(m) => ClientKeepsInv(w, m);
  }

  /** A run of the whole, from a new broker and a new session, over any number of connections. */
  ghost predicate IsRun(max: nat, early: Request -> bool, run: seq<Step>)
    decreases |run|, 0
  {
    run == [] ||
    var n := |run| - 1;
    IsRun(max, early, run[..n]) && Enabled(At(max, early, run[..n]), run[n])
  }

  /** The state after a run, in which the invariant holds. */
  ghost function At(max: nat, early: Request -> bool, run: seq<Step>): (w: Whole)
    requires IsRun(max, early, run)
    ensures Inv(w)
    decreases |run|, 1
  {
    if run == [] then
      StartIsSound(max, early);
      Start(max, early)
    else
      var n := |run| - 1;
      var w := At(max, early, run[..n]);
      StepKeepsInv(w, run[n]);
      Next(w, run[n])
  }

  // ----- Every run of the whole is a run of the protocol -----

  /** All sessions of the run are opened with at most this capacity. */
  ghost predicate Capacities(run: seq<Step>, limit: nat) {
    forall step <- run :: Limited(step, limit)
  }

  predicate Limited(step: Step, limit: nat) {
    match step
    case Server(a) => a.Connect? ==> a.capacity <= limit
    case Accept(_, _, capacity, _) => capacity <= limit
    case Client(_) => true
  }

  /** The actions lead from one state of the protocol to another. */
  ghost predicate Leads(y: RemoteProtocol.System, actions: seq<RemoteProtocol.Action>, limit: nat,
                        z: RemoteProtocol.System)
    decreases |actions|
  {
    if actions == [] then y == z
    else
      && RemoteProtocol.Enabled(y, actions[0]) && (actions[0].Connect? ==> actions[0].capacity <= limit)
      && Leads(RemoteProtocol.Next(y, actions[0]).0, actions[1..], limit, z)
  }

  lemma LeadsOne(y: RemoteProtocol.System, a: RemoteProtocol.Action, limit: nat)
    requires RemoteProtocol.Enabled(y, a) && (a.Connect? ==> a.capacity <= limit)
    ensures Leads(y, [a], limit, RemoteProtocol.Next(y, a).0)
  {
    hide RemoteProtocol.Next;
    assert [a][1..] == [];
  }

  lemma LeadsTwo(y: RemoteProtocol.System, a: RemoteProtocol.Action, b: RemoteProtocol.Action, limit: nat)
    requires RemoteProtocol.Enabled(y, a) && (a.Connect? ==> a.capacity <= limit) && !b.Connect?
    requires RemoteProtocol.Enabled(RemoteProtocol.Next(y, a).0, b)
    ensures Leads(y, [a, b], limit, RemoteProtocol.Next(RemoteProtocol.Next(y, a).0, b).0)
  {
    LeadsOne(RemoteProtocol.Next(y, a).0, b, limit);
    hide RemoteProtocol.Next;
    assert [a, b][1..] == [b];
  }

  /** One step of the whole is at most two actions of the protocol. */
  lemma StepActions(w: Whole, step: Step, limit: nat) returns (actions: seq<RemoteProtocol.Action>)
    requires Inv(w) && Linked(w) && SessionRuns.Grounded(w.client) && Enabled(w, step) && Limited(step, limit)
    ensures Leads(w.system, actions, limit, Next(w, step).system)
  {
    hide Leads, Counterpart, ClientMove, RemoteSafety.Inv, Sound, Represents, Quiet, Joined, InUse;
    match step
    case Server(a) =>
      actions := [a];
      LeadsOne(w.system, a, limit);
    case Accept(socket, session, capacity, now) =>
      var a, b := RemoteProtocol.Connect(session, capacity, now), RemoteProtocol.ClientCloses(session);
      LeadsOne(w.system, a, limit);
      actions := [a];
      var next := RemoteProtocol.Next(w.system, a).0;
      if w.system.broker.agent.Disconnected? && session in next.links && !InUse(w.client, socket) {
        LeadsTwo(w.system, a, b, limit);
        actions := [a, b];
      }
    case Client(m) => actions := ClientActions(w, m, limit);
  }

  lemma ClientActions(w: Whole, m: SessionRuns.Action, limit: nat) returns (actions: seq<RemoteProtocol.Action>)
    requires Inv(w) && Linked(w) && SessionRuns.Grounded(w.client) && Enabled(w, Client(m))
    ensures Leads(w.system, actions, limit, ClientNext(w, m).system)
  {
    hide RemoteSafety.Inv, Sound, Represents, Quiet, Joined, ClientMove, Counterpart, RemoteProtocol.Next;
    actions := [];
    if w.client.socket.Some? && w.client.socket.value in w.ends {
      var id := w.client.socket.value;
      var End(session, c) := w.ends[id];
      EndFollows(w, m, id);
      var next := Counterpart(w.client, id, c, w.system.links[session], m).1;
      actions := MoveActions(w.system, session, next);
      if actions == [] {
        assert w.system.links[session := next] == w.system.links;
      } else {
        LeadsOne(w.system, actions[0], limit);
        assert actions == [actions[0]];
      }
    }
  }

  lemma {:induction false} FollowActions(max: nat, run: seq<RemoteProtocol.Action>, limit: nat,
                                         actions: seq<RemoteProtocol.Action>, z: RemoteProtocol.System)
    returns (longer: seq<RemoteProtocol.Action>)
    requires RemoteSafety.IsRun(max, run) && RemoteSafety.Capacities(run, limit)
    requires Leads(RemoteSafety.At(max, run), actions, limit, z)
    ensures RemoteSafety.IsRun(max, longer) && RemoteSafety.Capacities(longer, limit) && RemoteSafety.At(max, longer) == z
    decreases |actions|
  {
    hide RemoteProtocol.Next, RemoteProtocol.Enabled, RemoteSafety.Capacities, RemoteSafety.IsRun, RemoteSafety.At;
    if actions == [] {
      longer := run;
    } else {
      RemoteSafety.Extend(max, run, limit, actions[0]);
      longer := FollowActions(max, run + [actions[0]], limit, actions[1..], z);
    }
  }

  /** The session adds nothing to the protocol: what the server sees is a run of the protocol. */
  lemma {:induction false} IsProtocolRun(max: nat, early: Request -> bool, run: seq<Step>, limit: nat)
    returns (protocol: seq<RemoteProtocol.Action>)
    requires IsRun(max, early, run) && Capacities(run, limit)
    ensures RemoteSafety.IsRun(max, protocol) && RemoteSafety.Capacities(protocol, limit)
    ensures RemoteSafety.At(max, protocol) == At(max, early, run).system
  {
    if run == [] {
      protocol := [];
    } else {
      var n := |run| - 1;
      var w := At(max, early, run[..n]);
      hide Inv, Next, Enabled, Leads, RemoteSafety.IsRun, RemoteSafety.At, RemoteSafety.Capacities;
      protocol := IsProtocolRun(max, early, run[..n], limit);
      StepKeepsInv(w, run[n]);
      var actions := StepActions(w, run[n], limit);
      protocol := FollowActions(max, protocol, limit, actions, Next(w, run[n]).system);
    }
  }

  // ----- What follows for the session -----

  /**
   In every run of the whole, on every socket the server accepted: while the
   session uses it, its buffer is what the protocol says, so any prefix of what
   is under way could be taken up within what the broker has in flight and has
   lost there; and what was answered is what the server got or is yet to get.
   */
  lemma SessionIsSafe(max: nat, early: Request -> bool, run: seq<Step>, id: SocketId)
    requires IsRun(max, early, run) && id in At(max, early, run).ends
    ensures var w := At(max, early, run);
            && w.ends[id].session in w.system.links
            && var End(session, c) := w.ends[id];
               var link := w.system.links[session];
               && Replies(w.client.trace, id) == c.arrived + link.up
               && (if InUse(w.client, id) then
                     && Keys(w.client.pending) == link.buffer
                     && Fits(Keys(w.client.pending), c.held + c.waiting + c.coming, link.Load())
                     && (w.system.broker.agent.Holds(session) ==>
                           Replay(Keys(w.client.pending), link.down)
                           <= RemoteProtocol.Keys(w.system.broker.inFlight) + link.lost)
                   else link.buffer == {})
  {
    SafeInState(At(max, early, run), id);
  }

  lemma SafeInState(w: Whole, id: SocketId)
    requires Inv(w) && id in w.ends
    ensures w.ends[id].session in w.system.links
    ensures var End(session, c) := w.ends[id];
            var link := w.system.links[session];
            && Replies(w.client.trace, id) == c.arrived + link.up
            && (if InUse(w.client, id) then
                  && Keys(w.client.pending) == link.buffer
                  && Fits(Keys(w.client.pending), c.held + c.waiting + c.coming, link.Load())
                  && (w.system.broker.agent.Holds(session) ==>
                        Replay(Keys(w.client.pending), link.down)
                        <= RemoteProtocol.Keys(w.system.broker.inFlight) + link.lost)
                else link.buffer == {})
  {
    hide Sound, Replies, Keys, Unread, MessagesFor, Fits, Replay, RemoteProtocol.Keys, Quiet;
  }

  lemma DeliveredCommand(s: Session, id: SocketId, c: Channel, link: Link, now: int)
    requires Represents(s, id, c, link) && InUse(s, id) && s.snapshot.status.Connected?
    requires s.receiving.Free? && TakesCommand(s, id, SessionRuns.ChainAdvances(now))
    ensures s.inbox[0].0 < |s.sockets| && link.down != []
    ensures Took(s.(inbox := s.inbox[1..]), ReceiveNext(s, now), id, link.down[0])
  {
    hide Sound, Replies, Keys, Unread, MessagesFor, ReceiveMessage, Took, MessageFor;
    InboxIsFree(s);
    FirstWaiting(s, c, id);
    CommandTook(s.(inbox := s.inbox[1..]), id, c.waiting[0], now);
    assert c.held + c.waiting + c.coming == c.waiting + c.coming;
    FirstOfAll(c.waiting, c.coming);
  }

  lemma ThrownUnderLoad(s: Session, id: SocketId, c: Channel, link: Link, now: int)
    requires Represents(s, id, c, link) && InUse(s, id) && s.snapshot.status.Connected?
    requires s.receiving.Free? && TakesCommand(s, id, SessionRuns.ChainAdvances(now)) && RemoteSafety.Deliverable(link)
    ensures s.inbox[0].0 < |s.sockets|
    ensures var t := ReceiveNext(s, now);
            t.receiving.Failing? ==>
              t.receiving.cause == FULL && link.capacity > 0 && link.Load() > MAX_PENDING_REQUESTS
  {
    hide Sound, Replies, Keys, Unread, MessagesFor, ReceiveNext, Fits, Enqueue;
    DeliveredCommand(s, id, c, link, now);
    if link.down[0].Request? {
      DeliveryFits(link.buffer, link.down, link.Load());
    }
  }

  /** The connected session is about to take up a command. */
  ghost predicate TakesUp(w: Whole, id: SocketId, now: int) {
    && id in w.ends && w.client.socket == Some(id) && w.client.snapshot.status.Connected?
    && Enabled(w, Client(SessionRuns.ChainAdvances(now)))
    && TakesCommand(w.client, id, SessionRuns.ChainAdvances(now))
  }

  lemma ThrownInState(w: Whole, id: SocketId, now: int)
    requires Inv(w) && TakesUp(w, id, now)
    ensures SessionRuns.Grounded(w.client) && w.ends[id].session in w.system.links
    ensures var t := SessionRuns.Next(w.client, SessionRuns.ChainAdvances(now));
            var link := w.system.links[w.ends[id].session];
            t.receiving.Failing? ==>
              t.receiving.cause == FULL && link.capacity > 0 && link.Load() > MAX_PENDING_REQUESTS
  {
    hide Represents, ReceiveNext, TakesCommand, Feasible, RemoteSafety.Deliverable, RemoteSafety.ActiveInv, Quiet;
    InvIsGrounded(w);
    ThrownUnderLoad(w.client, id, w.ends[id].channel, w.system.links[w.ends[id].session], now);
  }

  /**
   No run of the whole makes the session throw its duplicate-request error when
   it takes up a command, and the full-buffer error only where capacity and
   losses of that link exceed its buffer.
   */
  lemma SessionThrowsOnlyUnderLoad(max: nat, early: Request -> bool, run: seq<Step>, id: SocketId, now: int)
    requires IsRun(max, early, run) && TakesUp(At(max, early, run), id, now)
    ensures var w := At(max, early, run);
            && SessionRuns.Grounded(w.client) && w.ends[id].session in w.system.links
            && var t := SessionRuns.Next(w.client, SessionRuns.ChainAdvances(now));
               t.receiving.Failing? ==>
                 t.receiving.cause == FULL && w.system.links[w.ends[id].session].Load() > MAX_PENDING_REQUESTS
  {
    hide IsRun, At, Inv, TakesUp, SessionRuns.Next, SessionRuns.Grounded;
    ThrownInState(At(max, early, run), id, now);
  }

  /**
   With capacities and losses within its buffer the session never throws when it
   takes up a command, on whichever of its connections.
   */
  lemma SessionNeverThrows(max: nat, early: Request -> bool, run: seq<Step>, id: SocketId, now: int, limit: nat,
                           losses: nat)
    requires IsRun(max, early, run) && TakesUp(At(max, early, run), id, now)
    requires Capacities(run, limit) && RemoteSafety.Losses(At(max, early, run).system, losses)
    requires RemoteProtocol.Bound(limit, max) == 0 || RemoteProtocol.Bound(limit, max) + losses <= MAX_PENDING_REQUESTS
    ensures SessionRuns.Grounded(At(max, early, run).client)
    ensures !SessionRuns.Next(At(max, early, run).client, SessionRuns.ChainAdvances(now)).receiving.Failing?
  {
    var w := At(max, early, run);
    hide IsRun, At, Inv, TakesUp, SessionRuns.Next, SessionRuns.Grounded, RemoteSafety.IsRun, RemoteSafety.At;
    ThrownInState(w, id, now);
    var protocol := IsProtocolRun(max, early, run, limit);
    RemoteSafety.RunsWithin(max, protocol, limit);
  }

  // ----- From the caller's answer back to the agent -----

  lemma {:induction false} ReplyWasSent(trace: seq<Observed>, id: SocketId, reply: Reply) returns (j: nat)
    requires reply in Replies(trace, id)
    ensures j < |trace| && trace[j].Responded? && trace[j].socket == id
    ensures trace[j].key == reply.key && trace[j].packet == reply.packet
  {
    var n := |trace| - 1;
    if reply in Replies(trace[..n], id) {
      j := ReplyWasSent(trace[..n], id, reply);
    } else {
      j := n;
    }
  }

  /**
   A local caller whose request is completed with a packet by a reply on one of
   the session's links gets what the agent answered: the session responded with
   it on that very socket, after that request and attempt had been delivered
   there and handed to the agent, with no close, cancellation or other answer in
   between; and the request is in flight there in that attempt, before its deadline.
   */
  lemma AnswersComeFromTheAgent(max: nat, early: Request -> bool, run: seq<Step>, id: SocketId, now: Instant,
                                request: RequestId, packet: bytes) returns (i: nat, j: nat)
    requires IsRun(max, early, run) && id in At(max, early, run).ends
    requires var w := At(max, early, run);
             var session := w.ends[id].session;
             && session in w.system.links && w.system.links[session].up != []
             && var reply := w.system.links[session].up[0];
                var e := Response(session, reply.key.requestId, reply.key.attempt, reply.packet);
                Complete(request, Success(packet)) in LedgerEffects.Emits(Ledger.Step(w.system.broker, e, now))
    ensures var w := At(max, early, run);
            var trace := w.client.trace;
            && i < j < |trace| && trace[j].Responded? && trace[j].socket == id && trace[j].packet == packet
            && trace[j].key.requestId == request
            && trace[i] == Delivered(id, trace[j].token, trace[j].key)
            && Handed(trace[j].token, trace[j].key) in trace[i..j]
            && (forall m | i < m < j :: !Ends(trace[m], trace[j].key) && !ClientConduct.Answers(trace[m], trace[j].key))
            && w.system.broker.agent.Holds(w.ends[id].session)
            && exists x :: x in w.system.broker.inFlight && x.id == request && x.attempt == trace[j].key.attempt
                           && now < x.deadline
  {
    var w := At(max, early, run);
    hide IsRun, At, Ledger.Step, LedgerEffects.Emits;
    i, j := AnsweredInState(w, id, now, request, packet);
  }

  lemma AnsweredInState(w: Whole, id: SocketId, now: Instant, request: RequestId, packet: bytes) returns (i: nat, j: nat)
    requires Inv(w) && id in w.ends && w.ends[id].session in w.system.links
    requires w.system.links[w.ends[id].session].up != []
    requires var session := w.ends[id].session;
             var reply := w.system.links[session].up[0];
             var e := Response(session, reply.key.requestId, reply.key.attempt, reply.packet);
             Complete(request, Success(packet)) in LedgerEffects.Emits(Ledger.Step(w.system.broker, e, now))
    ensures var trace := w.client.trace;
            && i < j < |trace| && trace[j].Responded? && trace[j].socket == id && trace[j].packet == packet
            && trace[j].key.requestId == request
            && trace[i] == Delivered(id, trace[j].token, trace[j].key)
            && Handed(trace[j].token, trace[j].key) in trace[i..j]
            && (forall m | i < m < j :: !Ends(trace[m], trace[j].key) && !ClientConduct.Answers(trace[m], trace[j].key))
            && w.system.broker.agent.Holds(w.ends[id].session)
            && exists x :: x in w.system.broker.inFlight && x.id == request && x.attempt == trace[j].key.attempt
                           && now < x.deadline
  {
    SafeInState(w, id);
    SoundParts(w.client);
    hide Inv, Replies, Fits, Replay, Keys, Ledger.Step, LedgerEffects.Emits, Legal, After, InUse, UniqueKeys;
    var session, c := w.ends[id].session, w.ends[id].channel;
    var link := w.system.links[session];
    var reply := link.up[0];
    LedgerHistory.AnsweredOnlyInFlight(w.system.broker,
      Response(session, reply.key.requestId, reply.key.attempt, reply.packet), now, request, packet);
    assert (c.arrived + link.up)[|c.arrived|] == reply;
    j := ReplyWasSent(w.client.trace, id, reply);
    i := AnswersTheirDelivery(w.client.trace, j);
  }
}
