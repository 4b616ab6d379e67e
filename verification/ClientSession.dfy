/**
 The client session's code: fields updated in place, one method per stretch
 between suspension points.  Buffered requests are objects in a map keyed by
 text, and a handler holds on to the object it was started for.
 */
module ClientSession {
  import opened Basics
  import opened LinkReplay
  import opened ClientConduct
  import opened SessionModel
  import opened SessionSafety
  import opened RequestBuffer
  import BrokerTypes

  /** What a running handler captured: its socket, the name it looks up, and the object it expects there. */
  datatype Task = Task(socket: SocketId, name: string, entry: PendingRequest)

  ghost function HandlerOf(t: Task): Handler {
    Handler(t.socket, t.entry.request.key, t.entry.token)
  }

  ghost function HandlersOf(tasks: set<Task>): set<Handler> {
    set t | t in tasks :: HandlerOf(t)
  }

  ghost function FailuresOf(failures: set<(Task, string)>): set<(Handler, string)> {
    set f | f in failures :: (HandlerOf(f.0), f.1)
  }

  /** The object was buffered by this session, under the name the task looks up. */
  ghost predicate Genuine(text: BrokerTypes.RequestId -> string, issued: seq<PendingRequest>, t: Task) {
    Knows(issued, t.entry) && t.name == NameOf(text, t.entry.request.key)
  }

  ghost predicate AllGenuine(text: BrokerTypes.RequestId -> string, issued: seq<PendingRequest>, tasks: set<Task>,
                             failures: set<(Task, string)>)
  {
    (forall t <- tasks :: Genuine(text, issued, t)) && (forall f <- failures :: Genuine(text, issued, f.0))
  }

  lemma GenuineGrows(text: BrokerTypes.RequestId -> string, issued: seq<PendingRequest>, tasks: set<Task>,
                     failures: set<(Task, string)>, e: PendingRequest)
    requires AllGenuine(text, issued, tasks, failures)
    ensures AllGenuine(text, issued + [e], tasks, failures)
  {
  }

  lemma TaskStarts(text: BrokerTypes.RequestId -> string, issued: seq<PendingRequest>, tasks: set<Task>,
                   failures: set<(Task, string)>, t: Task)
    requires AllGenuine(text, issued, tasks, failures) && Genuine(text, issued, t)
    ensures AllGenuine(text, issued, tasks + {t}, failures)
    ensures HandlersOf(tasks + {t}) == HandlersOf(tasks) + {HandlerOf(t)}
  {
    assert HandlersOf(tasks + {t}) == HandlersOf(tasks) + {HandlerOf(t)} by {
      assert HandlerOf(t) in HandlersOf(tasks + {t});
      forall u <- tasks
        ensures HandlerOf(u) in HandlersOf(tasks + {t})
      {
        assert u in tasks + {t};
      }
    }
  }

  /** Different tasks are different handlers, so the end of one is the end of one. */
  lemma TaskEnds(text: BrokerTypes.RequestId -> string, issued: seq<PendingRequest>, tasks: set<Task>,
                 failures: set<(Task, string)>, t: Task)
    requires AllGenuine(text, issued, tasks, failures) && t in tasks
    ensures Genuine(text, issued, t) && HandlerOf(t) in HandlersOf(tasks)
    ensures AllGenuine(text, issued, tasks - {t}, failures)
    ensures HandlersOf(tasks - {t}) == HandlersOf(tasks) - {HandlerOf(t)}
  {
    forall u <- tasks | HandlerOf(u) == HandlerOf(t)
      ensures u == t
    {
      assert u.entry == issued[u.entry.token] == t.entry;
    }
    forall u <- tasks | u != t
      ensures HandlerOf(u) in HandlersOf(tasks - {t})
    {
      assert u in tasks - {t};
    }
  }

  lemma TaskFails(text: BrokerTypes.RequestId -> string, issued: seq<PendingRequest>, tasks: set<Task>,
                  failures: set<(Task, string)>, f: (Task, string))
    requires AllGenuine(text, issued, tasks, failures) && Genuine(text, issued, f.0)
    ensures AllGenuine(text, issued, tasks, failures + {f})
    ensures FailuresOf(failures + {f}) == FailuresOf(failures) + {(HandlerOf(f.0), f.1)}
  {
    forall g <- failures
      ensures (HandlerOf(g.0), g.1) in FailuresOf(failures + {f})
    {
      assert g in failures + {f};
    }
    assert f in failures + {f};
  }

  lemma FailureHandled(text: BrokerTypes.RequestId -> string, issued: seq<PendingRequest>, tasks: set<Task>,
                       failures: set<(Task, string)>, f: (Task, string))
    requires AllGenuine(text, issued, tasks, failures) && f in failures
    ensures AllGenuine(text, issued, tasks, failures - {f}) && (HandlerOf(f.0), f.1) in FailuresOf(failures)
    ensures FailuresOf(failures - {f}) == FailuresOf(failures) - {(HandlerOf(f.0), f.1)}
  {
    forall g <- failures | HandlerOf(g.0) == HandlerOf(f.0)
      ensures g.0 == f.0
    {
      assert g.0.entry == issued[g.0.entry.token] == f.0.entry;
    }
    forall g <- failures | g != f
      ensures (HandlerOf(g.0), g.1) in FailuresOf(failures - {f})
    {
      assert g in failures - {f};
    }
  }

  class RemoteSession {
    const early: Request -> bool
    const pending: PendingRequests

    var socket: Option<SocketId>
    var endpoint: Option<string>
    var clientLabel: Option<string>
    var pairing: Option<PairingRecord>
    var ready: bool
    var identities: seq<(bytes, string)>
    var active: bool
    var retryTimer: bool
    var generation: nat
    var snapshot: Snapshot

    // Sockets ever created, and suspended work.
    var sockets: seq<Socket>
    var openers: set<Opener>
    var inbox: seq<(SocketId, Inbound)>
    var receiving: Receiving
    var handlers: set<Task>
    var failures: set<(Task, string)>
    var forgets: multiset<string>

    ghost var trace: seq<Observed>

    /** Handlers hold on to requests of this session's buffer. */
    ghost predicate Linked()
      reads this, pending
    {
      pending.Valid() && AllGenuine(pending.text, pending.issued, handlers, failures)
    }

    ghost function State(): Session
      requires Linked()
      reads this, pending, pending.issued
    {
      Session(early, socket, endpoint, clientLabel, pairing, ready, identities, active, retryTimer, generation,
              pending.Contents(), snapshot, sockets, |pending.issued|, openers, inbox, receiving,
              HandlersOf(handlers), FailuresOf(failures), forgets, trace)
    }

    ghost predicate Valid()
      reads this, pending, pending.issued
    {
      Linked() && Sound(State())
    }

    constructor (early: Request -> bool, text: BrokerTypes.RequestId -> string)
      requires Injective(text)
      ensures Valid() && State() == NewSession(early) && fresh(pending)
    {
      this.early := early;
      pending := new PendingRequests(text);
      socket, endpoint, clientLabel, pairing := None, None, None, None;
      ready, identities, active, retryTimer, generation := false, [], true, false, 0;
      snapshot := Snapshot(Connecting, None, None, None, 0, None);
      sockets, openers, inbox, receiving := [], {}, [], Free;
      handlers, failures, forgets, trace := {}, {}, multiset{}, [];
      new;
      assert HandlersOf({}) == {} && FailuresOf({}) == {};
      NewSessionIsSound(early);
    }

    // ----- Closing -----

    method ClearPending()
      requires Linked() && snapshot.pendingRequests == |pending.order|
      modifies pending`order, pending`entries, this`snapshot
      ensures Linked() && State() == Clear(old(State()))
    {
      if |pending.order| == 0 {
        return;
      }
      pending.Clear();
      snapshot := snapshot.(pendingRequests := |pending.order|);
    }

    method SetSnapshot(status: Status, error: Option<string>)
      requires Linked()
      modifies this`snapshot
      ensures Linked() && State() == Publish(old(State()), status, error)
    {
      snapshot := snapshot.(status := status, serverId := None, sessionId := None, vapidKey := None, error := error);
    }

    /** Close a socket that is no longer current, and announce the exit if it was connected. */
    method CloseOld(id: SocketId, wasConnected: bool)
      requires Linked() && id < |sockets|
      modifies this`sockets, this`trace
      ensures Linked() && State() == Shut(old(State()), id, wasConnected)
    {
      hide AllGenuine, HandlersOf, FailuresOf, PendingRequests.Valid, PendingRequests.Contents;
      sockets := sockets[id := sockets[id].(state := Closing)];
      trace := trace + [Closed(id)];
      if wasConnected {
        trace := trace + [Left];
      }
    }

    method CloseSocket()
      requires Linked() && (socket.Some? ==> socket.value < |sockets|)
      requires snapshot.pendingRequests == |pending.order| && (snapshot.status.Connected? ==> socket.Some?)
      modifies this`generation, this`socket, this`pairing, this`snapshot, this`sockets, this`trace
      modifies pending`order, pending`entries
      ensures Linked() && State() == SessionModel.CloseSocket(old(State()))
    {
      hide AllGenuine, HandlersOf, FailuresOf, PendingRequests.Valid, PendingRequests.Contents;
      hide Clear, Shut;
      ghost var s := State();
      generation := generation + 1;
      var current, wasConnected := socket, snapshot.status.Connected?;
      socket := None;
      pairing := None;
      assert State() == s.(generation := s.generation + 1, socket := None, pairing := None);
      ClearPending();
      if current.Some? {
        CloseOld(current.value, wasConnected);
      }
    }

    /** End the session on this socket for good, unless the socket was already replaced. */
    method Finish(id: SocketId, status: Status, error: string)
      requires Valid() && id < |sockets| && !status.Connected?
      modifies this`socket, this`retryTimer, this`snapshot, this`sockets, this`trace
      modifies pending`order, pending`entries
      ensures Valid() && State() == SessionModel.Finish(old(State()), id, status, error)
    {
      hide AllGenuine, HandlersOf, FailuresOf, PendingRequests.Valid, PendingRequests.Contents;
      hide Observes, UniqueKeys, NoneForgotten, Wired, Launched, Clear, Publish, Shut;
      ghost var s := State();
      FinishIsSound(s, id, status, error);
      if socket != Some(id) {
        return;
      }
      var wasConnected := snapshot.status.Connected?;
      socket := None;
      StopRetry();
      assert State() == s.(socket := None, retryTimer := false);
      ClearPending();
      SetSnapshot(status, Some(error));
      CloseOld(id, wasConnected);
    }

    /** Give up a lost socket and keep one retry pending while active, unless the socket was already replaced. */
    method ConnectionLost(id: SocketId)
      requires Valid() && id < |sockets|
      modifies this`socket, this`retryTimer, this`snapshot, this`sockets, this`trace
      modifies pending`order, pending`entries
      ensures Valid() && State() == SessionModel.ConnectionLost(old(State()), id)
    {
      hide AllGenuine, HandlersOf, FailuresOf, PendingRequests.Valid, PendingRequests.Contents;
      hide Observes, UniqueKeys, NoneForgotten, Wired, Launched, Clear, Publish, Shut, SessionModel.ScheduleRetry;
      ghost var s := State();
      LostIsSound(s, id);
      if socket != Some(id) {
        return;
      }
      var wasConnected := snapshot.status.Connected?;
      socket := None;
      assert State() == s.(socket := None);
      ClearPending();
      SetSnapshot(Reconnecting, None);
      CloseOld(id, wasConnected);
      ScheduleRetry();
    }

    /** Keep one retry pending for an active session. */
    method ScheduleRetry()
      requires Linked()
      modifies this`retryTimer
      ensures Linked() && State() == SessionModel.ScheduleRetry(old(State()))
    {
      if !active || retryTimer || endpoint.None? {
        return;
      }
      retryTimer := true;
    }

    method Fail(id: SocketId, cause: string)
      requires Valid() && id < |sockets|
      modifies this`socket, this`retryTimer, this`snapshot, this`sockets, this`trace
      modifies pending`order, pending`entries
      ensures Valid() && State() == SessionModel.Fail(old(State()), id, cause)
    {
      hide Sound;
      if !sockets[id].state.Open? {
        ConnectionLost(id);
      } else {
        Finish(id, Errored, cause);
      }
    }

    // ----- Lifecycle -----

    method Open()
      requires Valid()
      modifies this`generation, this`openers
      ensures Valid() && State() == Attempt(old(State()))
    {
      hide AllGenuine, HandlersOf, FailuresOf, PendingRequests.Valid, PendingRequests.Contents;
      hide Sound;
      AttemptIsSound(State());
      if !active || endpoint.None? || clientLabel.None? || socket.Some? {
        return;
      }
      generation := generation + 1;
      openers := openers + {Opener(generation, endpoint.value, clientLabel.value)};
    }

    method Connect(endpoint: string, clientLabel: string)
      requires Valid()
      modifies this, pending`order, pending`entries
      ensures Valid() && State() == SessionModel.Connect(old(State()), endpoint, clientLabel)
    {
      hide AllGenuine, HandlersOf, FailuresOf, PendingRequests.Valid, PendingRequests.Contents;
      hide Sound, SessionModel.CloseSocket, Publish, Attempt;
      Ready();
      ghost var s := State();
      this.endpoint := Some(endpoint);
      this.clientLabel := Some(clientLabel);
      active := true;
      StopRetry();
      assert State() == Wanted(s, endpoint, clientLabel);
      CloseSocket();
      SetSnapshot(Connecting, None);
      ConnectParts(s, endpoint, clientLabel);
      Open();
    }

    /** What the methods below need of a valid session. */
    lemma Ready()
      requires Valid()
      ensures socket.Some? ==> socket.value < |sockets|
      ensures snapshot.pendingRequests == |pending.order| && (snapshot.status.Connected? ==> socket.Some?)
    {
    }

    method StopRetry()
      requires Linked()
      modifies this`retryTimer
      ensures Linked() && State() == old(State()).(retryTimer := false)
    {
      if !retryTimer {
        return;
      }
      retryTimer := false;
    }

    /** Reconcile the wanted connection with page visibility and network state. */
    method SetActive(active: bool)
      requires Valid()
      modifies this, pending`order, pending`entries
      ensures Valid() && State() == SessionModel.SetActive(old(State()), active)
    {
      hide AllGenuine, HandlersOf, FailuresOf, PendingRequests.Valid, PendingRequests.Contents;
      hide Sound, SessionModel.CloseSocket, Publish, Attempt;
      Ready();
      ghost var s := State();
      SetActiveIsSound(s, active);
      this.active := active;
      StopRetry();
      assert State() == s.(active := active, retryTimer := false);
      if snapshot.status.Rejected? || snapshot.status.Errored? {
        return;
      }
      if !active {
        CloseSocket();
        SetSnapshot(Reconnecting, None);
        return;
      }
      if socket.Some? {
        return;
      }
      SetSnapshot(Reconnecting, None);
      ReactivateIsSound(s);
      Open();
    }

    /** An opener resumes with what the pairing store and the socket constructor gave. */
    method OpenLoaded(opener: Opener, loaded: Result<Option<PairingRecord>, string>, created: Option<string>)
      requires Valid() && opener in openers
      modifies this
      ensures Valid() && State() == SessionModel.OpenLoaded(old(State()), opener, loaded, created)
    {
      hide AllGenuine, HandlersOf, FailuresOf, PendingRequests.Valid, PendingRequests.Contents;
      hide Sound, SessionModel.OpenFailed;
      ghost var s := State();
      OpenLoadedIsSound(s, opener, loaded, created);
      openers := openers - {opener};
      assert State() == s.(openers := s.openers - {opener});
      if loaded.Failure? {
        OpenFailed(opener, loaded.error);
        return;
      }
      if opener.generation != generation || !active || socket.Some? {
        return;
      }
      if created.Some? {
        OpenFailed(opener, created.value);
        return;
      }
      Adopt(loaded.value, opener.clientLabel);
    }

    method OpenFailed(opener: Opener, cause: string)
      requires Linked()
      modifies this`snapshot
      ensures Linked() && State() == SessionModel.OpenFailed(old(State()), opener, cause)
    {
      hide Publish;
      if opener.generation == generation {
        SetSnapshot(Errored, Some(cause));
      }
    }

    method Adopt(loaded: Option<PairingRecord>, clientLabel: string)
      requires Linked()
      modifies this`pairing, this`socket, this`sockets, this`trace
      ensures Linked() && State() == SessionModel.Adopt(old(State()), loaded, clientLabel)
    {
      hide AllGenuine, HandlersOf, FailuresOf, PendingRequests.Valid, PendingRequests.Contents;
      ghost var s := State();
      var id := |sockets|;
      sockets := sockets + [Socket(Opening, loaded, clientLabel)];
      pairing, socket := loaded, Some(id);
      trace := trace + [Created(id)];
      assert State() == See(s.(pairing := loaded, socket := Some(id), sockets := sockets), [Created(id)]);
    }

    method ForgetPairing(endpoint: string)
      requires Valid()
      modifies this, pending`order, pending`entries
      ensures Valid() && State() == SessionModel.ForgetPairing(old(State()), endpoint)
    {
      hide AllGenuine, HandlersOf, FailuresOf, PendingRequests.Valid, PendingRequests.Contents;
      hide Sound, SessionModel.CloseSocket, Publish;
      Ready();
      ForgetPairingIsSound(State(), endpoint);
      StopRetry();
      CloseSocket();
      SetSnapshot(Reconnecting, None);
      ghost var t := State();
      forgets := forgets + multiset{endpoint};
      assert State() == t.(forgets := t.forgets + multiset{endpoint});
    }

    /** The deletion of a pairing is over. */
    method ForgetDone(endpoint: string, deleted: bool)
      requires Valid() && endpoint in forgets
      modifies this
      ensures Valid() && State() == SessionModel.ForgetDone(old(State()), endpoint, deleted)
    {
      hide Sound, Attempt;
      ghost var s := State();
      ForgetsAreFree(s, s.forgets - multiset{endpoint});
      forgets := forgets - multiset{endpoint};
      assert State() == s.(forgets := s.forgets - multiset{endpoint});
      if deleted && Some(endpoint) == this.endpoint && active {
        Open();
      }
    }

    method RetryFires()
      requires Valid() && retryTimer
      modifies this
      ensures Valid() && State() == SessionModel.RetryFires(old(State()))
    {
      hide AllGenuine, HandlersOf, FailuresOf, PendingRequests.Valid, PendingRequests.Contents;
      hide Sound, Attempt;
      RetryIsFree(State(), false);
      retryTimer := false;
      Open();
    }

    // ----- Sockets -----

    /** Send only through the current, open socket. */
    method Send(id: SocketId, message: Message) returns (sent: bool)
      requires Linked()
      modifies this`trace
      ensures Linked() && (sent <==> CanSend(old(State()), id))
      ensures State() == if sent then See(old(State()), [Sent(id, message)]) else old(State())
    {
      sent := socket == Some(id) && id < |sockets| && sockets[id].state.Open?;
      if sent {
        trace := trace + [Sent(id, message)];
      }
    }

    method SocketOpened(id: SocketId)
      requires Valid() && id < |sockets| && sockets[id].state.Opening?
      modifies this, pending`order, pending`entries
      ensures Valid() && State() == SessionModel.SocketOpened(old(State()), id)
    {
      hide AllGenuine, HandlersOf, FailuresOf, PendingRequests.Valid, PendingRequests.Contents;
      hide Sound, See, CanSend, SessionModel.Fail;
      ghost var s := State();
      SocketOpenedIsSound(s, id);
      SocketMayOpen(s, id);
      sockets := sockets[id := sockets[id].(state := SessionModel.Open)];
      assert State() == s.(sockets := s.sockets[id := s.sockets[id].(state := SessionModel.Open)]);
      var sent := Send(id, Greeting(sockets[id]));
      if !sent {
        Fail(id, NOT_OPEN);
      }
    }

    /** The peer or the network ends a socket; the session learns of it later. */
    method SocketDrops(id: SocketId)
      requires Valid() && id < |sockets|
      modifies this`sockets
      ensures Valid() && State() == SessionModel.SocketDrops(old(State()), id)
    {
      hide Sound;
      SocketDropsIsSound(State(), id);
      sockets := sockets[id := sockets[id].(state := Closing)];
    }

    method MessageArrives(id: SocketId, data: Inbound)
      requires Valid() && id < |sockets| && sockets[id].state.Open?
      modifies this`inbox
      ensures Valid() && State() == SessionModel.MessageArrives(old(State()), id, data)
    {
      hide Sound;
      MessageArrivesIsSound(State(), id, data);
      inbox := inbox + [(id, data)];
    }

    // ----- Requests -----

    /** Start an idle request when the agent is ready or it may go early. */
    method TryProcess(id: SocketId, name: string, ghost i: nat)
      requires Linked() && i < |pending.order| && pending.order[i] == name
      modifies this`handlers, this`trace, pending.issued
      ensures Linked() && State() == SessionModel.TryProcess(old(State()), id, i)
    {
      hide AllGenuine, HandlersOf, FailuresOf, PendingRequests.Valid, PendingRequests.Contents;
      var found := pending.Find(name);
      pending.FindsAt(i);
      if found.None? {
        return;
      }
      var entry := found.value;
      if entry.processing || (!ready && !early(entry.request)) {
        return;
      }
      TaskStarts(pending.text, pending.issued, handlers, failures, Task(id, name, entry));
      pending.Start(entry, i);
      handlers := handlers + {Task(id, name, entry)};
      trace := trace + [Handed(entry.token, entry.request.key)];
    }

    /** Offer every buffered request for processing. */
    method Drain(id: SocketId)
      requires Linked()
      modifies this`handlers, this`trace, pending.issued
      ensures Linked() && State() == SessionModel.Drain(old(State()), id, |pending.order|)
    {
      hide AllGenuine, HandlersOf, FailuresOf, PendingRequests.Valid, PendingRequests.Contents;
      hide SessionModel.TryProcess;
      for i := 0 to |pending.order|
        invariant Linked() && State() == SessionModel.Drain(old(State()), id, i)
      {
        TryProcess(id, pending.order[i], i);
      }
    }

    /** Buffer a new request; `Some` names the error thrown. */
    method Enqueue(id: SocketId, request: Request) returns (thrown: Option<string>)
      requires Valid()
      modifies this`handlers, this`trace, this`snapshot, pending, pending.issued
      ensures Linked()
      ensures old(pending.issued) <= pending.issued && fresh(Elements(pending.issued[|old(pending.issued)|..]))
      ensures match LinkReplay.Enqueue(Keys(old(State()).pending), request.key)
              case Failure(fault) => thrown == Some(FaultText(fault)) && State() == old(State())
              case Success(_) => thrown == None && State() == Receive(old(State()), id, request)
    {
      hide AllGenuine, HandlersOf, FailuresOf, PendingRequests.Valid, PendingRequests.Contents;
      hide Sound, SessionModel.TryProcess, Keys, UniqueKeys, SessionModel.Admit;
      ghost var s := State();
      SoundParts(s);
      KeysCount(s.pending);
      var name := pending.Name(request.key);
      pending.FindsKey(request.key);
      if pending.Find(name).Some? {
        return Some(DUPLICATE);
      }
      if |pending.order| >= MAX_PENDING_REQUESTS {
        return Some(FULL);
      }
      AdmitGrows(s, id, request);
      Admit(id, name, request);
      assert Elements(pending.issued[|old(pending.issued)|..]) == {pending.issued[|old(pending.issued)|]};
      TryProcess(id, name, |s.pending|);
      thrown := None;
    }

    method Admit(id: SocketId, name: string, request: Request)
      requires Linked() && name == pending.Name(request.key) && name !in pending.entries
      modifies this`trace, this`snapshot, pending
      ensures Linked() && State() == SessionModel.Admit(old(State()), id, request)
      ensures pending.order == old(pending.order) + [name]
      ensures |pending.issued| == |old(pending.issued)| + 1 && old(pending.issued) <= pending.issued
      ensures fresh(pending.issued[|old(pending.issued)|])
    {
      hide AllGenuine, HandlersOf, FailuresOf, PendingRequests.Valid, PendingRequests.Contents;
      ghost var token := |pending.issued|;
      var entry := pending.Add(name, request);
      GenuineGrows(pending.text, old(pending.issued), handlers, failures, entry);
      trace := trace + [Delivered(id, token, request.key)];
      snapshot := snapshot.(pendingRequests := |pending.order|);
    }

    method Settle(name: string, ghost i: nat, outcome: Outcome)
      requires Linked() && i < |pending.order| && pending.order[i] == name
      modifies pending`order, pending`entries, this`snapshot, this`trace
      ensures Linked() && State() == SessionModel.Settle(old(State()), i, outcome)
    {
      hide AllGenuine, HandlersOf, FailuresOf, PendingRequests.Valid, PendingRequests.Contents;
      trace := trace + [Settled(State().pending[i].token, State().pending[i].request.key, outcome)];
      pending.Delete(name, i);
      snapshot := snapshot.(pendingRequests := |pending.order|);
    }

    method Cancel(key: Key, now: int)
      requires Valid()
      modifies pending`order, pending`entries, this`snapshot, this`trace
      ensures Valid() && State() == SessionModel.Cancel(old(State()), key, now)
      ensures Keys(State().pending) == Keys(old(State()).pending) - {key}
    {
      hide Sound, SessionModel.Settle, Keys;
      CancelIsSound(State(), key, now);
      var name := pending.Name(key);
      pending.FindsKey(key);
      var found := pending.Find(name);
      if found.None? {
        return;
      }
      Settle(name, IndexOf(State().pending, key), if now >= found.value.request.deadline then Expired else Canceled);
    }

    /** A handler's result arrives. */
    method HandlerDone(task: Task, result: Result<bytes, string>)
      requires Valid() && task in handlers
      modifies this`handlers, this`failures, this`snapshot, this`trace, pending`order, pending`entries
      ensures Valid() && State() == SessionModel.HandlerDone(old(State()), HandlerOf(task), result)
    {
      hide AllGenuine, HandlersOf, FailuresOf, PendingRequests.Valid, PendingRequests.Contents;
      hide Sound, SessionModel.Settle, Keys, IndexOf, See, Genuine;
      ghost var s := State();
      TaskEnds(pending.text, pending.issued, handlers, failures, task);
      HandlerDoneIsSound(s, HandlerOf(task), result);
      handlers := handlers - {task};
      assert State() == s.(handlers := s.handlers - {HandlerOf(task)});
      var thrown := if result.Failure? then Some(result.error) else None;
      if result.Success? {
        thrown := Answer(task, result.value);
      }
      if thrown.Some? {
        TaskFails(pending.text, pending.issued, handlers, failures, (task, thrown.value));
        ghost var t := State();
        failures := failures + {(task, thrown.value)};
        assert State() == t.(failures := t.failures + {(HandlerOf(task), thrown.value)});
      }
    }

    /** Answer only if the very same object is still buffered on the same socket; `Some` names the error thrown. */
    method Answer(task: Task, packet: bytes) returns (thrown: Option<string>)
      requires Linked() && Genuine(pending.text, pending.issued, task)
      modifies pending`order, pending`entries, this`snapshot, this`trace
      ensures Linked()
      ensures var s, h := old(State()), HandlerOf(task);
              var i := IndexOf(s.pending, h.key);
              var current := s.socket == Some(h.socket) && i < |s.pending| && s.pending[i].token == h.token;
              && thrown == (if current && !CanSend(s, h.socket) then Some(NOT_OPEN) else None)
              && State() == if current && CanSend(s, h.socket)
                            then SessionModel.Settle(See(s, [Responded(h.socket, h.token, h.key, packet)]), i, Signed)
                            else s
    {
      hide AllGenuine, HandlersOf, FailuresOf, PendingRequests.Valid, PendingRequests.Contents;
      hide SessionModel.Settle, Keys;
      thrown := None;
      pending.FindsKey(task.entry.request.key);
      pending.FindsEntry(task.entry);
      if socket != Some(task.socket) || pending.Find(task.name) != Some(task.entry) {
        return;
      }
      if task.socket >= |sockets| || !sockets[task.socket].state.Open? {
        return Some(NOT_OPEN);
      }
      ghost var i := IndexOf(State().pending, task.entry.request.key);
      trace := trace + [Responded(task.socket, task.entry.token, task.entry.request.key, packet)];
      Settle(task.name, i, Signed);
    }

    method HandlerFails(failure: (Task, string))
      requires Valid() && failure in failures
      modifies this`socket, this`retryTimer, this`snapshot, this`sockets, this`trace, this`failures
      modifies pending`order, pending`entries
      ensures Valid() && State() == SessionModel.HandlerFails(old(State()), (HandlerOf(failure.0), failure.1))
    {
      hide AllGenuine, HandlersOf, FailuresOf, PendingRequests.Valid, PendingRequests.Contents;
      hide Sound, SessionModel.Fail;
      FailureHandled(pending.text, pending.issued, handlers, failures, failure);
      FailuresArePlaced(State(), (HandlerOf(failure.0), failure.1));
      HandlerFailsIsSound(State(), (HandlerOf(failure.0), failure.1));
      Fail(failure.0.socket, failure.1);
      failures := failures - {failure};
    }

    // ----- Messages -----

    /** Publish an authenticated connection, introduce the agent, and offer what is buffered. */
    method Enter(id: SocketId, w: Welcome) returns (thrown: Option<string>)
      requires Linked()
      modifies this`snapshot, this`handlers, this`trace, pending.issued
      ensures Linked() && thrown == if CanSend(old(State()), id) then None else Some(NOT_OPEN)
      ensures SessionModel.Enter(old(State()), id, w) == Caught(State(), id, thrown)
    {
      hide AllGenuine, HandlersOf, FailuresOf, PendingRequests.Valid, PendingRequests.Contents;
      hide SessionModel.Drain;
      ghost var s := State();
      snapshot := Snapshot(Connected, Some(w.serverId), Some(w.sessionId), Some(w.vapidKey),
                           snapshot.pendingRequests, None);
      trace := trace + [Entered(id)];
      ghost var t := State();
      assert t == Welcomed(s, id, w);
      var sent := Send(id, SetIdentities(identities));
      if sent {
        sent := Send(id, Report(ready));
        assert State() == See(t, [Sent(id, SetIdentities(t.identities)), Sent(id, Report(t.ready))]);
        Drain(id);
      }
      thrown := if sent then None else Some(NOT_OPEN);
    }

    method Handshake(id: SocketId, m: ServerMessage, now: int) returns (thrown: Option<string>)
      requires Valid() && id < |sockets|
      modifies this, pending`order, pending`entries, pending.issued
      ensures Linked()
      ensures SessionModel.Handshake(old(State()), id, m, now) == Caught(State(), id, thrown)
    {
      hide AllGenuine, HandlersOf, FailuresOf, PendingRequests.Valid, PendingRequests.Contents;
      hide Sound, SessionModel.Enter, SessionModel.Finish;
      thrown := None;
      if endpoint.None? {
        return;
      }
      match m
      case RejectedByServer => Finish(id, Rejected, REJECTED);
      case Paired(w, clientId, credential) =>
        if pairing.Some? {
          return Some(ALREADY_PAIRED);
        }
        receiving := Saving(id, PairingRecord(endpoint.value, w.serverId, clientId, credential,
                                              sockets[id].clientLabel, now), w);
      case Authenticated(w) =>
        if pairing.None? || w.serverId != pairing.value.serverId {
          return Some(WRONG_SERVER);
        }
        thrown := Enter(id, w);
      case _ => thrown := Some(NO_HANDSHAKE);
    }

    method Dispatch(id: SocketId, m: ServerMessage, now: int) returns (thrown: Option<string>)
      requires Valid() && socket == Some(id)
      modifies this, pending, pending.issued
      ensures Linked()
      ensures old(pending.issued) <= pending.issued && fresh(Elements(pending.issued[|old(pending.issued)|..]))
      ensures SessionModel.Dispatch(old(State()), id, m, now) == Caught(State(), id, thrown)
    {
      hide Sound, SessionModel.TryProcess, SessionModel.Admit, SessionModel.Cancel, Keys;
      thrown := None;
      match m
      case Ping =>
        var sent := Send(id, Pong);
        thrown := if sent then None else Some(NOT_OPEN);
      case AgentRequest(request) => thrown := Enqueue(id, request);
      case CancelRequest(key) => Cancel(key, now);
      case _ => thrown := Some(LATE_HANDSHAKE);
    }

    /** Route one message, unless its socket was replaced meanwhile; `Some` names the error thrown. */
    method ReceiveMessage(id: SocketId, data: Inbound, now: int) returns (thrown: Option<string>)
      requires Valid() && id < |sockets|
      modifies this, pending, pending.issued
      ensures Linked()
      ensures old(pending.issued) <= pending.issued && fresh(Elements(pending.issued[|old(pending.issued)|..]))
      ensures SessionModel.ReceiveMessage(old(State()), id, data, now) == Caught(State(), id, thrown)
    {
      hide Sound, SessionModel.Handshake, SessionModel.Dispatch, Throw;
      thrown := None;
      if socket != Some(id) {
        return;
      }
      match data {
        case NotBinary => thrown := Some(NOT_BINARY);
        case Undecodable(error) => thrown := Some(error);
        case Decoded(m) =>
          if Waiting(snapshot.status) {
            thrown := Handshake(id, m, now);
          } else if snapshot.status.Connected? {
            thrown := Dispatch(id, m, now);
          }
      }
    }

    /** The receive chain takes up the next message. */
    method ReceiveNext(now: int)
      requires Valid() && receiving.Free? && inbox != []
      modifies this, pending, pending.issued
      ensures old(pending.issued) <= pending.issued && fresh(Elements(pending.issued[|old(pending.issued)|..]))
      ensures Valid() && State() == SessionModel.ReceiveNext(old(State()), now)
    {
      hide AllGenuine, HandlersOf, FailuresOf, PendingRequests.Valid, PendingRequests.Contents;
      hide Sound, SessionModel.ReceiveMessage;
      ghost var s := State();
      ReceiveNextIsSound(s, now);
      InboxIsFree(s);
      var id, data := inbox[0].0, inbox[0].1;
      inbox := inbox[1..];
      assert State() == s.(inbox := s.inbox[1..]);
      var thrown := ReceiveMessage(id, data, now);
      Catch(id, thrown);
    }

    /** A thrown error stays with the chain until it is handled. */
    method Catch(id: SocketId, thrown: Option<string>)
      requires Linked()
      modifies this`receiving
      ensures Linked() && State() == Caught(old(State()), id, thrown)
    {
      if thrown.Some? {
        receiving := Failing(id, thrown.value);
      }
    }

    /** The store has saved a new pairing, or failed to. */
    method PairingSaved(failed: Option<string>)
      requires Valid() && receiving.Saving?
      modifies this, pending.issued
      ensures Valid() && State() == SessionModel.PairingSaved(old(State()), failed)
    {
      hide AllGenuine, HandlersOf, FailuresOf, PendingRequests.Valid, PendingRequests.Contents;
      hide Sound, SessionModel.Enter, Throw;
      ghost var s := State();
      PairingSavedIsSound(s, failed);
      var id, record, w := receiving.socket, receiving.record, receiving.welcome;
      receiving := Free;
      assert State() == s.(receiving := Free);
      var thrown := failed;
      if failed.None? && socket == Some(id) {
        pairing := Some(record);
        assert State() == s.(receiving := Free, pairing := Some(record));
        thrown := Enter(id, w);
      }
      Catch(id, thrown);
    }

    /** The error thrown while receiving is handled. */
    method ReceiveFails()
      requires Valid() && receiving.Failing?
      modifies this, pending`order, pending`entries
      ensures Valid() && State() == SessionModel.ReceiveFails(old(State()))
    {
      hide AllGenuine, HandlersOf, FailuresOf, PendingRequests.Valid, PendingRequests.Contents;
      hide Sound, SessionModel.Fail;
      ghost var s := State();
      ReceiveFailsIsSound(s);
      ReceivingIsFree(s);
      var id, cause := receiving.socket, receiving.cause;
      receiving := Free;
      assert State() == s.(receiving := Free);
      Fail(id, cause);
    }

    // ----- The agent's side -----

    /** Publish agent availability and attempt buffered requests when unlocked; throws if the socket is not open. */
    method SetReady(ready: bool) returns (thrown: bool)
      requires Valid()
      modifies this, pending.issued
      ensures Valid() && State() == SessionModel.SetReady(old(State()), ready)
      ensures thrown <==> snapshot.status.Connected? && !CanSend(State(), socket.value)
    {
      hide AllGenuine, HandlersOf, FailuresOf, PendingRequests.Valid, PendingRequests.Contents;
      hide Sound, SessionModel.Drain;
      Ready();
      ghost var s := State();
      SetReadyIsSound(s, ready);
      this.ready := ready;
      assert State() == s.(ready := ready);
      thrown := false;
      if socket.None? || !snapshot.status.Connected? {
        return;
      }
      var sent := Send(socket.value, Report(ready));
      if sent && ready {
        DrainKeepsTransport(State(), socket.value, |pending.order|);
        Drain(socket.value);
      }
      thrown := !sent;
    }

    /** Register a push subscription; throws unless connected through an open socket. */
    method RegisterPushSubscription(subscription: bytes) returns (thrown: bool)
      requires Valid()
      modifies this`trace
      ensures Valid() && State() == Tell(old(State()), SetPushSubscription(subscription))
      ensures thrown <==> !snapshot.status.Connected? || !CanSend(State(), socket.value)
    {
      hide Sound;
      Ready();
      TellIsSound(State(), SetPushSubscription(subscription));
      if socket.None? || !snapshot.status.Connected? {
        return true;
      }
      var sent := Send(socket.value, SetPushSubscription(subscription));
      thrown := !sent;
    }

    method ReplaceIdentities(identities: seq<(bytes, string)>) returns (thrown: bool)
      requires Valid()
      modifies this`identities, this`trace
      ensures Valid() && State() == SessionModel.ReplaceIdentities(old(State()), identities)
      ensures thrown <==> snapshot.status.Connected? && !CanSend(State(), socket.value)
    {
      hide AllGenuine, HandlersOf, FailuresOf, PendingRequests.Valid, PendingRequests.Contents;
      hide Sound;
      Ready();
      ReplaceIdentitiesIsSound(State(), identities);
      ghost var s := State();
      this.identities := identities;
      assert State() == s.(identities := identities);
      thrown := false;
      if socket.None? || !snapshot.status.Connected? {
        return;
      }
      var sent := Send(socket.value, SetIdentities(identities));
      thrown := !sent;
    }
  }
}
