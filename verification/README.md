# agent-witness in Dafny

agent-witness lets a browser answer SSH-agent requests for a machine that holds no keys. A local
connection sends SSH-agent packets to the server; the server's broker queues them and dispatches
them to the one paired browser session; the browser's session buffers them, has them signed, and
answers. This project models that path and proves what holds over whole runs of it.

## Layout

**The request broker.** `Ledger` is the reference: requests in admission order, in flight first.
`LedgerSafety`, `LedgerEffects`, `LedgerWakes` and `LedgerHistory` prove what one step keeps, emits
and carries; `BrokerRuns` and `BrokerProgress` lift this to every run. `BrokerModel` holds the class
`BrokerState`, with the map, the queue and the flag the code updates in place, proved against the
ledger. `BrokerActor` is the actor around it: waiters, outbound slot, effect work-list, send failures.

**The two-party protocol.** `LinkReplay`, `RemoteProtocol` and `RemoteSafety` put the broker and its
clients at the ends of FIFO channels and prove a distributed invariant of every run; `RemoteOverflow`
settles exactly when a client's buffer can overflow.

**The client session.** `SessionModel` has one transition per stretch of code between two `await`s;
suspended work is part of the state, so a run is any interleaving. `SessionSafety` proves the
invariant transition by transition, `SessionRuns` states it for every run, `SessionEffort` treats
reconnection and `SessionSilence` what follows a failure. `ClientConduct` is a separate rule for what
an observer may see, with its consequences for whole histories. `ClientSession` holds the class
`RemoteSession`, whose buffer (`RequestBuffer`) is an insertion-ordered map from text to request
objects; its methods are proved to compute the transitions, which needs that the text names one
request and attempt (`RequestKey`). `ClientRefinement` proves that the session is an implementation of
the protocol's client, and `SessionInSystem` puts it in the client's place, in one run over all its
reconnections.

**Codecs.** `Wire`, `BigEndian`, `Utf8` and `SshEncoding` (section 5 of RFC 4251), `OpenSshKey`
(OpenSSH PROTOCOL.key), `RsaJwk` (section 2 of RFC 7518, section 3.2 of RFC 8017), `ContextCodec` for
the context extension, `ShellQuoting` (sections 2.2, 2.4 and 2.9.1 of the
POSIX Shell Command Language).

**Pairing and local connections.** `Pairing` and `PairingCode` for the saved pairing state,
`LocalRouter`, `LocalConnection` and `LocalCode` for routing packets and answering them in order.

## Properties that do not hold, and when they do

- *Every submitted request is completed or pending.* A second session that is refused while a
  request is overdue drops that request's completion (`crates/server/src/broker/model.rs:64-66` and
  `102-115`, `crates/server/src/broker/task.rs:293-295`). `RefusalCanLoseARequest` is such a run;
  `EverySubmissionAccountedExactly` says the property holds exactly when this never happens.
- *The client never reports a full buffer.* The configuration admits capacities above the client's
  limit of 32 (`crates/server/src/config.rs:162`), and a refused session drops the recalls of what is
  overdue, which the client then keeps. `Overflows` gives such a run whenever the bound on requests in
  flight and the requests lost on one link together exceed 32; `FaultFreeExactly` says that these are
  the only ones. The duplicate-request error is unreachable in every run (`NeverDuplicate`).
- *A waiting session keeps trying to connect.* Forgetting another endpoint's pairing, or failing to
  delete its own, ends the present attempt and starts none
  (`packages/app/src/remote/session.ts:331-346`). `ForgettingAnotherStops` is such a run;
  `TryingExactly` gives the exact condition.
- *A session that failed holds no socket.* An attempt that fails while the endpoint's pairing is being
  deleted leaves the session with an error, and the attempt that the deletion starts then connects it;
  such a session ignores every message (`packages/app/src/remote/session.ts:331-346`, `409-413`).
  `FailedSessionConnects` is such a run; `MuteExactly` gives the exact condition.
- *What is in memory is what is stored.* A save can replace the file and then fail to sync its directory
  (`crates/server/src/remote/pairing/file.rs:137-143`); the operation is reported as failed and memory
  stays. `UnconfirmedClearForgets` and `UnconfirmedPairLocks` show what a restart then does.
  `StoredIsMemoryExactly` and `RestartKnowsExactly` give the exact conditions, on the last operation that
  replaced the store and what was in memory before it (`Rewrites`).
- *The printed command is unambiguous.* An argument vector that starts with a safe `name=value` or with a
  reserved word is printed bare, and a shell reads an assignment or a compound command
  (`packages/app/src/app/signing/formatCommand.ts:1-17`). `AssignmentIsMisread` is such a vector;
  `UnambiguousExactly` gives the exact condition.
- *An mpint is minimal.* Zero is written as one zero byte, where section 5 of RFC 4251 has none;
  `MpintMinimal` says so exactly.
- *A text field is kept.* Decoding drops a leading byte order mark and replaces ill-formed bytes, so a
  key file whose cipher field is a byte order mark followed by "none" is accepted
  (`MarkedCipherParses`); `TextKeepsExactly` says which fields are kept.

## How the outside enters

Time, random ids and whether a send, a save or a handler succeeds are parameters of the steps.
Request, session and client ids are fresh, as UUIDs are. Instants are integers and counters
unbounded (`AttemptsBoundedBySessions` bounds the attempt counter). A message is delivered while its
socket is open, as browsers do; closing and error events may come at any time. A save replaces the
stored state as a whole or not at all, and may report a failure in either case. Request ids are
numbers in the protocol; the session is given their text, an injective function. Text is kept as the
UTF-8 of its characters. The digest of a credential and the encoding of an identities answer are
functions without properties; identities count as valid exactly when they can be encoded. An
identity request is the one-byte message 11 of the SSH agent protocol.

## Model


| member | source | states |
|---|---|---|
| `LedgerSafety.StepKeepsSound` | crates/server/src/broker/model.rs:64-202 | Every step, refused or not, keeps admission order with in-flight work before queued work, in-flight work within the session's capacity, the total within the limit, and the wake flag true exactly when queued work waits offline; after an accepted step a connected session is full or the queue is empty |
| `LedgerSafety.RefusedExactly` | crates/server/src/broker/model.rs:102-115 | The only refused event is a session connecting while another is connected |
| `BrokerModel.QueueIsQueuedInAdmissionOrder` | crates/server/src/broker/model.rs:64-202 | In every valid state the queue is duplicate-free, is exactly the pending requests in state Queued, sorted by admission sequence, and every in-flight request belongs to the current session and was admitted before every queued one |
| `BrokerModel.InSequenceUnique` | crates/server/src/broker/model.rs:331-352 | There is only one list of given ids in strict admission order, so requeueing to the front restores the global order |
| `BrokerModel.BrokerState.constructor` | crates/server/src/broker/model.rs:52-61 | A new broker is valid and represents the empty ledger with its limit |
| `BrokerModel.BrokerState.Apply` | crates/server/src/broker/model.rs:64-202 | The map, queue, agent, sequence and wake flag after expire, update and reconcile represent the ledger's step, and result and effects are the ledger's, for every event; a refusal drops the effects |
| `BrokerModel.BrokerState.NextDeadline` | crates/server/src/broker/model.rs:204-206 | The earliest deadline of any pending request, none exactly when nothing is pending |
| `BrokerModel.BrokerState.ExpireOverdue` | crates/server/src/broker/model.rs:209-247 | Exactly the requests at or past their deadline leave, recalled where in flight and completed as timed out, in admission order |
| `BrokerModel.BrokerState.CollectOverdue` | crates/server/src/broker/model.rs:209-220 | The overdue ids in admission order, and that removing them represents the expired ledger |
| `BrokerModel.BrokerState.SortBySequence` | crates/server/src/broker/model.rs:210-216 | The ids sorted strictly by admission sequence, none added or missing |
| `BrokerModel.BrokerState.Withdraw` | crates/server/src/broker/model.rs:222-246 | Removes exactly the given requests and emits, per request, a recall when it was in flight and its completion |
| `BrokerModel.BrokerState.Update` | crates/server/src/broker/model.rs:67-197 | The fact change of one event, for every event kind, matches the ledger's |
| `BrokerModel.BrokerState.Admit` | crates/server/src/broker/model.rs:68-101 | Admits a request last in order, or completes it as queue-full when the limit is reached |
| `BrokerModel.BrokerState.Resolve` | crates/server/src/broker/model.rs:153-174 | A response completes a request only in the session and attempt it is in flight with; any other changes nothing |
| `BrokerModel.BrokerState.Revoke` | crates/server/src/broker/model.rs:175-196 | A cancellation removes the request wherever it is, recalls it if in flight, and completes it as cancelled; an unknown id changes nothing |
| `BrokerModel.BrokerState.RequeueSession` | crates/server/src/broker/model.rs:331-352 | All work of the session is queued again in front, and the queue is in admission order |
| `BrokerModel.BrokerState.ReconcileGates` | crates/server/src/broker/model.rs:250-299 | Dispatches from the front while there is room, or announces offline work once, as the ledger does |
| `BrokerModel.BrokerState.DispatchQueued` | crates/server/src/broker/model.rs:256-280 | Dispatches the longest queue prefix that fits the capacity, each with its next attempt |
| `BrokerModel.BrokerState.InFlightFor` | crates/server/src/broker/model.rs:315-328 | The number of pending requests in flight in a session |
| `BrokerModel.BrokerState.QueuedReasons` | crates/server/src/broker/model.rs:282-296 | The distinct reasons of the queue in first-occurrence order |
| `LedgerEffects.StepConserves` | crates/server/src/broker/model.rs:64-247 | For every id: pending before plus submitted equals pending after plus completed plus lost, one step at a time |
| `LedgerEffects.LostExactly` | crates/server/src/broker/model.rs:102-115 | A step loses completions exactly when it refuses a second session while something is overdue, and the requests lost are exactly the overdue ones |
| `LedgerWakes.WakesExactly` | crates/server/src/broker/model.rs:282-296 | A step emits at most one wake, exactly when it admits a request offline or drops the active session with unfinished work, naming the reasons of the queue it leaves |
| `LedgerWakes.ReasonsInFirstOccurrenceOrder` | crates/server/src/broker/model.rs:282-296 | The reasons have no repetition, are exactly those of the queue, and follow the order of first occurrence |
| `LedgerWakes.ReadinessNeverGates` | crates/server/src/broker/model.rs:116-145 | Ready and locked reports change no effect of any step and nothing of the state but the label |
| `LedgerHistory.AnsweredOnlyInFlight` | crates/server/src/broker/model.rs:153-174 | A successful completion in a step means the event was a response naming the session and attempt the request is in flight with, before its deadline |
| `LedgerHistory.CompletedExactly` | crates/server/src/broker/model.rs:64-247 | An accepted step completes a request with a result if and only if the result's one reason holds: overdue, cancelled while awaited, refused by the limit, or answered in its session and attempt before the deadline |
| `BrokerRuns.RunConserves` | crates/server/src/broker/model.rs:64-247 | Over every run the invariant holds and each submitted id is pending, completed or lost, exactly once in total |
| `BrokerRuns.CompletedAtMostOnce` | crates/server/src/broker/model.rs:64-247 | Over every run no id is completed twice, and none is both completed and pending |
| `BrokerRuns.EverySubmissionAccountedExactly` | crates/server/src/broker/task.rs:293-295 | After every run all submitted ids are pending or completed if and only if no refused session coincided with an overdue request |
| `BrokerRuns.RefusalCanLoseARequest` | crates/server/src/broker/task.rs:293-295 | A concrete run in which a refused session leaves an overdue request neither pending nor completed |
| `BrokerRuns.DeadlineEnforced` | crates/server/src/broker/model.rs:209-247 | After any accepted step at or past its deadline a submitted request is no longer pending |
| `BrokerRuns.DispatchCarriesSubmission` | crates/server/src/broker/model.rs:256-279 | Every dispatch of a run carries the packet, context and timestamps of the submission with its id |
| `BrokerRuns.InFlightHistory` | crates/server/src/broker/model.rs:256-279 | Whatever is in flight was dispatched by the run in this session and attempt, and nothing has touched it since |
| `BrokerRuns.AnswerMatchesLatestDispatch` | crates/server/src/broker/model.rs:153-174 | A successful completion answers the most recent dispatch of that request, with no disconnect, cancel or completion in between, strictly before the deadline |
| `BrokerProgress.EachAttemptDispatchedOnce` | crates/server/src/broker/model.rs:256-279 | No pair of request and attempt is dispatched twice over any run |
| `BrokerProgress.DeadlineTicksDrain` | crates/server/src/broker/model.rs:204-247 | As many ticks at the next deadline as there are pending requests leave none pending |
| `BrokerProgress.AttemptsBoundedBySessions` | crates/server/src/broker/model.rs:256-279 | No attempt number exceeds the number of sessions opened, so the 32-bit counter of the code cannot wrap before that many reconnections |
| `BrokerProgress.ReadinessNeverGatesRuns` | crates/server/src/broker/model.rs:116-145 | Replacing every ready and locked event of a run by a tick gives the same effects step by step and the same states up to the label |
| `BrokerActor.BrokerActor.constructor` | crates/server/src/broker/task.rs:176-182 | A new actor is valid: no waiters, no answers, no session |
| `BrokerActor.BrokerActor.Execute` | crates/server/src/broker/task.rs:342-409 | Ends however many sends fail: the first failed dispatch requeues everything and adds one wake, nothing more is sent; every completion reaches its waiter once, wakes are exactly those emitted, and the commands sent are exactly those before the failure |
| `BrokerActor.BrokerActor.Perform` | crates/server/src/broker/task.rs:345-408 | One effect: what it sends, answers, announces, and the effects a failed dispatch feeds back |
| `BrokerActor.BrokerActor.CloseSession` | crates/server/src/broker/task.rs:374-382 | A failed send closes the session once, giving one wake; a second close is silent |
| `BrokerActor.BrokerActor.ApplyEvent` | crates/server/src/broker/task.rs:335-339 | Waiters are the pending ids (plus those stranded earlier), the outbound slot names the session of the state, and state, wakes, commands and answers are those of the step |
| `BrokerActor.BrokerActor.HandleLocal` | crates/server/src/broker/task.rs:227-267 | A submission with deadline now plus timeout is admitted and its waiter registered, or answered at once; all callers so far wait or have their one answer |
| `BrokerActor.BrokerActor.HandleConnect` | crates/server/src/broker/task.rs:274-297 | A session is accepted exactly when the slot is free; a refusal changes no waiter but strands those whose requests are overdue |
| `BrokerActor.BrokerActor.HandleDisconnected` | crates/server/src/broker/task.rs:300-310 | A closed session frees the slot only if it holds it, and its work is requeued |
| `BrokerActor.BrokerActor.HandleOther` | crates/server/src/broker/task.rs:298-324 | Readiness, responses, cancellations and deadlines keep waiters and slot in step with the state |
| `BrokerActor.BrokerActor.Stop` | crates/server/src/broker/task.rs:411-416 | Every remaining waiter is answered as unavailable, earlier answers are kept, and so exactly those who ever submitted have an answer, one each |
| `RemoteProtocol.CommandsAreSent` | crates/server/src/broker/task.rs:347-397 | The commands the composition posts on a link are those the actor sends when no send fails |
| `RemoteProtocol.StepOnLink` | crates/server/src/broker/model.rs:250-280 | A broker step that keeps the session keeps the link invariant with its recalls and dispatches appended |
| `RemoteSafety.NextKeepsInv` | packages/app/src/remote/session.ts:522-559 | Every enabled step of broker, channels and client keeps the distributed invariant; no client reports a duplicate, and a full buffer only on a link whose capacity and lost requests together exceed 32 |
| `RemoteSafety.ReachableStatesAreSafe` | packages/app/src/remote/session.ts:522-559 | In every reachable state, replaying any prefix of the undelivered commands on the client's buffer is free of duplicates and stays within capacity plus losses, and on the active link the full replay is in flight or lost |
| `RemoteSafety.NeverDuplicate` | packages/app/src/remote/session.ts:527-529 | The client's duplicate-request error is unreachable in every run |
| `RemoteSafety.FaultsNeedLoad` | packages/app/src/remote/session.ts:530-532 | Over runs with capacities up to a limit and at most so many requests lost per link, no client reports an error if nothing can be sent or all of it fits 32 |
| `RemoteOverflow.Overflows` | crates/server/src/config.rs:162 | Whenever capacity and losses together exceed 32, a run with those capacities and losses makes the client report a full buffer |
| `RemoteOverflow.FaultFreeExactly` | packages/app/src/remote/session.ts:527-532 | For every queue limit, capacity limit and number of losses: no run makes a client report an error if and only if the bound on requests in flight is zero or, with the losses, at most 32 |
| `LinkReplay.Enqueue` | packages/app/src/remote/session.ts:526-532 | The client's admission check: success means the key was new and at most 32 are buffered |
| `ClientRefinement.Simulates` | packages/app/src/remote/session.ts:252-738 | Every one of the eighteen kinds of session step, from any represented state, is a stutter, a delivery without fault, a response or a close of the protocol's client, and the state stays represented |
| `ClientRefinement.CommandTook` | packages/app/src/remote/session.ts:394-430 | A command taken up by the connected session changes its set of buffered keys as the protocol's client does, or throws exactly the protocol's fault; before authentication it throws |
| `ClientRefinement.AnswerReplies` | packages/app/src/remote/session.ts:583-598 | Answering takes exactly that key out of the buffer and sends exactly one response on its socket |
| `SessionInSystem.AcceptKeepsInv` | packages/app/src/remote/session.ts:252-309 | The server may accept any socket of the session not accepted before, current, replaced or given up; the socket then represents its own new link |
| `SessionInSystem.StepKeepsInv` | packages/app/src/remote/session.ts:252-738 | With the session in place of the client on all its links, every step of broker, channels, other clients and session keeps the distributed invariant and the representation on every accepted socket |
| `SessionInSystem.IsProtocolRun` | packages/app/src/remote/session.ts:252-738 | Whatever the session does over any number of reconnections, what the server goes through is a run of the protocol with the same capacities |
| `SessionInSystem.SessionIsSafe` | packages/app/src/remote/session.ts:522-559 | In every run from a new broker and a new session, over all reconnections and on every accepted socket: the buffer in use and what is under way to it stay within capacity and losses without duplicates and within what the broker has in flight or lost, and the replies sent are those the server got or is yet to get |
| `SessionInSystem.SessionThrowsOnlyUnderLoad` | packages/app/src/remote/session.ts:527-532 | In every such run, taking up a command while connected never throws the duplicate-request error, and the full-buffer error only where capacity and losses of that link exceed 32 |
| `SessionInSystem.SessionNeverThrows` | packages/app/src/remote/session.ts:527-532 | In every such run with capacities up to a limit and at most so many losses per link, taking up a command never throws if nothing can be sent or all of it fits 32 |
| `SessionInSystem.AnswersComeFromTheAgent` | packages/app/src/remote/session.ts:572-598 | A packet that completes a request through one of the session's links was sent by the session on that socket, after that request and attempt was delivered there and handed to the agent with nothing in between, and the request is in flight there in that attempt before its deadline |
| `ClientConduct.AnswersTheirDelivery` | packages/app/src/remote/session.ts:583-598 | A response is preceded by its delivery on the very same socket and its hand-over to the agent, with no close, cancel or other answer in between |
| `ClientConduct.AnsweredAtMostOnce` | packages/app/src/remote/session.ts:583-598 | No delivered request is answered twice in any history |
| `ClientConduct.HandedAtMostOnce` | packages/app/src/remote/session.ts:572-583 | No delivered request is handed to the agent twice |
| `ClientConduct.SettledIsFinal` | packages/app/src/remote/session.ts:546-559 | After a request settled, by answer or cancellation, it is never handed over, answered or settled again |
| `ClientConduct.SettlesTheirDelivery` | packages/app/src/remote/session.ts:554-557 | A settlement follows its delivery, and only an answered request settles as signed |
| `ClientConduct.ClosedUnlessCurrent` | packages/app/src/remote/session.ts:314-326 | Every socket created is either the current one or has been closed, never both |
| `ClientConduct.ClosedIsFinal` | packages/app/src/remote/session.ts:605-611 | Nothing is sent, buffered or answered on a socket after it was closed, and none is closed twice |
| `ClientConduct.DisconnectsMatchConnections` | packages/app/src/remote/session.ts:323-325 | Entries into the connected state and disconnect notices match one to one, up to the entry still open |
| `SessionRuns.NextIsSound` | packages/app/src/remote/session.ts:195-738 | Each of the eighteen kinds of step, in any interleaving, keeps the session's invariant |
| `SessionRuns.SessionGuarantees` | packages/app/src/remote/session.ts:252-738 | Over every interleaving: conduct is legal, the published count is the buffer's size and at most 32, connected implies a socket, all other sockets ever created are closed, and disconnects were announced once each |
| `SessionEffort.TryingExactly` | packages/app/src/remote/session.ts:660-698 | A session that is trying to connect stops trying at a step exactly when it starts to delete another endpoint's pairing while its own is not being deleted, or the deletion of its own fails and was all under way |
| `SessionEffort.KeepsTrying` | packages/app/src/remote/session.ts:687-698 | A run without such a step is, in every state, inactive, terminal, connected, or has a socket, a current opener, a retry or the deletion of its own pairing pending |
| `SessionEffort.ForgettingAnotherStops` | packages/app/src/remote/session.ts:331-346 | A concrete run in which forgetting another endpoint's pairing leaves the session reconnecting with nothing scheduled, during the deletion and after it |
| `SessionSilence.MuteExactly` | packages/app/src/remote/session.ts:269-284 | A session comes to hold a socket in a terminal state exactly when the opener of the latest generation adopts one after the session gave up |
| `SessionSilence.FailedIsClosed` | packages/app/src/remote/session.ts:629-650 | Without such a step a session that reports an error or a rejection holds no socket |
| `SessionSilence.FailedSessionConnects` | packages/app/src/remote/session.ts:331-346 | A concrete run in which an attempt fails while the pairing is being deleted, and the attempt started by the deletion connects a session that reports an error |
| `SessionSilence.MuteIgnores` | packages/app/src/remote/session.ts:394-413 | A session that holds a socket in a terminal state takes up every decoded message without effect |
| `RequestBuffer.PendingRequests.FindsKey` | packages/app/src/remote/session.ts:740-742 | Looking up the text of a request and attempt finds the object that holds exactly this pair, if and only if it is buffered |
| `RequestBuffer.PendingRequests.FindsEntry` | packages/app/src/remote/session.ts:584-586 | The text leads to the very same object exactly when the buffered request has its identity |
| `RequestBuffer.PendingRequests.Add` | packages/app/src/remote/session.ts:534-538 | The request is a new object, last in the order of insertion |
| `RequestBuffer.PendingRequests.Delete` | packages/app/src/remote/session.ts:553 | Exactly the entry under that text leaves, the order of the others kept |
| `RequestBuffer.PendingRequests.Start` | packages/app/src/remote/session.ts:582 | Marking one object as being processed changes exactly one buffered request |
| `SessionSafety.AnswerableIsWorking` | packages/app/src/remote/session.ts:583-598 | A handler whose entry is still the buffered one finds it being processed, so no idle request is answered |
| `SessionSafety.ReceiveIsSound` | packages/app/src/remote/session.ts:522-541 | Buffering keeps the invariant, and the keys afterwards are those the admission check gives |
| `SessionSafety.CancelIsSound` | packages/app/src/remote/session.ts:546-559 | Cancelling keeps the invariant and removes exactly that key |
| `SessionSafety.HandlerFailsIsSound` | packages/app/src/remote/session.ts:599 | Handling a handler's failure keeps the invariant: whatever it attended to goes with its socket |
| `RequestKey.RequestKeyInjective` | packages/app/src/remote/session.ts:740-742 | Distinct pairs of request id and attempt have distinct keys, for any text as id |
| `ClientSession.RemoteSession.constructor` | packages/app/src/remote/session.ts:168-176 | A new session is sound and represents the initial state, whatever injective text request ids have |
| `ClientSession.RemoteSession.Finish` | packages/app/src/remote/session.ts:629-650 | A terminal status with its error, no retry, socket closed; nothing at all for a replaced socket |
| `ClientSession.RemoteSession.ConnectionLost` | packages/app/src/remote/session.ts:662-684 | Reconnecting with one retry pending while active; nothing at all for a replaced socket |
| `ClientSession.RemoteSession.Fail` | packages/app/src/remote/session.ts:616-624 | A failure is terminal on an open socket and a lost connection otherwise |
| `ClientSession.RemoteSession.Open` | packages/app/src/remote/session.ts:252-259 | An attempt of a new generation starts exactly when active, configured and without socket |
| `ClientSession.RemoteSession.Connect` | packages/app/src/remote/session.ts:195-210 | The new endpoint and label are wanted, everything of the old connection is gone, and an attempt is under way |
| `ClientSession.RemoteSession.SetActive` | packages/app/src/remote/session.ts:215-247 | Inactive closes, active reopens where there is no socket, terminal states stay |
| `ClientSession.RemoteSession.OpenLoaded` | packages/app/src/remote/session.ts:260-309 | Only the opener of the current generation creates a socket or reports an error |
| `ClientSession.RemoteSession.ForgetPairing` | packages/app/src/remote/session.ts:331-342 | The connection is dropped before the deletion starts |
| `ClientSession.RemoteSession.ForgetDone` | packages/app/src/remote/session.ts:342-346 | A deletion that succeeded for the current endpoint starts an attempt; no other does |
| `ClientSession.RemoteSession.RetryFires` | packages/app/src/remote/session.ts:694-697 | The retry is used up and an attempt starts where allowed |
| `ClientSession.RemoteSession.SocketOpened` | packages/app/src/remote/session.ts:286-301 | The opened socket is greeted with authentication if paired, a pair request otherwise |
| `ClientSession.RemoteSession.SocketDrops` | packages/app/src/remote/session.ts:605-608 | A socket that ended elsewhere changes nothing else until its event is handled |
| `ClientSession.RemoteSession.MessageArrives` | packages/app/src/remote/session.ts:302-306 | Messages are queued in arrival order |
| `ClientSession.RemoteSession.Drain` | packages/app/src/remote/session.ts:564-566 | Every buffered request is offered once, in arrival order |
| `ClientSession.RemoteSession.Enqueue` | packages/app/src/remote/session.ts:522-541 | Decided by text, exactly a duplicate key or a 33rd request throws and changes nothing; any other is buffered as a new object and offered |
| `ClientSession.RemoteSession.Cancel` | packages/app/src/remote/session.ts:546-559 | The request leaves the buffer, expired at or past its deadline and cancelled before; unknown keys change nothing |
| `ClientSession.RemoteSession.HandlerDone` | packages/app/src/remote/session.ts:583-599 | Comparing objects, a result answers only the very request it was started for, on its socket; failures are kept for handling |
| `ClientSession.RemoteSession.HandlerFails` | packages/app/src/remote/session.ts:599 | The failure is handled on the handler's own socket |
| `ClientSession.RemoteSession.ReceiveNext` | packages/app/src/remote/session.ts:302-306 | The chain takes messages one at a time, keeping a thrown error until it is handled |
| `ClientSession.RemoteSession.PairingSaved` | packages/app/src/remote/session.ts:462-474 | A saved pairing connects only the socket it came from; a failed save throws |
| `ClientSession.RemoteSession.ReceiveFails` | packages/app/src/remote/session.ts:305 | The kept error is handled on its own socket and the chain goes on |
| `ClientSession.RemoteSession.SetReady` | packages/app/src/remote/session.ts:351-362 | Readiness is remembered always, reported when connected, and unlocking offers every buffered request; throws exactly on a connected socket that is not open |
| `ClientSession.RemoteSession.RegisterPushSubscription` | packages/app/src/remote/session.ts:367-374 | Sends the registration when connected and throws otherwise |
| `ClientSession.RemoteSession.ReplaceIdentities` | packages/app/src/remote/session.ts:377-389 | Identities are remembered always and sent when connected |
| `Wire.TakeBlobWritten` | packages/app/src/ssh/encoding.ts:78-80 | A length-prefixed field shorter than 2^32 is read back exactly, leaving what followed |
| `Wire.TakenWasWritten` | packages/app/src/ssh/encoding.ts:44-80 | Whatever a read returns is what the matching write produces, so each field has one encoding |
| `BigEndian.StripKeepsValue` | packages/app/src/ssh/encoding.ts:15-18 | Dropping leading zeros keeps the number, gives its shortest form, and keeps a byte of a zero |
| `BigEndian.ShortestUnique` | packages/app/src/ssh/encoding.ts:15-18 | A positive number has exactly one shortest big-endian form |
| `SshEncoding.MpintRoundTrip` | packages/app/src/ssh/encoding.ts:92-94 | Writing an mpint and reading it gives the stripped magnitude, of the same value |
| `SshEncoding.MpintValue` | packages/app/src/ssh/encoding.ts:144-148 | The bytes written, read as two's complement, have the magnitude's value |
| `SshEncoding.MpintMinimal` | packages/app/src/ssh/encoding.ts:144-148 | The bytes are minimal in the sense of section 5 of RFC 4251 exactly when the value is positive or the magnitude empty; the zero byte is the exception |
| `SshEncoding.MpintUnique` | packages/app/src/ssh/encoding.ts:144-148 | For a positive value any minimal two's complement form equals the bytes written |
| `SshEncoding.FieldsRoundTrip` | packages/app/src/ssh/encoding.ts:101-156 | Any sequence of fields is read back by the matching reads with nothing left over |
| `SshEncoding.Writer.constructor` | packages/app/src/ssh/encoding.ts:101-102 | An empty writer |
| `SshEncoding.Writer.Push` | packages/app/src/ssh/encoding.ts:125-128 | The chunk is appended to the contents |
| `SshEncoding.Writer.Byte` | packages/app/src/ssh/encoding.ts:107-110 | Appends one byte |
| `SshEncoding.Writer.Word` | packages/app/src/ssh/encoding.ts:115-120 | Appends four big-endian bytes of the number modulo 2^32 |
| `SshEncoding.Writer.Raw` | packages/app/src/ssh/encoding.ts:125-128 | Appends raw bytes |
| `SshEncoding.Writer.Text` | packages/app/src/ssh/encoding.ts:133-138 | Appends a length prefix and the bytes |
| `SshEncoding.Writer.Integer` | packages/app/src/ssh/encoding.ts:144-148 | Appends the mpint field of the magnitude |
| `SshEncoding.Writer.Finish` | packages/app/src/ssh/encoding.ts:153-155 | The flattened contents, chunk by chunk |
| `SshEncoding.Reader.constructor` | packages/app/src/ssh/encoding.ts:29-32 | The cursor is at the start |
| `SshEncoding.Reader.Remaining` | packages/app/src/ssh/encoding.ts:37-39 | The number of unread bytes |
| `SshEncoding.Reader.Take` | packages/app/src/ssh/encoding.ts:44-51 | Advances within the buffer or fails without moving, negative sizes included |
| `SshEncoding.Reader.Byte` | packages/app/src/ssh/encoding.ts:56-58 | The next byte, or the end-of-buffer error |
| `SshEncoding.Reader.Word` | packages/app/src/ssh/encoding.ts:63-65 | The next big-endian word, or the error |
| `SshEncoding.Reader.Raw` | packages/app/src/ssh/encoding.ts:70-73 | The next bytes, or the error |
| `SshEncoding.Reader.Text` | packages/app/src/ssh/encoding.ts:78-80 | The next length-prefixed field, or the error |
| `SshEncoding.Reader.Decoded` | packages/app/src/ssh/encoding.ts:85-87 | The same, decoded as text |
| `SshEncoding.Reader.Integer` | packages/app/src/ssh/encoding.ts:92-94 | The same, without leading zeros |
| `Utf8.LossyKeepsExactly` | crates/server/src/request_router/context.rs:83 | Lossy decoding keeps exactly the well-formed byte strings |
| `Utf8.TextKeepsExactly` | packages/app/src/ssh/encoding.ts:85-87 | Text decoding keeps exactly the well-formed strings that do not start with a byte order mark |
| `OpenSshKey.ParsesLayout` | packages/app/src/ssh/key.ts:122-194 | Every well-formed container layout is accepted and parsed into the key it lays out, for all three types and any padding length |
| `OpenSshKey.ParsedIsLayout` | packages/app/src/ssh/key.ts:122-194 | Whatever is accepted is byte for byte a well-formed layout of the key returned, up to ignored trailing bytes |
| `OpenSshKey.ReferenceRoundTrip` | packages/app/src/ssh/key.ts:122-194 | The container OpenSSH writes for a canonical key parses back to the key, whatever check number and padding |
| `OpenSshKey.MarkedCipherParses` | packages/app/src/ssh/key.ts:138-142 | A byte order mark before the cipher name gives a different file that is accepted and holds the same key |
| `OpenSshKey.EncryptedIsUnsupported` | packages/app/src/ssh/key.ts:138-142 | A header that is not cipher none and kdf none is refused as encrypted, whatever follows |
| `OpenSshKey.UnknownTypeIsUnsupported` | packages/app/src/ssh/key.ts:193 | A private section naming another key type is refused as unsupported |
| `OpenSshKey.DecodeContainer` | packages/app/src/ssh/key.ts:122-194 | The parser's code computes the specified result on every byte string |
| `OpenSshKey.VerifyPadding` | packages/app/src/ssh/key.ts:109-116 | Accepts exactly the bytes 1, 2, 3 and so on modulo 256 |
| `OpenSshKey.DecodePrivate` | packages/app/src/ssh/key.ts:149-193 | Check numbers must agree; then the type decides |
| `OpenSshKey.DecodeBody` | packages/app/src/ssh/key.ts:161-193 | One of the three types, or unsupported |
| `OpenSshKey.DecodeEd25519` | packages/app/src/ssh/key.ts:161-168 | Public key, secret, comment and padding, the seed being the first 32 bytes |
| `OpenSshKey.DecodeRsa` | packages/app/src/ssh/key.ts:170-181 | The six integers in file order, comment and padding |
| `OpenSshKey.DecodeEcdsa` | packages/app/src/ssh/key.ts:183-191 | Curve, point, scalar, comment and padding |
| `OpenSshKey.DecodeTail` | packages/app/src/ssh/key.ts:164-165 | The comment as text, and the padding check |
| `RsaJwk.ToBigIntFolds` | packages/app/src/crypto/ssh.ts:72-74 | Folding the bytes gives the number they denote |
| `RsaJwk.FromBigIntDenotes` | packages/app/src/crypto/ssh.ts:79-83 | The hexadecimal detour gives the shortest big-endian form of the number, one zero byte for zero |
| `RsaJwk.BigIntRoundTrip` | packages/app/src/crypto/ssh.ts:72-83 | Bytes to number and back strips leading zeros and nothing else |
| `RsaJwk.FixedWidth` | packages/app/src/crypto/ssh.ts:60-67 | The freshly filled array is the zero-padded or trimmed magnitude |
| `BigEndian.FixedValue` | packages/app/src/crypto/ssh.ts:60-67 | The fixed-width value is the value modulo 256^length, so it is kept if and only if it fits |
| `RsaJwk.JwkExactly` | packages/app/src/crypto/ssh.ts:89-105 | The JWK is refused exactly when a factor is one |
| `RsaJwk.CrtExponents` | packages/app/src/crypto/ssh.ts:89-105 | The emitted exponents are d reduced modulo p-1 and q-1, and they invert e there if and only if d inverts e modulo the least common multiple |
| `ShellQuoting.CommandRoundTrip` | packages/app/src/app/signing/formatCommand.ts:1-17 | The words a POSIX shell sees in the printed command are exactly the argument vector |
| `ShellQuoting.CommandInjective` | packages/app/src/app/signing/formatCommand.ts:1-17 | Distinct argument vectors print differently |
| `ShellQuoting.CommandReads` | packages/app/src/app/signing/formatCommand.ts:3-6 | For every argument vector, how a shell reads the text: not as a simple command when the first argument is a reserved word, otherwise as the assignments in front, which are the arguments printed bare as name and equals sign, followed by the command's words |
| `ShellQuoting.UnambiguousExactly` | packages/app/src/app/signing/formatCommand.ts:3-6 | The text is a simple command with exactly this argument vector if and only if the first argument is neither a safe assignment nor a reserved word |
| `ShellQuoting.AssignmentIsMisread` | packages/app/src/app/signing/formatCommand.ts:3-6 | The vector of A=1 and make is read as an assignment before make |
| `ContextCodec.EncodeDecodes` | crates/server/src/request_router/context.rs:15-92 | Every context that encodes decodes back to itself |
| `ContextCodec.EncodeInjective` | crates/server/src/request_router/context.rs:15-45 | Distinct contexts have distinct packets, so argument boundaries survive |
| `ContextCodec.EncodedSize` | crates/server/src/request_router/context.rs:15-40 | Every packet has at most 17483 bytes, so no 32-bit length is truncated |
| `ContextCodec.TrailingIsMalformed` | crates/server/src/request_router/context.rs:85 | Any bytes after the contents, with the outer length adjusted, are refused as malformed |
| `ContextCodec.TruncatedIsIgnored` | crates/server/src/request_router/context.rs:113-119 | Any proper prefix of a packet is not taken for a context |
| `ContextCodec.PacketDecodes` | crates/server/src/request_router/context.rs:48-92 | A packet with good fields decodes to them, arguments as lossy text |
| `ContextCodec.DecodedWasPacket` | crates/server/src/request_router/context.rs:48-92 | Whatever decodes to a context is byte for byte a packet with good fields, from which the context is read off |
| `ContextCodec.IdRoundTrip` | crates/server/src/request_router/context.rs:27-30 | The 32-digit form of a group id parses back to it |
| `ContextCodec.Encode` | crates/server/src/request_router/context.rs:15-40 | The encoder's code, patching the length in last, gives the specified packet or error |
| `ContextCodec.SumSizes` | crates/server/src/request_router/context.rs:17-19 | The sum of the argument sizes |
| `ContextCodec.Decode` | crates/server/src/request_router/context.rs:48-92 | The decoder's code gives the specified result on every packet |
| `ContextCodec.DecodeRest` | crates/server/src/request_router/context.rs:64-91 | Fields are checked in order, the first failing check deciding the error |
| `ContextCodec.DecodeArguments` | crates/server/src/request_router/context.rs:75-84 | Exactly the counted arguments within the total size, each as lossy text, or the first error |
| `ContextCodec.Decoder.constructor` | crates/server/src/request_router/context.rs:113-119 | The offset is at the start of the data |
| `ContextCodec.Decoder.Take` | crates/server/src/request_router/context.rs:121-133 | The next bytes, or malformed without moving |
| `ContextCodec.Decoder.TakeByte` | crates/server/src/request_router/context.rs:135-137 | The next byte, or malformed |
| `ContextCodec.Decoder.TakeWord` | crates/server/src/request_router/context.rs:139-143 | The next big-endian word, or malformed |
| `ContextCodec.Decoder.TakeString` | crates/server/src/request_router/context.rs:145-148 | The next length-prefixed field, or malformed |
| `Pairing.OpenIsConsistent` | crates/server/src/remote/pairing/mod.rs:85-111 | An opened service holds the stored state, or the new one it saved, publishes its identities, and is explained by the empty journal |
| `Pairing.NextIsConsistent` | crates/server/src/remote/pairing/mod.rs:114-277 | Every operation, with a save that succeeds, fails, or replaces the store and reports a failure, keeps the server id, the published identities those in memory, and memory equal to the store whenever the last write was confirmed |
| `Pairing.RunsAreConsistent` | crates/server/src/remote/pairing/mod.rs:114-277 | The same over every run, the moment between a save and its effect included; moreover the store holds the last state written, memory the last one confirmed, and publications and revocations are those of the confirmed writes, one each |
| `Pairing.StoredIsMemoryExactly` | crates/server/src/remote/pairing/file.rs:137-143 | After every run, once all took effect: the store differs from memory if and only if the last operation that replaced the store was reported as failed and had something new to save there, which is spelled out operation by operation; who is known differs exactly when it was a pairing or unpairing, the identities exactly when it was about them |
| `Pairing.UnconfirmedClearForgets` | crates/server/src/remote/pairing/file.rs:137-143 | A concrete run in which an unpairing that replaced the store is reported as failed: the client is authenticated until a restart and unknown after it |
| `Pairing.RestartKnowsExactly` | crates/server/src/remote/pairing/mod.rs:85-111 | A service restarted after any run opens with the same server id, and knows the client of the last pairing reported as done and not undone if and only if the last operation to replace the store was not a pairing or unpairing with something new that was reported as failed |
| `Pairing.UnconfirmedPairLocks` | crates/server/src/remote/pairing/mod.rs:149-184 | After any run whose last write was a pairing reported as failed, a restarted service lets no client pair and accepts only the credential that was never handed out |
| `Pairing.RetiredForever` | crates/server/src/remote/pairing/mod.rs:228-230 | A client id that was replaced never becomes the client again |
| `Pairing.RetiredIsRefused` | crates/server/src/remote/pairing/mod.rs:225-261 | An operation in the name of a replaced client is refused and changes nothing |
| `Pairing.AuthenticatesExactly` | crates/server/src/remote/pairing/mod.rs:149-216 | After every run authentication succeeds if and only if id and digest are those of the last pairing reported as done and not undone since; otherwise the refusal tells an unpaired server from a wrong client; a client can pair exactly when there is none |
| `PairingCode.PairingService.Open` | crates/server/src/remote/pairing/mod.rs:85-111 | Opens exactly when the state can be read or saved and its identities encoded; the new service has an empty journal and its fields are what that says |
| `PairingCode.PairingService.Clear` | crates/server/src/remote/pairing/mod.rs:114-130 | The answer, and the write entered in the journal; after save, assignment, publication and revocation every field is what the journal says |
| `PairingCode.PairingService.Pair` | crates/server/src/remote/pairing/mod.rs:149-184 | The same for pairing: memory changes only after a confirmed save |
| `PairingCode.PairingService.Authenticate` | crates/server/src/remote/pairing/mod.rs:186-216 | The same for a visit, whose time is saved |
| `PairingCode.PairingService.SetPushSubscription` | crates/server/src/remote/pairing/mod.rs:218-245 | The same for a subscription of the current client |
| `PairingCode.PairingService.SetIdentities` | crates/server/src/remote/pairing/mod.rs:247-277 | The same for identities, published after they are saved |
| `LocalRouter.AnswersArePersisted` | crates/server/src/request_router.rs:53-116 | After any run of pairing operations and packets, a locally answered identity request encodes the identities in memory, which once in effect are the last ones whose save was confirmed, and the persisted ones if and only if the last operation to replace the store did not change them while reported as failed; without identities it is forwarded |
| `LocalRouter.RouteKeepsCached` | crates/server/src/request_router.rs:70-115 | Routing keeps the cached answer in step with the published identities, and the invalid-identities error is unreachable |
| `LocalRouter.IdentityAnswerIsPublished` | crates/server/src/request_router.rs:89-93 | An identity request gets the answer for the identities published when it is routed |
| `LocalRouter.ForwardedContext` | crates/server/src/request_router.rs:70-106 | Every forwarded request carries the context of the connection's first packet and no other, whatever was published meanwhile |
| `LocalRouter.ContextFollowsFirst` | crates/server/src/request_router.rs:77-87 | The router's context is fixed by the first packet |
| `LocalCode.ConnectionRouter.Accept` | crates/server/src/request_router.rs:54-67 | A router is made exactly when the published identities can be encoded, and its cached answer is theirs |
| `LocalCode.ConnectionRouter.Route` | crates/server/src/request_router.rs:70-106 | The context stays that of the first packet routed, a forwarded request carries it, the cached answer stays in step with the published identities, and an identity request gets the answer for them |
| `LocalConnection.AnswersInOrder` | crates/server/src/agent_socket/listener.rs:80-126 | Under every interleaving the peer has been sent the in-order answers to a prefix of its packets, perhaps followed by one failure frame for the very next one, and at most eight answers are due |
| `LocalConnection.StepsOnlyAdd` | crates/server/src/agent_socket/listener.rs:115-124 | What was written stays written and a result once given is final |
| `LocalCode.ConnectionTask.Refuse` | crates/server/src/agent_socket/listener.rs:90-96 | A failure frame goes out only when no earlier answer is due, so what was written stays the in-order answers to a prefix and at most one refusal |
| `LocalCode.ConnectionTask.PacketArrives` | crates/server/src/agent_socket/listener.rs:84-114 | The connection closes on a ninth outstanding packet or a refused one; otherwise one more answer is due, local or with the context of the first packet; answers stay in order |
| `LocalCode.ConnectionTask.Completes` | crates/server/src/agent_socket/listener.rs:115-121 | Whichever answer object is completed, exactly the result of its own packet is set and the order kept |
| `LocalCode.ConnectionTask.WriteNext` | crates/server/src/agent_socket/listener.rs:115-124 | What is written next is the result of the oldest packet not yet answered, an error as a failure frame |

## Left out

- Tokio, axum, Unix sockets, WebSocket framing, file stores: channels are FIFO sequences, and a save
  replaces the state as a whole.
- WebCrypto, SHA-256, key wrapping, WebAuthn and the vault: foreign cryptography and short glue code.
- MessagePack and schema validation of protocol messages, PEM and base64: library code; key parsing
  starts from the decoded bytes, and a message that does not decode is an input of its own.
- Encoding errors of outgoing client messages: only a socket that is not open makes a send fail.
- Web Push delivery, VAPID keys, daemon and command-line plumbing, React components: no protocol state.
- Aliases and a shell's own extensions: the reader in `ShellQuoting` follows the standard's grammar, and
  counts words whose recognition the standard leaves open as reserved.
- URL normalisation of endpoints: endpoints are compared as the normalised text.
- Liveness: whether a reconnection succeeds depends on the network and on when the server notices a close.
- The server's WebSocket adapter (`crates/server/src/remote/session.rs`): its traffic is the channel
  between broker and client; in the composition a send that fails is a send followed by a close.
- BrokerActor.BrokerActor.Execute: a recall that cannot be sent is dropped, as in the code, and the model
  does not say that the session is then closed by the transport.
- LocalRouter.AnswersArePersisted: covers a watch whose sender is alive; once it is dropped at shutdown the
  code no longer notices changes (`crates/server/src/request_router.rs:109`).
- LocalConnection.AnswersInOrder: a write that fails part-way ends the connection and is not modelled.
