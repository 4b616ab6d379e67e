/**
 The server's pairing state: one client, saved before it is used.  An
 operation holds the lock while it saves; the moment between a save and its
 effect in memory is a state of its own, since readers of the published
 identities do not take the lock.  A save can also replace the store and still
 report a failure, so memory and store are each explained by a journal of the
 replacements.
 */
module Pairing {
  import opened Basics

  type ServerId = nat
  type ClientId = nat

  datatype AgentIdentity = AgentIdentity(keyBlob: bytes, comment: bytes)

  type Identities = seq<AgentIdentity>

  datatype PairedClient = PairedClient(
    clientId: ClientId,
    credentialHash: bytes,
    clientLabel: bytes,
    createdAt: nat,
    lastSeenAt: Option<nat>,
    pushSubscription: Option<bytes>,
    identities: Option<Identities>)

  datatype PairingState = PairingState(serverId: ServerId, client: Option<PairedClient>)

  datatype AuthorizationError = AlreadyPaired | NotPaired | Rejected | CredentialGeneration | InvalidIdentities | Storage

  datatype Authorization =
    | Paired(serverId: ServerId, clientId: ClientId, credential: bytes)
    | Authenticated(serverId: ServerId, clientId: ClientId)

  /** Library functions: the credential digest, and the encoding of an identities answer where one exists. */
  datatype Library = Library(digest: bytes -> bytes, answer: Identities -> Option<bytes>)

  /** A published value and how often it was replaced. */
  datatype Watch = Watch(value: Option<Identities>, version: nat)

  /** A state to save, and what follows once it is saved. */
  datatype Update = Update(next: PairingState, publishes: Option<Option<Identities>>, revokes: bool)

  /** What became of a save: done, not done, or done although a failure was reported. */
  datatype Saving = Saved | Unsaved | SavedUnconfirmed

  datatype Service = Service(
    stored: PairingState,
    state: PairingState,
    published: Watch,
    revocations: nat,
    applying: Option<Update>)

  datatype Operation =
    | Clear
    | Pair(clientLabel: bytes, id: ClientId, secret: Option<bytes>, now: nat)
    | Authenticate(id: ClientId, credential: bytes, now: nat)
    | Subscribe(id: ClientId, subscription: bytes)
    | SetIdentities(id: ClientId, identities: Identities)

  datatype Reply = Cleared(wasPaired: bool) | Authorized(authorization: Authorization) | Updated

  function IdentitiesOf(p: PairingState): Option<Identities> {
    if p.client.Some? then p.client.value.identities else None
  }

  predicate Encodable(lib: Library, identities: Option<Identities>) {
    identities.Some? ==> lib.answer(identities.value).Some?
  }

  predicate Holds(p: PairingState, id: ClientId) {
    p.client.Some? && p.client.value.clientId == id
  }

  /** Load the stored state, or save a new server identity. */
  function Open(lib: Library, loaded: Result<Option<PairingState>, string>, newId: ServerId, saving: Saving)
    : Result<Service, string>
  {
    var found :- loaded;
    if found.None? && saving != Saved then Failure("cannot save")
    else
      var state := if found.Some? then found.value else PairingState(newId, None);
      if !Encodable(lib, IdentitiesOf(state)) then Failure("stored client identities are invalid")
      else Success(Service(state, state, Watch(IdentitiesOf(state), 0), 0, None))
  }

  // ----- Operations -----

  /** What the client with this id may ask for. */
  function Checked(p: PairingState, id: ClientId): Result<PairedClient, AuthorizationError> {
    if p.client.None? then Failure(NotPaired)
    else if p.client.value.clientId != id then Failure(Rejected)
    else Success(p.client.value)
  }

  /** What an operation has to save, if anything, or why it is refused. */
  function Decide(lib: Library, p: PairingState, op: Operation): Result<Option<Update>, AuthorizationError> {
    match op
    case Clear =>
      if p.client.None? then Success(None) else Success(Some(Update(PairingState(p.serverId, None), Some(None), true)))
    case Pair(clientLabel, id, secret, now) =>
      if p.client.Some? then Failure(AlreadyPaired)
      else if secret.None? then Failure(CredentialGeneration)
      else
        var client := PairedClient(id, lib.digest(secret.value), clientLabel, now, None, None, None);
        Success(Some(Update(PairingState(p.serverId, Some(client)), None, false)))
    case Authenticate(id, credential, now) =>
      var client :- Checked(p, id);
      if client.credentialHash != lib.digest(credential) then Failure(Rejected)
      else Success(Some(Update(p.(client := Some(client.(lastSeenAt := Some(now)))), None, false)))
    case Subscribe(id, subscription) =>
      var client :- Checked(p, id);
      Success(Some(Update(p.(client := Some(client.(pushSubscription := Some(subscription)))), None, false)))
    case SetIdentities(id, identities) =>
      if lib.answer(identities).None? then Failure(InvalidIdentities)
      else
        var client :- Checked(p, id);
        Success(Some(Update(p.(client := Some(client.(identities := Some(identities)))), Some(Some(identities)), false)))
  }

  /** The reply of an operation that was not refused and whose save, if any, was confirmed. */
  function ReplyTo(p: PairingState, op: Operation): Reply {
    match op
    case Clear => Cleared(p.client.Some?)
    case Pair(_, id, secret, _) =>
      Authorized(Paired(p.serverId, id, if secret.Some? then secret.value else []))
    case Authenticate(id, _, _) => Authorized(Authenticated(p.serverId, id))
    case _ => Updated
  }

  /** The answer to the caller. */
  function Answer(lib: Library, p: PairingState, op: Operation, saving: Saving): Result<Reply, AuthorizationError> {
    var update :- Decide(lib, p, op);
    if update.Some? && saving != Saved then Failure(Storage) else Success(ReplyTo(p, op))
  }

  /** A replacement of the stored state, and whether it was reported as done. */
  datatype Write = Write(update: Update, confirmed: bool)

  /** What an operation writes to the store. */
  function Written(lib: Library, p: PairingState, op: Operation, saving: Saving): seq<Write> {
    match Decide(lib, p, op)
    case Success(Some(update)) => if saving == Unsaved then [] else [Write(update, saving == Saved)]
    case _ => []
  }

  /** The service right after the save; what it leads to in memory follows. */
  function Perform(lib: Library, s: Service, op: Operation, saving: Saving): Service {
    var writes := Written(lib, s.state, op, saving);
    if writes == [] then s
    else
      var w := writes[0];
      s.(stored := w.update.next, applying := if w.confirmed then Some(w.update) else s.applying)
  }

  /** A saved state takes effect. */
  function Apply(s: Service): Service
    requires s.applying.Some?
  {
    var u := s.applying.value;
    s.(state := u.next,
       published := if u.publishes.Some? then Watch(u.publishes.value, s.published.version + 1) else s.published,
       revocations := s.revocations + (if u.revokes then 1 else 0),
       applying := None)
  }

  /** The service once nothing is left to take effect. */
  function Settled(s: Service): Service {
    if s.applying.Some? then Apply(s) else s
  }

  // ----- The journal -----

  /** What is in the store: the last state written. */
  function LastWritten(first: PairingState, journal: seq<Write>): PairingState {
    if journal == [] then first else journal[|journal| - 1].update.next
  }

  /** What is in memory: the last state whose save was confirmed. */
  function LastConfirmed(first: PairingState, journal: seq<Write>): PairingState {
    if journal == [] then first
    else
      var n := |journal| - 1;
      if journal[n].confirmed then journal[n].update.next else LastConfirmed(first, journal[..n])
  }

  function Publications(journal: seq<Write>): nat {
    if journal == [] then 0
    else
      var n := |journal| - 1;
      Publications(journal[..n]) + if journal[n].confirmed && journal[n].update.publishes.Some? then 1 else 0
  }

  function Revocations(journal: seq<Write>): nat {
    if journal == [] then 0
    else
      var n := |journal| - 1;
      Revocations(journal[..n]) + if journal[n].confirmed && journal[n].update.revokes then 1 else 0
  }

  predicate EndsConfirmed(journal: seq<Write>) {
    journal == [] || journal[|journal| - 1].confirmed
  }

  /** Store, memory, published identities and revocations are what the journal says. */
  ghost predicate Recorded(start: Service, journal: seq<Write>, s: Service) {
    var t := Settled(s);
    && s.stored == LastWritten(start.stored, journal)
    && t.state == LastConfirmed(start.state, journal)
    && t.published == Watch(IdentitiesOf(t.state), start.published.version + Publications(journal))
    && t.revocations == start.revocations + Revocations(journal)
  }

  lemma Snoc<T>(s: seq<T>, x: T)
    ensures (s + [x])[..|s|] == s && (s + [x])[|s|] == x
  {
  }

  /** What is saved says what to publish, and keeps the server's identity. */
  lemma UpdatesPublish(lib: Library, p: PairingState, op: Operation)
    requires Decide(lib, p, op).Success? && Decide(lib, p, op).value.Some?
    ensures var u := Decide(lib, p, op).value.value;
            && u.next.serverId == p.serverId
            && (if u.publishes.Some? then u.publishes.value == IdentitiesOf(u.next)
                else IdentitiesOf(u.next) == IdentitiesOf(p))
            && (Encodable(lib, IdentitiesOf(p)) ==> Encodable(lib, IdentitiesOf(u.next)))
  {
  }

  lemma WriteIsRecorded(start: Service, journal: seq<Write>, s: Service, w: Write)
    requires Recorded(start, journal, s) && s.applying.None?
    requires if w.update.publishes.Some? then w.update.publishes.value == IdentitiesOf(w.update.next)
             else IdentitiesOf(w.update.next) == IdentitiesOf(s.state)
    ensures var t := s.(stored := w.update.next, applying := if w.confirmed then Some(w.update) else None);
            Recorded(start, journal + [w], t) && Recorded(start, journal + [w], Settled(t))
  {
    Snoc(journal, w);
    hide IdentitiesOf;
    assert LastConfirmed(start.state, journal + [w])
        == if w.confirmed then w.update.next else LastConfirmed(start.state, journal);
  }

  /** One more write, confirmed or not, and what it leads to. */
  lemma PerformIsRecorded(lib: Library, start: Service, journal: seq<Write>, s: Service, op: Operation, saving: Saving)
    requires Recorded(start, journal, s) && s.applying.None?
    ensures var after, t := journal + Written(lib, s.state, op, saving), Perform(lib, s, op, saving);
            Recorded(start, after, t) && Recorded(start, after, Settled(t))
  {
    hide Decide, Recorded, Encodable, IdentitiesOf, Apply;
    var writes := Written(lib, s.state, op, saving);
    if writes == [] {
      assert journal + writes == journal;
    } else {
      UpdatesPublish(lib, s.state, op);
      WriteIsRecorded(start, journal, s, writes[0]);
    }
  }

  // ----- Runs -----

  datatype Action = Do(operation: Operation, saving: Saving) | TakeEffect

  /** The service with the client ids handed out so far and the journal of its store. */
  datatype System = System(service: Service, issued: set<ClientId>, journal: seq<Write>)

  /** Operations wait for the lock; new client ids are fresh. */
  predicate Enabled(y: System, a: Action) {
    if a.TakeEffect? then y.service.applying.Some?
    else y.service.applying.None? && (a.operation.Pair? ==> a.operation.id !in y.issued)
  }

  function Next(lib: Library, y: System, a: Action): System
    requires Enabled(y, a)
  {
    match a
    case Do(op, saving) =>
      System(Perform(lib, y.service, op, saving),
             y.issued + (if op.Pair? then {op.id} else {}),
             y.journal + Written(lib, y.service.state, op, saving))
    case TakeEffect => y.(service := Apply(y.service))
  }

  function Start(s: Service): System {
    System(s, if s.state.client.Some? then {s.state.client.value.clientId} else {}, [])
  }

  ghost predicate IsRun(lib: Library, start: Service, run: seq<Action>)
    decreases |run|, 0
  {
    run == [] ||
    var n := |run| - 1;
    IsRun(lib, start, run[..n]) && Enabled(At(lib, start, run[..n]), run[n])
  }

  ghost function At(lib: Library, start: Service, run: seq<Action>): System
    requires IsRun(lib, start, run)
    decreases |run|, 1
  {
    if run == [] then Start(start)
    else
      var n := |run| - 1;
      Next(lib, At(lib, start, run[..n]), run[n])
  }

  lemma Extend(lib: Library, start: Service, run: seq<Action>, a: Action)
    requires IsRun(lib, start, run) && Enabled(At(lib, start, run), a)
    ensures IsRun(lib, start, run + [a]) && At(lib, start, run + [a]) == Next(lib, At(lib, start, run), a)
  {
    Snoc(run, a);
  }

  /** Memory follows the store as far as saves are confirmed, and the published identities follow memory. */
  ghost predicate Consistent(lib: Library, serverId: ServerId, y: System) {
    var s := y.service;
    && s.state.serverId == s.stored.serverId == serverId
    && s.published.value == IdentitiesOf(s.state)
    && Encodable(lib, IdentitiesOf(s.state)) && Encodable(lib, IdentitiesOf(s.stored))
    && (s.state.client.Some? ==> s.state.client.value.clientId in y.issued)
    && (s.stored.client.Some? ==> s.stored.client.value.clientId in y.issued)
    && match s.applying
       case None => EndsConfirmed(y.journal) ==> s.stored == s.state
       case Some(u) =>
         && y.journal != [] && y.journal[|y.journal| - 1] == Write(u, true) && s.stored == u.next
         && (if u.publishes.Some? then u.publishes.value == IdentitiesOf(u.next)
             else IdentitiesOf(u.next) == IdentitiesOf(s.state))
  }

  lemma OpenIsConsistent(lib: Library, loaded: Result<Option<PairingState>, string>, newId: ServerId, saving: Saving)
    requires Open(lib, loaded, newId, saving).Success?
    ensures var s := Open(lib, loaded, newId, saving).value;
            Consistent(lib, s.state.serverId, Start(s)) && Recorded(s, [], s) && s.stored == s.state && s.applying.None?
    ensures var s := Open(lib, loaded, newId, saving).value;
            s.stored == match loaded.value case Some(found) => found case None => PairingState(newId, None)
  {
  }

  lemma NextIsConsistent(lib: Library, serverId: ServerId, y: System, a: Action)
    requires Consistent(lib, serverId, y) && Enabled(y, a)
    ensures Consistent(lib, serverId, Next(lib, y, a))
  {
  }

  /**
   Over every run of operations and of saves that fail in either way: the server
   keeps its identity, the store holds the last state written and memory the last
   one confirmed, the published identities are those of the client in memory and
   can be encoded, and each confirmed unpairing revoked once.
   */
  lemma {:induction false} RunsAreConsistent(lib: Library, start: Service, run: seq<Action>)
    requires IsRun(lib, start, run) && Consistent(lib, start.state.serverId, Start(start))
    ensures var y := At(lib, start, run);
            Consistent(lib, start.state.serverId, y) && Recorded(start, y.journal, y.service)
  {
    if run != [] {
      var n := |run| - 1;
      RunsAreConsistent(lib, start, run[..n]);
      var y := At(lib, start, run[..n]);
      NextIsConsistent(lib, start.state.serverId, y, run[n]);
      hide Consistent;
      if run[n].Do? {
        PerformIsRecorded(lib, start, y.journal, y.service, run[n].operation, run[n].saving);
      }
    }
  }

  // ----- Replaced clients -----

  /** The id was handed out and is not the client's, neither in memory nor in the store. */
  ghost predicate Retired(y: System, id: ClientId) {
    id in y.issued && !Holds(y.service.state, id) && !Holds(y.service.stored, id)
  }

  lemma RetiredStays(lib: Library, y: System, a: Action, id: ClientId)
    requires Retired(y, id) && Enabled(y, a)
    requires y.service.applying.Some? ==> y.service.stored == y.service.applying.value.next
    ensures Retired(Next(lib, y, a), id)
  {
  }

  /** A client id that was replaced never comes back. */
  lemma {:induction false} RetiredForever(lib: Library, start: Service, run: seq<Action>, later: seq<Action>,
                                          id: ClientId)
    requires Consistent(lib, start.state.serverId, Start(start))
    requires IsRun(lib, start, run + later) && IsRun(lib, start, run) && Retired(At(lib, start, run), id)
    ensures Retired(At(lib, start, run + later), id)
    decreases |later|
  {
    if later == [] {
      assert run + later == run;
    } else {
      var n := |later| - 1;
      hide Retired, Next, Enabled, Consistent, Recorded;
      assert (run + later)[..|run + later| - 1] == run + later[..n] && (run + later)[|run + later| - 1] == later[n];
      RetiredForever(lib, start, run, later[..n], id);
      RunsAreConsistent(lib, start, run + later[..n]);
      AppliesStored(lib, start.state.serverId, At(lib, start, run + later[..n]));
      RetiredStays(lib, At(lib, start, run + later[..n]), later[n], id);
    }
  }

  lemma AppliesStored(lib: Library, serverId: ServerId, y: System)
    requires Consistent(lib, serverId, y)
    ensures y.service.applying.Some? ==> y.service.stored == y.service.applying.value.next
  {
  }

  /** No operation in the name of a replaced client changes anything. */
  lemma RetiredIsRefused(lib: Library, y: System, op: Operation, saving: Saving)
    requires (op.Authenticate? || op.Subscribe? || op.SetIdentities?) && Retired(y, op.id)
    ensures Perform(lib, y.service, op, saving) == y.service && Answer(lib, y.service.state, op, saving).Failure?
  {
  }

  // ----- Authentication -----

  /** What a client is known by. */
  function KeyOf(p: PairingState): Option<(ClientId, bytes)> {
    if p.client.None? then None else Some((p.client.value.clientId, p.client.value.credentialHash))
  }

  /** The id and digest of the last pairing that a run reported as done, unless it reported an unpairing since. */
  ghost function PairedWith(lib: Library, start: Service, run: seq<Action>): Option<(ClientId, bytes)>
    requires IsRun(lib, start, run)
    decreases |run|
  {
    if run == [] then KeyOf(start.state)
    else
      var n := |run| - 1;
      var before := PairedWith(lib, start, run[..n]);
      match run[n]
      case Do(Pair(clientLabel, id, secret, now), saving) =>
        var answer := Answer(lib, At(lib, start, run[..n]).service.state, run[n].operation, saving);
        if answer.Success? && secret.Some? then Some((id, lib.digest(secret.value))) else before
      case Do(Clear, saving) =>
        var answer := Answer(lib, At(lib, start, run[..n]).service.state, Clear, saving);
        if answer.Success? then None else before
      case _ => before
  }

  lemma PerformKeepsKey(lib: Library, s: Service, op: Operation, saving: Saving)
    requires s.applying.None?
    ensures var answer := Answer(lib, s.state, op, saving);
            KeyOf(Settled(Perform(lib, s, op, saving)).state) ==
              if answer.Success? && op.Pair? && op.secret.Some? then Some((op.id, lib.digest(op.secret.value)))
              else if answer.Success? && op.Clear? then None
              else KeyOf(s.state)
  {
  }

  lemma {:induction false} PairedWithIsKey(lib: Library, start: Service, run: seq<Action>)
    requires IsRun(lib, start, run) && start.applying.None?
    ensures KeyOf(Settled(At(lib, start, run).service).state) == PairedWith(lib, start, run)
  {
    if run != [] {
      var n := |run| - 1;
      PairedWithIsKey(lib, start, run[..n]);
      var s := At(lib, start, run[..n]).service;
      if run[n].Do? {
        PerformKeepsKey(lib, s, run[n].operation, run[n].saving);
        hide Perform, Answer;
      }
    }
  }

  /** Answers depend only on who is known. */
  lemma AnswersByKey(lib: Library, p: PairingState, id: ClientId, credential: bytes, clientLabel: bytes, now: nat)
    ensures Answer(lib, p, Authenticate(id, credential, now), Saved) ==
            if KeyOf(p) == Some((id, lib.digest(credential))) then Success(Authorized(Authenticated(p.serverId, id)))
            else if KeyOf(p).None? then Failure(NotPaired) else Failure(Rejected)
    ensures Answer(lib, p, Pair(clientLabel, id, Some(credential), now), Saved) ==
            if KeyOf(p).None? then Success(Authorized(Paired(p.serverId, id, credential))) else Failure(AlreadyPaired)
  {
  }

  /**
   After every run, a client is authenticated exactly when id and digest are
   those of the last pairing reported as done and not undone since, a client
   can pair exactly when there is none, and the refusals tell the cases apart.
   */
  lemma AuthenticatesExactly(lib: Library, start: Service, run: seq<Action>, id: ClientId, credential: bytes,
                             clientLabel: bytes, now: nat)
    requires IsRun(lib, start, run) && start.applying.None? && At(lib, start, run).service.applying.None?
    ensures var p := At(lib, start, run).service.state;
            var known := PairedWith(lib, start, run);
            && Answer(lib, p, Authenticate(id, credential, now), Saved) ==
               (if known == Some((id, lib.digest(credential))) then Success(Authorized(Authenticated(p.serverId, id)))
                else if known.None? then Failure(NotPaired) else Failure(Rejected))
            && Answer(lib, p, Pair(clientLabel, id, Some(credential), now), Saved) ==
               if known.None? then Success(Authorized(Paired(p.serverId, id, credential))) else Failure(AlreadyPaired)
  {
    PairedWithIsKey(lib, start, run);
    AnswersByKey(lib, At(lib, start, run).service.state, id, credential, clientLabel, now);
    hide Answer, KeyOf;
  }

  // ----- Restarts -----

  /** Whether what an operation would save differs from what is in memory. */
  predicate Rewrites(lib: Library, p: PairingState, op: Operation) {
    match op
    case Clear => p.client.Some?
    case Pair(_, _, secret, _) => p.client.None? && secret.Some?
    case Authenticate(id, credential, now) =>
      Holds(p, id) && p.client.value.credentialHash == lib.digest(credential) && p.client.value.lastSeenAt != Some(now)
    case Subscribe(id, subscription) => Holds(p, id) && p.client.value.pushSubscription != Some(subscription)
    case SetIdentities(id, identities) =>
      Holds(p, id) && p.client.value.identities != Some(identities) && lib.answer(identities).Some?
  }

  /** An operation that replaced the store, with what was in memory when it did. */
  datatype Writer = Writer(memory: PairingState, operation: Operation, saving: Saving)

  /** The last operation of a run that replaced the store. */
  ghost function LastWriter(lib: Library, start: Service, run: seq<Action>): Option<Writer>
    requires IsRun(lib, start, run)
    decreases |run|
  {
    if run == [] then None
    else
      var n := |run| - 1;
      var memory := At(lib, start, run[..n]).service.state;
      if run[n].Do? && Written(lib, memory, run[n].operation, run[n].saving) != []
      then Some(Writer(memory, run[n].operation, run[n].saving))
      else LastWriter(lib, start, run[..n])
  }

  /** The save was done although a failure was reported, and it was of something new. */
  ghost predicate Diverges(lib: Library, w: Option<Writer>) {
    w.Some? && w.value.saving == SavedUnconfirmed && Rewrites(lib, w.value.memory, w.value.operation)
  }

  /** A pairing or an unpairing; other operations keep who is known. */
  predicate ChangesKey(op: Operation) {
    op.Clear? || op.Pair?
  }

  predicate ChangesIdentities(p: PairingState, op: Operation) {
    op.SetIdentities? || (op.Clear? && IdentitiesOf(p).Some?)
  }

  lemma WrittenRewrites(lib: Library, p: PairingState, op: Operation, saving: Saving)
    requires Written(lib, p, op, saving) != []
    ensures var next := Written(lib, p, op, saving)[0].update.next;
            && (next != p <==> Rewrites(lib, p, op))
            && (KeyOf(next) != KeyOf(p) <==> Rewrites(lib, p, op) && ChangesKey(op))
            && (IdentitiesOf(next) != IdentitiesOf(p) <==> Rewrites(lib, p, op) && ChangesIdentities(p, op))
  {
  }

  /** What the last writer left: itself in the store, and in memory what was there or, if it was confirmed, the same. */
  ghost predicate LeftBy(lib: Library, w: Option<Writer>, s: Service) {
    match w
    case None => s.stored == s.state && s.applying.None?
    case Some(w) =>
      && Written(lib, w.memory, w.operation, w.saving) != []
      && s.stored == Written(lib, w.memory, w.operation, w.saving)[0].update.next
      && (if w.saving == Saved then Settled(s).state == s.stored else s.state == w.memory && s.applying.None?)
  }

  lemma {:induction false} LastWriterLeft(lib: Library, start: Service, run: seq<Action>)
    requires IsRun(lib, start, run) && start.stored == start.state && start.applying.None?
    ensures LeftBy(lib, LastWriter(lib, start, run), At(lib, start, run).service)
  {
    if run != [] {
      var n := |run| - 1;
      LastWriterLeft(lib, start, run[..n]);
      hide Decide;
    }
  }

  /**
   After every run, once all took effect, the store holds what is in memory
   unless the last operation that replaced the store was reported as failed and
   had something new to save; and then it does not.  Who is known and which
   identities are known differ exactly when that operation is about them.
   */
  lemma StoredIsMemoryExactly(lib: Library, start: Service, run: seq<Action>)
    requires IsRun(lib, start, run) && start.stored == start.state && start.applying.None?
    ensures var s, w := At(lib, start, run).service, LastWriter(lib, start, run);
            && (s.stored == Settled(s).state <==> !Diverges(lib, w))
            && (KeyOf(s.stored) == KeyOf(Settled(s).state) <==> !(Diverges(lib, w) && ChangesKey(w.value.operation)))
            && (IdentitiesOf(s.stored) == IdentitiesOf(Settled(s).state) <==>
                !(Diverges(lib, w) && ChangesIdentities(w.value.memory, w.value.operation)))
  {
    LastWriterLeft(lib, start, run);
    var w := LastWriter(lib, start, run);
    if w.Some? {
      WrittenRewrites(lib, w.value.memory, w.value.operation, w.value.saving);
    }
    hide Written, Rewrites, KeyOf, IdentitiesOf;
  }

  /**
   A service restarted after any run opens, and knows the client of the last
   pairing reported as done and not undone -- unless the last operation that
   replaced the store was a pairing or an unpairing reported as failed that had
   something new to save; and then it does not.
   */
  lemma RestartKnowsExactly(lib: Library, start: Service, run: seq<Action>, newId: ServerId, saving: Saving)
    requires IsRun(lib, start, run) && Consistent(lib, start.state.serverId, Start(start)) && start.applying.None?
    ensures var w := LastWriter(lib, start, run);
            var again := Open(lib, Success(Some(At(lib, start, run).service.stored)), newId, saving);
            && again.Success? && again.value.state.serverId == start.state.serverId
            && (KeyOf(again.value.state) == PairedWith(lib, start, run) <==>
                !(Diverges(lib, w) && ChangesKey(w.value.operation)))
  {
    RunsAreConsistent(lib, start, run);
    PairedWithIsKey(lib, start, run);
    hide Rewrites, KeyOf, Recorded;
    StoredIsMemoryExactly(lib, start, run);
  }

  /**
   A pairing that was saved and reported as failed: after the restart no client
   can pair, and only the credential that was never handed out is accepted.
   */
  lemma UnconfirmedPairLocks(lib: Library, start: Service, run: seq<Action>, newId: ServerId, saving: Saving,
                             id: ClientId, credential: bytes, clientLabel: bytes, now: nat)
    requires IsRun(lib, start, run) && Consistent(lib, start.state.serverId, Start(start)) && start.applying.None?
    requires var w := LastWriter(lib, start, run); Diverges(lib, w) && w.value.operation.Pair?
    ensures var paired := LastWriter(lib, start, run).value.operation;
            var again := Open(lib, Success(Some(At(lib, start, run).service.stored)), newId, saving);
            && again.Success? && paired.secret.Some?
            && Answer(lib, again.value.state, Pair(clientLabel, id, Some(credential), now), Saved) == Failure(AlreadyPaired)
            && (Answer(lib, again.value.state, Authenticate(id, credential, now), Saved).Success? <==>
                id == paired.id && lib.digest(credential) == lib.digest(paired.secret.value))
  {
    RunsAreConsistent(lib, start, run);
    LastWriterLeft(lib, start, run);
    var w, s := LastWriter(lib, start, run).value, At(lib, start, run).service;
    PairIsWritten(lib, w.memory, w.operation, w.saving);
    AnswersByKey(lib, s.stored, id, credential, clientLabel, now);
    hide Recorded, LastWriter, At, IsRun, Written, Answer, KeyOf;
  }

  lemma PairIsWritten(lib: Library, p: PairingState, op: Operation, saving: Saving)
    requires op.Pair? && Written(lib, p, op, saving) != []
    ensures op.secret.Some?
    ensures KeyOf(Written(lib, p, op, saving)[0].update.next) == Some((op.id, lib.digest(op.secret.value)))
  {
  }

  /** An unpairing written but reported as failed: the client is known until the restart, and not after it. */
  lemma UnconfirmedClearForgets(lib: Library, start: Service, clientLabel: bytes, id: ClientId, credential: bytes,
                                now: nat, newId: ServerId) returns (run: seq<Action>)
    requires Consistent(lib, start.state.serverId, Start(start)) && start.state.client.None?
    ensures IsRun(lib, start, run) && At(lib, start, run).service.applying.None?
    ensures var s := At(lib, start, run).service;
            && Answer(lib, s.state, Authenticate(id, credential, now), Saved).Success?
            && var again := Open(lib, Success(Some(s.stored)), newId, Saved);
               && again.Success?
               && Answer(lib, again.value.state, Authenticate(id, credential, now), Saved) == Failure(NotPaired)
  {
    var pair := Do(Pair(clientLabel, id, Some(credential), now), Saved);
    var clear := Do(Clear, SavedUnconfirmed);
    Extend(lib, start, [], pair);
    Extend(lib, start, [] + [pair], TakeEffect);
    Extend(lib, start, [] + [pair] + [TakeEffect], clear);
    run := [] + [pair] + [TakeEffect] + [clear];
  }
}
