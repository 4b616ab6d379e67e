/** The pairing service's code: each operation checks, saves, and only then changes what is in memory. */
module PairingCode {
  import opened Basics
  import opened Pairing

  /** A store of one state, empty when it is new. */
  class PairingStore {
    var contents: Option<PairingState>

    constructor ()
      ensures contents == None
    {
      contents := None;
    }

    /** Replace the contents, or not, and report. */
    method Save(next: PairingState, saving: Saving) returns (r: Result<(), AuthorizationError>)
      modifies this
      ensures contents == if saving == Unsaved then old(contents) else Some(next)
      ensures r == if saving == Saved then Success(()) else Failure(Storage)
    {
      if saving != Unsaved {
        contents := Some(next);
      }
      r := if saving == Saved then Success(()) else Failure(Storage);
    }
  }

  class PairingService {
    const lib: Library
    const store: PairingStore
    var state: PairingState
    var identities: Watch
    var revocations: nat

    // The service as it was opened, and every replacement of the store since.
    ghost const start: Service
    ghost var journal: seq<Write>

    ghost function View(): Service
      requires store.contents.Some?
      reads this, store
    {
      Service(store.contents.value, state, identities, revocations, None)
    }

    /** Every field is what the journal says. */
    ghost predicate Valid()
      reads this, store
    {
      && store.contents.Some? && Recorded(start, journal, View())
      && Encodable(lib, IdentitiesOf(state))
    }

    /** Load existing state or initialize and save a new server identity. */
    static method Open(lib: Library, store: PairingStore, readable: bool, newId: ServerId, saving: Saving)
      returns (r: Result<PairingService, string>)
      modifies store
      ensures r.Success? ==> fresh(r.value) && r.value.Valid() && r.value.lib == lib && r.value.store == store
      ensures r.Success? ==> r.value.journal == [] && r.value.revocations == 0
      ensures r.Success? ==>
                store.contents == if old(store.contents).Some? then old(store.contents) else Some(PairingState(newId, None))
      ensures var loaded := if readable then Success(old(store.contents)) else Failure("");
              r.Success? <==> Pairing.Open(lib, loaded, newId, saving).Success?
    {
      if !readable {
        return Failure("cannot load");
      }
      var state;
      match store.contents {
        case Some(found) =>
          state := found;
        case None =>
          state := PairingState(newId, None);
          var saved := store.Save(state, saving);
          if saved.Failure? {
            return Failure("cannot save");
          }
      }
      var identities := IdentitiesOf(state);
      if identities.Some? && lib.answer(identities.value).None? {
        return Failure("stored client identities are invalid");
      }
      var service := new PairingService(lib, store, state);
      r := Success(service);
    }

    constructor (lib: Library, store: PairingStore, state: PairingState)
      requires store.contents == Some(state) && Encodable(lib, IdentitiesOf(state))
      ensures Valid() && this.lib == lib && this.store == store
      ensures journal == [] && revocations == 0
    {
      this.lib, this.store, this.state := lib, store, state;
      identities := Watch(IdentitiesOf(state), 0);
      revocations := 0;
      start := Service(state, state, Watch(IdentitiesOf(state), 0), 0, None);
      journal := [];
    }

    /** Enter what an operation is going to write. */
    ghost method Record(op: Operation, saving: Saving)
      requires Valid()
      modifies this`journal
      ensures journal == old(journal) + Written(lib, state, op, saving)
      ensures var after := Settled(Perform(lib, View(), op, saving));
              Recorded(start, journal, after) && Encodable(lib, IdentitiesOf(after.state))
    {
      hide Decide, IdentitiesOf, Encodable, Recorded;
      PerformIsRecorded(lib, start, journal, View(), op, saving);
      journal := journal + Written(lib, state, op, saving);
      if Written(lib, state, op, saving) != [] {
        UpdatesPublish(lib, state, op);
      }
    }

    method Clear(saving: Saving) returns (r: Result<Reply, AuthorizationError>)
      requires Valid()
      modifies this, store
      ensures Valid() && r == Answer(lib, old(state), Operation.Clear, saving)
      ensures journal == old(journal) + Written(lib, old(state), Operation.Clear, saving)
    {
      hide Recorded, Encodable;
      ghost var op := Operation.Clear;
      Record(op, saving);
      if state.client.None? {
        return Success(Cleared(false));
      }
      var next := PairingState(state.serverId, None);
      var _ :- store.Save(next, saving);
      state := next;
      identities := Watch(None, identities.version + 1);
      revocations := revocations + 1;
      r := Success(Cleared(true));
    }

    method Pair(clientLabel: bytes, id: ClientId, secret: Option<bytes>, now: nat, saving: Saving)
      returns (r: Result<Reply, AuthorizationError>)
      requires Valid()
      modifies this, store
      ensures Valid() && r == Answer(lib, old(state), Operation.Pair(clientLabel, id, secret, now), saving)
      ensures journal == old(journal) + Written(lib, old(state), Operation.Pair(clientLabel, id, secret, now), saving)
    {
      hide Recorded, Encodable;
      ghost var op := Operation.Pair(clientLabel, id, secret, now);
      Record(op, saving);
      if state.client.Some? {
        return Failure(AlreadyPaired);
      }
      if secret.None? {
        return Failure(CredentialGeneration);
      }
      var client := PairedClient(id, lib.digest(secret.value), clientLabel, now, None, None, None);
      var next := PairingState(state.serverId, Some(client));
      var _ :- store.Save(next, saving);
      state := next;
      r := Success(Authorized(Paired(state.serverId, id, secret.value)));
    }

    method Authenticate(id: ClientId, credential: bytes, now: nat, saving: Saving)
      returns (r: Result<Reply, AuthorizationError>)
      requires Valid()
      modifies this, store
      ensures Valid() && r == Answer(lib, old(state), Operation.Authenticate(id, credential, now), saving)
      ensures journal == old(journal) + Written(lib, old(state), Operation.Authenticate(id, credential, now), saving)
    {
      hide Recorded, Encodable;
      ghost var op := Operation.Authenticate(id, credential, now);
      Record(op, saving);
      if state.client.None? {
        return Failure(NotPaired);
      }
      var client := state.client.value;
      var matchesId := client.clientId == id;
      var matchesCredential := client.credentialHash == lib.digest(credential);
      if !matchesId || !matchesCredential {
        return Failure(Rejected);
      }
      var next := state.(client := Some(client.(lastSeenAt := Some(now))));
      var _ :- store.Save(next, saving);
      state := next;
      r := Success(Authorized(Authenticated(state.serverId, id)));
    }

    method SetPushSubscription(id: ClientId, subscription: bytes, saving: Saving)
      returns (r: Result<Reply, AuthorizationError>)
      requires Valid()
      modifies this, store
      ensures Valid() && r == Answer(lib, old(state), Subscribe(id, subscription), saving)
      ensures journal == old(journal) + Written(lib, old(state), Subscribe(id, subscription), saving)
    {
      hide Recorded, Encodable;
      ghost var op := Subscribe(id, subscription);
      Record(op, saving);
      if state.client.None? {
        return Failure(NotPaired);
      }
      if state.client.value.clientId != id {
        return Failure(Rejected);
      }
      var next := state.(client := Some(state.client.value.(pushSubscription := Some(subscription))));
      var _ :- store.Save(next, saving);
      state := next;
      r := Success(Updated);
    }

    method SetIdentities(id: ClientId, update: Identities, saving: Saving)
      returns (r: Result<Reply, AuthorizationError>)
      requires Valid()
      modifies this, store
      ensures Valid() && r == Answer(lib, old(state), Operation.SetIdentities(id, update), saving)
      ensures journal == old(journal) + Written(lib, old(state), Operation.SetIdentities(id, update), saving)
    {
      hide Recorded, Encodable;
      ghost var op := Operation.SetIdentities(id, update);
      Record(op, saving);
      if lib.answer(update).None? {
        return Failure(InvalidIdentities);
      }
      if state.client.None? {
        return Failure(NotPaired);
      }
      if state.client.value.clientId != id {
        return Failure(Rejected);
      }
      var next := state.(client := Some(state.client.value.(identities := Some(update))));
      var _ :- store.Save(next, saving);
      state := next;
      identities := Watch(Some(update), identities.version + 1);
      r := Success(Updated);
    }
  }
}
