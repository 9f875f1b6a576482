/**
  Properties of the server service that relate several requests, or several
  callers, to each other.
 */
module ServerProperties {
  import opened Wrappers
  import opened ObjectIds
  import opened Schemas
  import opened Servers

  /**
    Every document the caller does not own is still there, unchanged, and every
    document that was not there before belongs to the caller.
   */
  predicate KeepsOthers(before: Store, after: Store, caller: Email) {
    && (forall id :: id in before && before[id].ownerEmail != caller ==> id in after && after[id] == before[id])
    && (forall id :: id in after && id !in before ==> after[id].ownerEmail == caller)
  }

  /** No request of one caller creates, alters or removes a document owned by someone else. */
  lemma RequestsKeepOthersDocuments(store: Store, caller: Email, serverId: string, update: ServerUpdate,
                                     server: ServerCreate, freshId: ObjectId)
    requires freshId !in store
    ensures KeepsOthers(store, CreateServer(store, caller, server, freshId).store, caller)
    ensures KeepsOthers(store, GetServer(store, caller, serverId).store, caller)
    ensures KeepsOthers(store, UpdateServer(store, caller, serverId, update).store, caller)
    ensures KeepsOthers(store, DeleteServer(store, caller, serverId).store, caller)
  {
  }

  /** A created server is visible to its creator under the returned id, and only to them. */
  lemma CreateThenGet(store: Store, creator: Email, other: Email, server: ServerCreate, freshId: ObjectId)
    requires freshId !in store
    requires other != creator
    ensures var created := CreateServer(store, creator, server, freshId);
      && GetServer(created.store, creator, created.response.value.id).response == created.response
      && GetServer(created.store, other, created.response.value.id).response == NotFound
  {
  }

  /**
    A create body never decides the owner: only the caller does. A corollary
    of `CreateServer`'s contract, composed with body validation.
   */
  lemma CreateOwnerIsCaller(store: Store, caller: Email, body: Body, freshId: ObjectId)
    requires freshId !in store
    requires ParseServerCreate(body).Success?
    ensures var r := CreateServer(store, caller, ParseServerCreate(body).value, freshId);
      r.response.value.ownerEmail == caller && r.store[freshId].ownerEmail == caller
  {
  }

  /**
    A malformed id string is answered with 400 by get, update and delete alike,
    before the collection is consulted: the answer is the same for any
    collection and any caller.
   */
  lemma MalformedIdIsRejectedEverywhere(store: Store, other: Store, caller: Email, serverId: string, update: ServerUpdate)
    requires ParseId(serverId).None?
    ensures GetServer(store, caller, serverId) == Reply(InvalidId, store)
    ensures UpdateServer(store, caller, serverId, update) == Reply(InvalidId, store)
    ensures DeleteServer(store, caller, serverId) == Reply(InvalidId, store)
    ensures GetServer(other, caller, serverId).response == GetServer(store, caller, serverId).response
    ensures var response := GetServer(store, caller, serverId).response;
      response.StatusCode() == 400 && response.Detail() == "Invalid server ID"
  {
  }

  /**
    Someone else's document looks exactly like a missing one to get, to a
    non-empty update and to delete: the answer is what it would be if the
    document were not in the collection at all.
   */
  lemma ForeignLooksAbsent(store: Store, caller: Email, id: ObjectId, update: ServerUpdate)
    requires id in store && store[id].ownerEmail != caller
    requires UpdateData(update) != map[]
    ensures GetServer(store, caller, Render(id)).response == GetServer(store - {id}, caller, Render(id)).response == NotFound
    ensures UpdateServer(store, caller, Render(id), update).response == UpdateServer(store - {id}, caller, Render(id), update).response == NotFound
    ensures DeleteServer(store, caller, Render(id)).response == DeleteServer(store - {id}, caller, Render(id)).response == NotFound
    ensures var response := GetServer(store, caller, Render(id)).response;
      response.StatusCode() == 404 && response.Detail() == "Server not found"
  {
    RenderThenParse(id);
  }

  /** The id a successful get answers with is the requested one, letters in lower case. */
  lemma GetAnswersRequestedId(store: Store, caller: Email, serverId: string)
    requires GetServer(store, caller, serverId).response.Ok?
    ensures GetServer(store, caller, serverId).response.value.id == LowerCase(serverId)
  {
    ParseThenRender(serverId, ParseId(serverId).value);
  }

  /** `$set` twice with the same data is `$set` once. */
  lemma ApplySetIdempotent(doc: Server, data: map<string, string>)
    requires data.Keys <= ServerFieldKeys
    ensures ApplySet(ApplySet(doc, data), data) == ApplySet(doc, data)
  {
  }

  /** Repeating an update, empty or not, changes nothing more and answers the same. */
  lemma UpdateIdempotent(store: Store, caller: Email, serverId: string, update: ServerUpdate)
    ensures var once := UpdateServer(store, caller, serverId, update);
      UpdateServer(once.store, caller, serverId, update) == once
  {
    var once := UpdateServer(store, caller, serverId, update);
    if id :| ParseId(serverId) == Some(id) {
      if UpdateData(update) != map[] && OwnedBy(store, id, caller) {
        ApplySetIdempotent(store[id], UpdateData(update));
        assert once.store[id := ApplySet(once.store[id], UpdateData(update))] == once.store;
      }
    }
  }

  /** After a successful delete the id is gone for everyone, and deleting it again answers 404. */
  lemma DeleteThenGet(store: Store, caller: Email, anyone: Email, serverId: string)
    requires DeleteServer(store, caller, serverId).response.Ok?
    ensures var deleted := DeleteServer(store, caller, serverId).store;
      && GetServer(deleted, anyone, serverId).response == NotFound
      && DeleteServer(deleted, anyone, serverId).response == NotFound
  {
  }

  /**
    An update with every field `None` is blind to ownership: any two callers
    get the same answer, and on someone else's document that answer is the
    document itself, which get refuses to show.
   */
  lemma EmptyUpdateIgnoresOwner(store: Store, caller: Email, other: Email, id: ObjectId)
    requires id in store && store[id].ownerEmail == other && other != caller
    ensures UpdateServer(store, caller, Render(id), EmptyUpdate) == UpdateServer(store, other, Render(id), EmptyUpdate)
    ensures UpdateServer(store, caller, Render(id), EmptyUpdate).response == Ok(Respond(id, store[id]))
    ensures GetServer(store, caller, Render(id)).response == NotFound
  {
    RenderThenParse(id);
  }

  /** An empty update of a well-formed id that is in no document fails with 500, not 404. */
  lemma EmptyUpdateOfMissingIdFails(store: Store, caller: Email, id: ObjectId)
    requires id !in store
    ensures UpdateServer(store, caller, Render(id), EmptyUpdate) == Reply(InternalError, store)
    ensures GetServer(store, caller, Render(id)).response == NotFound
  {
    RenderThenParse(id);
  }

  /**
    An empty update body validates to an update with no field to write: the
    composition of `ParseServerUpdate` and `UpdateData`, which is what sends an
    empty PUT down the no-write path of `UpdateServer`.
   */
  lemma EmptyBodyWritesNothing()
    ensures ParseServerUpdate(map[]) == Success(EmptyUpdate)
    ensures UpdateData(EmptyUpdate) == map[]
  {
  }

  /**
    The request sequence of the feature smoke test: create a server without a
    status, which is then owned by the caller (so a list by that caller is not
    empty), and delete it. Beyond what the smoke test checks, the status is the
    schema default and a get after the delete answers 404.
   */
  lemma FeatureScenario(store: Store, caller: Email, freshId: ObjectId)
    requires freshId !in store
    ensures var body := map[NameKey := JString("Test Server"), IpAddressKey := JString("192.168.1.1")];
      && ParseServerCreate(body) == Success(ServerBase("Test Server", "192.168.1.1", DefaultStatus))
      && var created := CreateServer(store, caller, ParseServerCreate(body).value, freshId);
      && created.response.value.status == "active"
      && freshId in OwnedIds(created.store, caller)
      && var deleted := DeleteServer(created.store, caller, created.response.value.id);
      && deleted.response == Ok(DeletedMessage)
      && GetServer(deleted.store, caller, created.response.value.id).response == NotFound
  {
    var body := map[NameKey := JString("Test Server"), IpAddressKey := JString("192.168.1.1")];
    assert StatusKey !in body;
  }
}
