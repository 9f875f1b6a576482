/**
  The ownership-scoped server CRUD service. The document collection is an
  immutable map from ObjectId to stored document; every operation takes the
  authenticated caller's email as a plain input and returns its HTTP-level
  response together with the collection as it is afterwards.
 */
module Servers {
  import opened Wrappers
  import opened ObjectIds
  import opened Schemas

  /** A stored server document: the create fields with the owner stamped on. */
  datatype Server = Server(name: string, ipAddress: string, status: string, ownerEmail: Email) {

    function Base(): ServerBase {
      ServerBase(name, ipAddress, status)
    }
  }

  /** The `servers` collection, keyed by `_id`. */
  type Store = map<ObjectId, Server>

  /** The `to_list` length passed by the list operation. */
  const ListLimit := 100

  const InvalidIdDetail := "Invalid server ID"
  const NotFoundDetail := "Server not found"
  const DeletedMessage := "Server deleted successfully"

  /**
    What a request answers: a value, the 400 for an id that does not parse,
    the 404 for no record matching the filter, or the 500 of an exception the
    handler does not catch.
   */
  datatype Response<+T> = Ok(value: T) | InvalidId | NotFound | InternalError {

    function StatusCode(): int {
      match this
      case Ok(_) => 200
      case InvalidId => 400
      case NotFound => 404
      case InternalError => 500
    }

    function Detail(): string
      requires InvalidId? || NotFound?
    {
      if InvalidId? then InvalidIdDetail else NotFoundDetail
    }
  }

  /** A response together with the collection after the request. */
  datatype Reply<+T> = Reply(response: Response<T>, store: Store)

  /** A document matches the filter `{"_id": id, "owner_email": caller}`. */
  predicate OwnedBy(store: Store, id: ObjectId, caller: Email) {
    id in store && store[id].ownerEmail == caller
  }

  /** The ids a caller owns: what `{"owner_email": caller}` selects. */
  function OwnedIds(store: Store, caller: Email): set<ObjectId> {
    set id | id in store && OwnedBy(store, id, caller)
  }

  /** `find_one` on `_id`, further narrowed to one owner when `owner` is given. */
  function FindOne(store: Store, id: ObjectId, owner: Option<Email>): Option<Server> {
    if id in store && (owner.None? || store[id].ownerEmail == owner.value) then Some(store[id]) else None
  }

  /** `ServerResponse(**doc, id=str(doc["_id"]))`: the id string parses back to the document's key. */
  function Respond(id: ObjectId, doc: Server): (r: ServerResponse)
    ensures r.id == Render(id) && ParseId(r.id) == Some(id)
    ensures r.Base() == doc.Base() && r.ownerEmail == doc.ownerEmail
  {
    RenderThenParse(id);
    ServerResponse(Render(id), doc.name, doc.ipAddress, doc.status, doc.ownerEmail)
  }

  /**
    `$set` of an `update_data` map: the document's fields, read as a dict, are
    overlaid with the data, and the owner stays.
   */
  function ApplySet(doc: Server, data: map<string, string>): (r: Server)
    requires data.Keys <= ServerFieldKeys
    ensures r.Base().Dict() == doc.Base().Dict() + data
    ensures r.ownerEmail == doc.ownerEmail
    ensures data == map[] ==> r == doc
  {
    Server(
      if NameKey in data then data[NameKey] else doc.name,
      if IpAddressKey in data then data[IpAddressKey] else doc.ipAddress,
      if StatusKey in data then data[StatusKey] else doc.status,
      doc.ownerEmail)
  }

  /**
    The responses built from distinct ids carry distinct id strings, and every
    id in `taken` is answered by one of them.
   */
  lemma ListedResponses(store: Store, caller: Email, taken: seq<ObjectId>, servers: seq<ServerResponse>)
    requires |servers| == |taken|
    requires forall i :: 0 <= i < |taken| ==> taken[i] in store && servers[i] == Respond(taken[i], store[taken[i]])
    requires forall i, j :: 0 <= i < j < |taken| ==> taken[i] != taken[j]
    ensures forall i, j :: 0 <= i < j < |servers| ==> servers[i].id != servers[j].id
    ensures forall id :: id in taken ==> exists i :: 0 <= i < |servers| && servers[i].id == Render(id)
  {
  }

  /**
    `get_servers`: at most 100 of the caller's documents, in an order the store
    chooses. Nothing else is returned and, when the caller owns no more than
    100, nothing of theirs is missing.
   */
  method ListServers(store: Store, caller: Email) returns (reply: Reply<seq<ServerResponse>>)
    ensures reply.store == store
    ensures reply.response.Ok?
    ensures var rs := reply.response.value;
      |rs| == (if |OwnedIds(store, caller)| <= ListLimit then |OwnedIds(store, caller)| else ListLimit)
    ensures var rs := reply.response.value;
      forall i :: 0 <= i < |rs| ==>
        && ParseId(rs[i].id).Some?
        && OwnedBy(store, ParseId(rs[i].id).value, caller)
        && rs[i] == Respond(ParseId(rs[i].id).value, store[ParseId(rs[i].id).value])
    ensures var rs := reply.response.value;
      forall i, j :: 0 <= i < j < |rs| ==> rs[i].id != rs[j].id
    ensures var rs := reply.response.value;
      |OwnedIds(store, caller)| <= ListLimit ==>
        forall id :: OwnedBy(store, id, caller) ==> exists i :: 0 <= i < |rs| && rs[i].id == Render(id)
  {
    var owned := OwnedIds(store, caller);
    var remaining := owned;
    var taken: seq<ObjectId> := [];
    var servers: seq<ServerResponse> := [];
    while remaining != {} && |servers| < ListLimit
      invariant remaining <= owned
      invariant |servers| == |taken| <= ListLimit
      invariant |remaining| + |taken| == |owned|
      invariant forall i :: 0 <= i < |taken| ==> taken[i] in owned && taken[i] !in remaining
      invariant forall i :: 0 <= i < |taken| ==> servers[i] == Respond(taken[i], store[taken[i]])
      invariant forall i, j :: 0 <= i < j < |taken| ==> taken[i] != taken[j]
      invariant forall id :: id in owned && id !in remaining ==> id in taken
      decreases remaining
    {
      var id :| id in remaining;
      servers := servers + [Respond(id, store[id])];
      taken := taken + [id];
      remaining := remaining - {id};
    }
    assert forall id :: OwnedBy(store, id, caller) <==> id in owned;
    assert forall i :: 0 <= i < |servers| ==> ParseId(servers[i].id) == Some(taken[i]);
    ListedResponses(store, caller, taken, servers);
    reply := Reply(Ok(servers), store);
  }

  /**
    `create_server`: inserts the body's fields with the owner stamped from the
    caller under the id the store assigns, then returns the stored document.
   */
  function CreateServer(store: Store, caller: Email, server: ServerCreate, freshId: ObjectId): (r: Reply<ServerResponse>)
    requires freshId !in store
    ensures r.store.Keys == store.Keys + {freshId}
    ensures forall id :: id in store ==> r.store[id] == store[id]
    ensures r.store[freshId].Base() == server && r.store[freshId].ownerEmail == caller
    ensures r.response.Ok?
    ensures r.response.value.id == Render(freshId) && ParseId(r.response.value.id) == Some(freshId)
    ensures r.response.value.Base() == server && r.response.value.ownerEmail == caller
  {
    var doc := Server(server.name, server.ipAddress, server.status, caller);
    var inserted := store[freshId := doc];
    var created := FindOne(inserted, freshId, None);
    Reply(Ok(Respond(freshId, created.value)), inserted)
  }

  /** `get_server`: the caller's document with that id, or 404 whether it is absent or someone else's. */
  function GetServer(store: Store, caller: Email, serverId: string): (r: Reply<ServerResponse>)
    ensures r.store == store
    ensures r.response.InvalidId? <==> ParseId(serverId).None?
    ensures r.response.Ok? <==> ParseId(serverId).Some? && OwnedBy(store, ParseId(serverId).value, caller)
    ensures r.response.NotFound? <==> ParseId(serverId).Some? && !OwnedBy(store, ParseId(serverId).value, caller)
    ensures r.response.Ok? ==>
      var id := ParseId(serverId).value;
      r.response.value.id == Render(id) && r.response.value.Base() == store[id].Base() && r.response.value.ownerEmail == caller
  {
    match ParseId(serverId)
    case None => Reply(InvalidId, store)
    case Some(id) =>
      var found := FindOne(store, id, Some(caller));
      if found.None? then Reply(NotFound, store)
      else Reply(Ok(Respond(id, found.value)), store)
  }

  /**
    `update_server`. With at least one non-`None` field, `$set` those fields on
    the document matching id and owner, or answer 404 when none matches. With
    no such field nothing is written. Either way the document is then re-read
    by id alone, without the owner filter; when that finds nothing the handler
    raises, which surfaces as a 500.
   */
  function UpdateServer(store: Store, caller: Email, serverId: string, update: ServerUpdate): (r: Reply<ServerResponse>)
    ensures r.response.InvalidId? <==> ParseId(serverId).None?
    ensures r.response.InvalidId? ==> r.store == store
    ensures r.store.Keys == store.Keys
    ensures forall id :: id in store ==> r.store[id].ownerEmail == store[id].ownerEmail
    ensures forall id :: id in store && r.store[id] != store[id] ==>
      ParseId(serverId) == Some(id) && OwnedBy(store, id, caller) && UpdateData(update) != map[]
    ensures ParseId(serverId).Some? && UpdateData(update) != map[] ==>
      var id := ParseId(serverId).value;
      && (r.response.NotFound? <==> !OwnedBy(store, id, caller))
      && (r.response.NotFound? ==> r.store == store)
      && (r.response.Ok? <==> OwnedBy(store, id, caller))
      && (r.response.Ok? ==> r.store[id] == ApplySet(store[id], UpdateData(update)))
      && (r.response.Ok? ==> r.response.value == Respond(id, r.store[id]))
    ensures ParseId(serverId).Some? && UpdateData(update) == map[] ==>
      var id := ParseId(serverId).value;
      && r.store == store
      && (r.response.InternalError? <==> id !in store)
      && (r.response.Ok? <==> id in store)
      && (r.response.Ok? ==> r.response.value == Respond(id, store[id]))
  {
    match ParseId(serverId)
    case None => Reply(InvalidId, store)
    case Some(id) =>
      var data := UpdateData(update);
      if data != map[] && FindOne(store, id, Some(caller)).None? then
        Reply(NotFound, store)
      else
        var written := if data != map[] then store[id := ApplySet(store[id], data)] else store;
        var reread := FindOne(written, id, None);
        if reread.None? then Reply(InternalError, written)
        else Reply(Ok(Respond(id, reread.value)), written)
  }

  /** `delete_server`: removes the document matching id and owner, or answers 404 when none matches. */
  function DeleteServer(store: Store, caller: Email, serverId: string): (r: Reply<string>)
    ensures r.response.InvalidId? <==> ParseId(serverId).None?
    ensures r.response.Ok? <==> ParseId(serverId).Some? && OwnedBy(store, ParseId(serverId).value, caller)
    ensures r.response.NotFound? <==> ParseId(serverId).Some? && !OwnedBy(store, ParseId(serverId).value, caller)
    ensures r.response.Ok? ==> r.response.value == DeletedMessage
    ensures r.response.Ok? ==> r.store.Keys == store.Keys - {ParseId(serverId).value}
    ensures forall id :: id in r.store ==> id in store && r.store[id] == store[id]
    ensures !r.response.Ok? ==> r.store == store
  {
    match ParseId(serverId)
    case None => Reply(InvalidId, store)
    case Some(id) =>
      if FindOne(store, id, Some(caller)).None? then Reply(NotFound, store)
      else Reply(Ok(DeletedMessage), store - {id})
  }
}
