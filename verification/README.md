# Ownership-scoped server inventory, in Dafny

This project models the server CRUD service of a small FastAPI application. Users authenticate and keep an inventory of "server" records. Each record has a name, an IP address and a status, and belongs to the user whose email it carries. The core is the router in `app/routers/servers.py` and the pydantic schemas it relies on in `app/schemas.py`.

The MongoDB collection is an immutable `map<ObjectId, Server>`. The five endpoints are five operations in module `Servers`: `ListServers`, `CreateServer`, `GetServer`, `UpdateServer` and `DeleteServer`. Each one takes the collection and the caller's email, and returns a `Reply`. A `Reply` holds the HTTP-level response and the collection as it is afterwards. A response is one of four things:

- `Ok(value)`: status 200.
- `InvalidId`: status 400, for an id string that does not parse.
- `NotFound`: status 404.
- `InternalError`: status 500, for the one exception the handlers do not catch.

Modules:

- `Wrappers`: `Option` and `Result`.
- `ObjectIds`: the ObjectId is 12 bytes. `ParseId` stands for `ObjectId(s)` and accepts exactly 24 hexadecimal digits of either case. `Render` stands for `str(ObjectId)` and produces 24 lower-case digits. Both round trips are proved.
- `Schemas`: `ServerBase`/`ServerCreate`, `ServerUpdate`, `ServerResponse`, `UserProfileUpdate` and `UserInDB`. It also models how a JSON request body validates into them: required fields, the `"active"` status default, optional fields defaulting to `None`, and keys outside the schema being ignored.
- `Servers`: the collection and the five operations.
- `ServerProperties`: lemmas that relate several requests or several callers, covering isolation, idempotence, delete-then-get and the empty-update behaviour.

An update body with no non-`None` field behaves exactly as the code behaves (`app/routers/servers.py:48`, `:56-57`). No write happens, and the document is re-read by `_id` alone, with no owner filter. So any caller gets back someone else's document (`EmptyUpdateIgnoresOwner`). An id that is in no document makes `ServerResponse(**None)` raise, which the model answers with `InternalError`, not `NotFound` (`EmptyUpdateOfMissingIdFails`). A 404 would be the consistent answer here; the handler instead raises at `app/routers/servers.py:57`, and the model follows the code.

## Model

| member | source | states |
|---|---|---|
| ObjectIds.ParseId | app/routers/servers.py:25-28 | an id string parses exactly when it is 24 hexadecimal digits; anything else is the malformed-id case |
| ObjectIds.Render | app/routers/servers.py:13 | the external id is always 24 lower-case hexadecimal digits |
| ObjectIds.RenderThenParse | app/routers/servers.py:26 | every rendered id parses back to the same ObjectId |
| ObjectIds.ParseThenRender | app/routers/servers.py:26 | parsing then rendering gives back the input string, lower-cased |
| ObjectIds.RenderInjective | app/routers/servers.py:13 | distinct ObjectIds never share an external id |
| Schemas.ServerBase.Dict | app/routers/servers.py:17 | `server.dict()` has exactly the keys name, ip_address and status, never owner_email |
| Schemas.ParseServerCreate | app/schemas.py:32-38 | a create body validates iff name and ip_address are strings and status is absent or a string; an absent status becomes "active" |
| Schemas.CreateBodyRoundTrip | app/schemas.py:32-38 | a create model's own fields, sent as a body, validate to the same model |
| Schemas.CreateIgnoresForeignKeys | app/schemas.py:32-38 | keys outside the schema, owner_email included, cannot change what a create body validates to |
| Schemas.ParseServerUpdate | app/schemas.py:40-43 | every update field is optional; absent or null gives None, and a body with no schema key is the all-None update |
| Schemas.UpdateIgnoresForeignKeys | app/schemas.py:40-43 | keys outside the schema, owner_email included, cannot change what an update body validates to |
| Schemas.UpdateData | app/routers/servers.py:46 | update_data holds exactly the non-None fields with their values, only base-field keys, never owner_email; it is empty iff every field is None |
| Schemas.ParseUserProfileUpdate | app/schemas.py:14-19 | a profile body validates iff no text field holds an integer and age does not hold a string; each field is the given value, or None when absent or null; an empty body is the all-None update |
| Schemas.ParseUserInDB | app/schemas.py:21-29 | a stored user validates iff email and hashed_password are strings and the profile fields validate as a profile update would; its profile fields are exactly that update's |
| Schemas.RegisteredUserHasEmptyProfile | app/schemas.py:21-29 | a user record with only email and hashed_password validates, keeps both, and has every profile field None |
| Servers.Respond | app/schemas.py:45-47 | a response carries the document's base fields and owner, and its id is `str(_id)`, the rendered key, which parses back to that key |
| Servers.ApplySet | app/routers/servers.py:49-51 | after $set the document's fields, read as a dict, are the old dict overlaid with update_data; the owner stays; empty data changes nothing |
| Servers.ListServers | app/routers/servers.py:10-13 | the collection is unchanged; the list has min(owned, 100) entries, each one of the caller's documents, with no id twice, and all of the caller's documents when they own at most 100 |
| Servers.CreateServer | app/routers/servers.py:15-21 | exactly one document is added, under the fresh id, with the body's fields and the caller as owner; the others are unchanged; the response carries that id rendered and the caller as owner |
| Servers.GetServer | app/routers/servers.py:23-33 | the collection is unchanged; 400 iff the id does not parse; 200 iff the id parses and the caller owns that document; otherwise 404 |
| Servers.UpdateServer | app/routers/servers.py:35-57 | 400 iff the id does not parse. A non-empty update sets exactly the given fields on the caller's document, or answers 404 with nothing changed. An empty update writes nothing and returns the document found by id alone, or 500 when no document has that id. No owner ever changes, and no other document changes |
| Servers.DeleteServer | app/routers/servers.py:59-69 | 400 iff the id does not parse; success iff the caller owns that document, which then is removed and nothing else; otherwise 404 with nothing changed |
| ServerProperties.RequestsKeepOthersDocuments | app/routers/servers.py:15-69 | no create, get, update or delete by a caller adds, alters or removes a document owned by someone else |
| ServerProperties.CreateThenGet | app/routers/servers.py:17-33 | a created server can be got by its creator under the returned id, and any other caller gets 404 |
| ServerProperties.CreateOwnerIsCaller | app/routers/servers.py:16-18 | corollary of CreateServer's contract composed with body validation: whatever the create body holds, the stored and returned owner is the caller |
| ServerProperties.MalformedIdIsRejectedEverywhere | app/routers/servers.py:25-64 | a malformed id gives 400 "Invalid server ID" on get, update and delete with the collection unchanged, whatever the collection holds |
| ServerProperties.ForeignLooksAbsent | app/routers/servers.py:30-68 | on get, non-empty update and delete, a document owned by another caller gives the same 404 "Server not found" as a document that is not there |
| ServerProperties.GetAnswersRequestedId | app/routers/servers.py:26-33 | a successful get returns the requested id string, lower-cased |
| ServerProperties.ApplySetIdempotent | app/routers/servers.py:49-51 | applying the same $set twice equals applying it once |
| ServerProperties.UpdateIdempotent | app/routers/servers.py:46-57 | repeating any update gives the same collection and the same response as doing it once |
| ServerProperties.DeleteThenGet | app/routers/servers.py:66-69 | after a successful delete, get gives 404 to every caller, and so does a second delete |
| ServerProperties.EmptyUpdateIgnoresOwner | app/routers/servers.py:48-57 | an all-None update answers the same to every caller and returns another owner's document, which get answers with 404 |
| ServerProperties.EmptyUpdateOfMissingIdFails | app/routers/servers.py:56-57 | an all-None update of a well-formed id that is in no document gives 500, not 404, with the collection unchanged |
| ServerProperties.EmptyBodyWritesNothing | app/routers/servers.py:46-48 | corollary of ParseServerUpdate and UpdateData: an empty update body validates to the all-None update, whose update_data is empty, so it takes the no-write path |
| ServerProperties.FeatureScenario | test_features.py:50-75 | the smoke test's create, list and delete: creating "Test Server" without a status succeeds and leaves a document the caller owns (the list step is stated as ownership only), and deleting it answers the success message; beyond the script, the status is the default "active" of app/schemas.py:35 and a later get gives the 404 of app/routers/servers.py:30-32 |

## Left out

- Authentication (`get_current_user`, tokens, password hashing, registration and login) is not part of this model. The caller's email is an input.
- The MongoDB driver's asynchronous I/O, store failures and network errors are not modelled. The collection is a pure map, and each store call is one map operation.
- Concurrency between the write and the re-read in `update_server` is not modelled. Requests are sequential.
- The id the store assigns on insert is a parameter of `CreateServer`, and it must not already be in the collection. The driver's id generation is not part of this model.
- Servers.ListServers: the order of the list is left open, because the store chooses it. The method picks documents nondeterministically and states only which documents are listed and how many.
- ObjectIds.ParseId: accepts exactly the 24-hexadecimal-digit form. The bson library's parser is not part of this model, and any leniency it has beyond that form is not modelled. The other constructor forms of `ObjectId` (12 raw bytes, another ObjectId) are not reachable from a path parameter.
- Schemas.ParseServerCreate, Schemas.ParseUserInDB: report only the first failing field. The framework reports every failing field.
- Schemas.ParseServerCreate, Schemas.ParseServerUpdate, Schemas.ParseUserProfileUpdate, Schemas.ParseUserInDB: JSON values are null, strings and integers only. A value of the wrong type is rejected. pydantic's lax conversions between numbers and strings, and other JSON types, are not modelled.
- pydantic's `EmailStr` validation of the response owner and of a stored user's email is not modelled. Owners come from authenticated users.
- The `created_at` timestamp of `UserInDB` is not modelled, because it depends on the clock.
- The profile-update endpoint that applies `UserProfileUpdate` is not part of this model. Only the schema's optional-field shape is.
- FastAPI routing, `Depends` and the `HTTPException` machinery are not modelled. Status codes are the constructors of `Servers.Response`, and the 422 for an invalid body is a `Schemas.ValidationError`.
