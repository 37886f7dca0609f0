# Todo backend: request protocol, session gate and cache coherence

This project models the core of a per-user todo-list backend (an Express
server over MongoDB, a Redis cache and Firebase sign-in) and proves
properties of the model in Dafny.

It has three stores:

- the todo collection: records with `_id`, `todo` text, `completed`, owner `userId` and `createdAt`;
- the per-owner list cache, keyed `todos_<uid>`;
- the session collection: `userId`, `sessionId` and `createdAt`.

It covers these endpoints:

- `POST /login` verifies a Firebase ID token. It then signs a JWT over `{ uid, email }` for seven days, stores a session record under a random marker, and returns both.
- `POST /logout` deletes at most one session record with the given marker, and none when no record carries it.
- `GET /`, `POST /`, `DELETE /:id`, `PUT /:id` and `PATCH /:id` sit behind a middleware. The middleware verifies the `auth_token` cookie as a JWT.
- Every mutating handler runs an owner-scoped mutation, after `POST` checks its `todo` field or `DELETE`, `PUT` and `PATCH` cast the `:id`. It then deletes the owner's cache key, re-reads the owner's list, writes it back to the cache, and returns it.

Files and modules:

- `common.dfy` (`Common`): `Option` and JavaScript truthiness of an optional string.
- `todo.dfy` (`TodoModel`): the todo schema, its defaults and its required-field validation.
- `session.dfy` (`SessionModel`): the session schema and its two-hour lifetime.
- `todo_store.dfy` (`TodoStore`): `find`, `findOneAndDelete` and `findOneAndUpdate` over a sequence in natural order, with the ownership lemmas.
- `session_store.dfy` (`SessionStore`): `create`, `deleteOne` (first match) and the TTL reaper.
- `cache.dfy` (`Cache`): the cache key, and get/set/del on a logical millisecond clock.
- `http.dfy` (`Http`): responses.
- `auth.dfy` (`Auth`): the middleware's decision as a function. The middleware itself is a method on an `Exchange` object (its `req.user`, the responses sent, and the `next()` calls).
- `protocol.dfy` (`Protocol`): each endpoint as a pure transition from a state to a new state plus the responses sent in order.
- `protocol_lemmas.dfy` (`ProtocolLemmas`): what those transitions guarantee.
- `server.dfy` (`Server`): the server as a class whose fields are the three stores. Each handler method performs the source's steps in order and is proved to agree with `Protocol`.
- `scenarios.dfy` (`Scenarios`): client runs of the class.

## Where the model follows the code rather than its apparent intent

- Login hands out both a JWT and a session marker, and CORS allows an `X-Session-Marker` header, which suggests the marker was meant to be checked against the session table on each request. The middleware actually reads only the `auth_token` cookie and `jwt.verify`s it (server/middlewares/authMiddleware.js:4-10). Neither the middleware nor any protected route reads the session table (only `/logout`'s `deleteOne` touches it), and nothing reads the `X-Session-Marker` header that CORS allows. So logging out does not revoke a JWT (`ProtocolLemmas.LogoutDoesNotRevoke`, `Scenarios.LogoutThenList`).
- `/login` returns the JWT in the body and sets no cookie (server/server.js:59-63).
- On not-found, `PUT`, `PATCH` and `DELETE` send 404 and then carry on. They refresh the cache and try to send a 200 as well (server/server.js:143-145, 175-177, 207-209). Handlers therefore return the sequence of responses they call `res.status(...).json(...)` for, and these three record `[404, 200]`; the client receives only the 404.
- The marker comes from `crypto.randomUUID()`, but the schema only indexes `sessionId` and does not declare it unique, so the model does not assume uniqueness, and `deleteOne` removes the first match.
- The schema requires non-empty text. `findOneAndUpdate` runs no validators by default, so a `PUT` with `todo: ""` stores empty text (`Scenarios.EmptyTextThroughPut`). Only `POST` is validated, by its falsy check and by `save()`.
- A `:id` that is not an ObjectId makes the query throw a CastError. The handler catches it and answers 500 before changing anything.
- A body field that is absent is `undefined`. The model assumes Mongoose drops such keys from an update document, as Mongoose 6 and later do. So `PUT` without `todo`, or `PATCH` without `completed`, leaves that field as it was and still answers 200. An `Option` body field at `PUT` and `PATCH` therefore stands for a value or `undefined`; an explicit `null`, which Mongoose would store, is left out.

## Model

Each endpoint is defined once, as a pure transition in module `Protocol`: `Login`, `Logout`, `ReapSessions`, `List`, `Create`, `Remove` (DELETE), `Edit` (PUT and PATCH), `Refreshed` (the del/find/set tail), `Handle` (route dispatch) and `Serve` (middleware then handler). These functions carry no contracts of their own. The `ProtocolLemmas` rows below state what they guarantee, and each `Server.TodoServer` row is a method proved to end in exactly the state and responses of the `Protocol` function of the same endpoint (`ListTodos` is `List`, `CreateTodo` is `Create`, `DeleteTodo` is `Remove`, `EditTodo` is `Edit`, `Serve` is `Serve`).

| member | source | states |
|---|---|---|
| TodoModel.NewTodo | server/models/todo.js:3-8 | a new record takes the given text, owner, id and time, with `completed` false; it is rejected exactly when the text or the owner is empty, and then with the error naming that field |
| SessionModel.NewSession | server/models/session.js:3-7 | a new session keeps the given `userId` and `sessionId`, has `createdAt` equal to the creation time, and is alive at creation and no longer alive two hours later |
| TodoStore.Find | server/server.js:99 | `find({ userId })` returns exactly the records of that owner, no more than the collection holds |
| TodoStore.FirstMatch | server/server.js:142 | the filter `{ _id, userId }` selects the first record matching both fields; it finds none exactly when no record matches both |
| TodoStore.FindOneAndDelete | server/server.js:142 | on no match the collection is unchanged and nothing is returned; otherwise the first matching record is returned and removed from its position, the rest keeping their order |
| TodoStore.Apply | server/server.js:169-173 | the PUT update changes only `todo` and the PATCH update changes only `completed` (an absent field changes nothing); `_id`, owner and `createdAt` are kept |
| TodoStore.FindOneAndUpdate | server/server.js:169-173 | on no match the collection is unchanged; otherwise the returned record matches and is in the new collection, and every position either keeps its record or holds the updated version of a matching one; on a match, exactly the first matching position is replaced by the update applied to it, and that updated record is returned |
| TodoStore.FindConcat | server/server.js:150 | `find` keeps natural order: the owner's list of a concatenation is the concatenation of the owner's lists |
| TodoStore.FindAppend | server/server.js:118-124 | appending a record adds it to the end of its owner's list and to no other owner's list |
| TodoStore.FindRemoveOther | server/server.js:142 | removing another owner's record leaves an owner's list unchanged |
| TodoStore.FindReplaceOther | server/server.js:169-173 | replacing a record by one with the same owner leaves every other owner's list unchanged |
| TodoStore.DeleteIsolation | server/server.js:139-142 | a delete filtered by `userId` never changes another owner's list |
| TodoStore.UpdateIsolation | server/server.js:166-173 | an update filtered by `userId` never changes another owner's list |
| TodoStore.RemoveAtMembership | server/server.js:142 | with unique ids, removing one position removes exactly that record |
| TodoStore.DeleteFromOwnerList | server/server.js:142-150 | with unique ids, a successful delete removes exactly the deleted record from the owner's list |
| TodoStore.DeleteKeepsIdsUnique | server/server.js:142 | deleting keeps `_id`s unique |
| SessionStore.Count | server/models/session.js:5 | the number of records carrying a marker is zero exactly when none carries it |
| SessionStore.CountAppend | server/server.js:56 | `Session.create` adds one record with the marker and leaves the count of every other marker unchanged |
| SessionStore.DeleteOne | server/server.js:75 | `deleteOne` removes at most one record, one exactly when some record carries the marker; the marker's count drops by the deleted count, other markers' counts are unchanged, and every remaining record was already in the collection |
| SessionStore.DeleteOneKeepsOthers | server/server.js:75 | `deleteOne` leaves a sub-multiset of the old collection in which every record with another marker keeps its multiplicity, and with nothing deleted the collection is unchanged |
| SessionStore.DeleteOneTwice | server/server.js:73-79 | if at most one record carries the marker, a second `deleteOne` deletes nothing and changes nothing |
| SessionStore.NoMatchDeletesNothing | server/server.js:75 | `deleteOne` with a marker no record carries reports 0 and leaves the collection unchanged |
| SessionStore.Reap | server/models/session.js:6 | the reaper keeps exactly the sessions younger than two hours |
| SessionStore.ReapAppend | server/models/session.js:6 | the reaper keeps survivors in their natural order: a record added last survives, at the end, exactly when it is younger than two hours |
| Cache.CacheKey | server/server.js:85 | the key is `todos_` followed by the uid, so the key determines the owner |
| Cache.CacheKeyInjective | server/server.js:115 | distinct owners have distinct cache keys |
| Cache.Lookup | server/server.js:90-91 | a get hits exactly when the key is present and not expired, and then yields the stored list (an empty list is a hit) |
| Cache.Put | server/server.js:100 | after a set the key holds the list with an expiry exactly 300 seconds after now, so it yields the list until then and not after; every other key is unchanged |
| Cache.Evict | server/server.js:122 | after a del the key is absent and every other key is unchanged |
| Auth.Decide | server/middlewares/authMiddleware.js:3-15 | the request is accepted exactly when the cookie is truthy and verifies, with the decoded claims as user; a missing or empty cookie gives 401 "Unauthorized" and a failing verification gives 401 "Invalid cookie" |
| Auth.AuthMiddleware | server/middlewares/authMiddleware.js:3-15 | on rejection one 401 is sent, and `next` is not called and `req.user` is untouched; on acceptance `req.user` is the decoded claims, `next` is called once and nothing is sent; exactly one of the two happens |
| ProtocolLemmas.OthersUnchanged | server/server.js:136-224 | every handler run as one user leaves every other owner's list unchanged |
| ProtocolLemmas.HandleIsolatesOwners | server/server.js:139-142 | records of other owners are never changed, deleted or created; other owners' cache entries and the session table are untouched |
| ProtocolLemmas.RefreshRestoresCoherence | server/server.js:146-151 | del, find and set on the caller's key after a change confined to the caller restores a coherent cache |
| ProtocolLemmas.HandlePreservesInvariant | server/server.js:83-224 | every handler keeps ids unique and below the next id, an owner on every record, and every cache entry equal to its owner's current list |
| ProtocolLemmas.EditPreservesInvariant | server/server.js:162-224 | PUT and PATCH keep the same invariant |
| ProtocolLemmas.ListPreservesInvariant | server/server.js:83-107 | GET keeps the same invariant |
| ProtocolLemmas.CreatePreservesInvariant | server/server.js:109-134 | POST keeps the same invariant |
| ProtocolLemmas.RemovePreservesInvariant | server/server.js:136-160 | DELETE keeps the same invariant |
| ProtocolLemmas.RejectedRequestsChangeNothing | server/server.js:110-113 | a falsy `todo` gives 400; a record failing the schema or a malformed id gives 500; none of them changes any store |
| ProtocolLemmas.MutationRefreshesOwnerCache | server/server.js:118-129 | a mutation that reaches its final response leaves the owner's cache entry and the returned `todos` both equal to the owner's new list, cached for 300 seconds; its status is 201 for POST and 200 otherwise |
| ProtocolLemmas.CreateAppendsRecord | server/server.js:109-129 | a POST that passes validation appends exactly one record (the text, owner `uid`, `completed` false, the next id, the current time), advances the id, leaves sessions alone, caches the owner's old list plus that record for 300 seconds, and answers 201 with that list |
| ProtocolLemmas.NotFoundStillRefreshes | server/server.js:142-155 | PUT, PATCH or DELETE on an id the caller does not own leave the collection unchanged, send 404 and then 200 with the unchanged list, and rewrite the owner's cache entry |
| TodoStore.DeleteKeepsOrder | server/server.js:142-150 | after a successful delete the owner's list is the old one with the record of that id taken out at its position, the others in their order |
| ProtocolLemmas.DeleteDropsRecord | server/server.js:136-155 | a successful DELETE sends exactly one response, a 200 whose list is the owner's old list with the record of that id taken out, the others in their order |
| ProtocolLemmas.EditTouchesOneRecord | server/server.js:169-173 | PUT or PATCH changes exactly the record with that id and owner, in the one field named; every other record is unchanged; when the caller owns the id, the only response is the 200 with the new list (no 404) |
| ProtocolLemmas.ListServesCurrentList | server/server.js:85-102 | with a coherent cache, GET always answers 200 with the owner's current list; on a hit it changes nothing; on a miss it only writes the owner's list under `todos_<uid>` for 300 seconds |
| ProtocolLemmas.LoginOutcomes | server/server.js:34-69 | login sends exactly one response; it is 200 exactly when the token is truthy, verifies and the session is stored; a falsy token gives 400 "Token missing"; a failed verification or session write gives 401; a non-200 answer changes nothing and carries no JWT |
| ProtocolLemmas.LoginAddsOneSession | server/server.js:46-63 | a successful login appends exactly one session (the verified uid, the fresh marker, the current time) and keeps every existing session as it was, and returns that marker and a JWT signed over `{ uid, email }` for seven days; todos and cache are unchanged |
| ProtocolLemmas.LogoutIdempotent | server/server.js:73-79 | logout answers 200; with at most one record for the marker, it leaves none, and a second logout deletes nothing and changes nothing |
| ProtocolLemmas.LogoutRemovesOneOfDuplicates | server/server.js:75 | when several sessions share a marker, logout answers 200 and removes only one of them, so the next logout removes another |
| ProtocolLemmas.SessionsNeverConsulted | server/middlewares/authMiddleware.js:3-15 | a protected request has the same outcome whatever the session table holds |
| ProtocolLemmas.LogoutDoesNotRevoke | server/server.js:72-80 | after a logout every protected request gets the same responses as before it |
| ProtocolLemmas.UnauthenticatedRequestsChangeNothing | server/middlewares/authMiddleware.js:4-14 | a rejected request gets one 401 and no store changes |
| ProtocolLemmas.LogoutKeepsOtherSessions | server/server.js:73-80 | logout answers 200, adds no session, and every session with another marker survives with its multiplicity; todos and cache are unchanged |
| Server.TodoServer.Login | server/server.js:34-70 | the new state and the response are those of the login transition, and the invariant holds |
| Server.TodoServer.Logout | server/server.js:73-80 | the new session table and the 200 response are those of the logout transition |
| Server.TodoServer.ReapSessions | server/models/session.js:6 | the session table becomes the reaped one |
| Server.TodoServer.RefreshCache | server/server.js:121-125 | del, find and set leave the owner's list cached and return that list |
| Server.TodoServer.ListTodos | server/server.js:83-107 | the cache and response are those of the GET transition, and the invariant holds; the answer is the owner's current list, and on a miss the owner's list is written to the cache for 300 seconds |
| Server.TodoServer.CreateTodo | server/server.js:109-134 | the collection, next id, cache and response are those of the POST transition, and the invariant holds; with a truthy `todo` and a uid, the record (text, owner, `completed` false, next id, now) is appended and the 201 answer is the owner's old list followed by it |
| Server.TodoServer.DeleteTodo | server/server.js:136-160 | the collection, cache and responses (404 then 200 on not-found) are those of the DELETE transition, and the invariant holds |
| Server.TodoServer.EditTodo | server/server.js:162-224 | the collection, cache and responses are those of the PUT or PATCH transition, and the invariant holds |
| Server.TodoServer.Serve | server/server.js:83 | the middleware then the route's handler: the state and the added responses are those of the protected-request transition; `next` was called exactly when the cookie was accepted |
| Scenarios.AddAndComplete | server/server.js:109-224 | a POST then a PATCH by a signed-in user give a one-item list with the item completed, in both the answers and the cache |
| Scenarios.LogoutThenList | server/server.js:34-107 | login, add, complete, logout, then GET with the same cookie still answers 200 with the completed item |
| Scenarios.EditForeignTodo | server/server.js:162-192 | another user's PUT on an id gets 404 then 200 with that user's empty list, and the owner's list is unchanged |
| Scenarios.EmptyTextThroughPut | server/server.js:110-113 | POST with empty text is refused with 400, but PUT with empty text stores it |

## Left out

- Express, CORS and cookie-parser wiring, `app.listen`, `dotenv` and logging (server/server.js:1-31, 226-228) are plumbing.
- The MongoDB connection bootstrap (server/config/db.js) and the Redis client construction (server/config/redisClient.js) are I/O. The stores are values in the model.
- Firebase's `verifyIdToken`, `jwt.sign`, `jwt.verify` and `crypto.randomUUID` are foreign calls. They are parameters: an `IdVerifier`, a `JwtSigner`, a `JwtVerifier`, and the `sessionId` passed to `Login`.
- Store and cache connection failures, and the 500 answers they cause, are left out. Two exceptions are modelled: the CastError of a malformed `:id` and the validation error of `save()`. `Session.create` failing at login is a parameter.
- Auth.Decide: the decoded JWT also carries `iat` and `exp`. The model's claims hold only `uid` and `email`. JWT expiry is decided inside the verifier, so the middleware takes no clock.
- Body fields that are not strings, such as a numeric `todo` or a string `completed`, are left out. Mongoose's casting of them is not modelled.
- An absent `session_marker` at logout is left out. What `deleteOne({ sessionId: undefined })` matches depends on Mongoose's filter casting, so the marker is always a string.
- JSON serialisation of the cached list and the `typeof cached === "string"` branch (server/server.js:92, 100) are left out. The cache holds the list itself.
- The source passes `{ EX: 300 }` to the Upstash client (server/server.js:100, 125, 151, 183, 215), which as far as its documented options go reads only the lower-case `ex`. The option is then most likely ignored, so cache entries may never expire. The model keeps the 300-second expiry that was asked for; cache coherence (`ProtocolLemmas.HandlePreservesInvariant`) does not depend on expiry, since every mutation rewrites the owner's entry.
- The session TTL is enforced by the store's background reaper, which is an explicit step here (`ReapSessions`). Its sweep interval is not modelled.
- Concurrent requests are left out; every handler runs atomically and in sequence. The invalidate-then-repopulate race across requests is therefore not modelled.
- The double send (404 then 200) is recorded only as the response sequence. The "headers already sent" error that Express raises on the second send is not modelled, and neither is the `catch` block's 500 attempt that follows it (and throws too), so the sequence actually attempted is 404, 200, 500.
- ObjectIds are natural numbers handed out by a counter in the store.
