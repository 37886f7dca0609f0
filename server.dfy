/** The Express application of `server/server.js` as an object whose fields
    are the three stores. Each handler performs the source's steps in order
    (validate, owner-scoped mutation, `redis.del`, `Todo.find`, `redis.set`,
    respond) and is proved to end in the state and responses that module
    Protocol prescribes. */
module Server {
  import opened Common
  import opened TodoModel
  import opened SessionModel
  import opened TodoStore
  import opened SessionStore
  import opened Cache
  import opened Http
  import opened Auth
  import opened Protocol
  import ProtocolLemmas

  class TodoServer {
    /** The `Todos` collection, in natural order. */
    var todos: seq<Todo>
    /** The next `_id` the store hands out. */
    var nextId: TodoId
    /** The Redis cache. */
    var cache: Store
    /** The `Session` collection, in natural order. */
    var sessions: seq<Session>

    /** Firebase's `verifyIdToken`. */
    const verifyIdToken: IdVerifier
    /** `jwt.sign` and `jwt.verify` with the server's `JWT_SECRET`. */
    const signJwt: JwtSigner
    const verifyJwt: JwtVerifier

    function Snapshot(): State
      reads this
    {
      State(todos, nextId, cache, sessions)
    }

    ghost predicate Valid()
      reads this
    {
      Invariant(Snapshot())
    }

    constructor (verifyIdToken: IdVerifier, signJwt: JwtSigner, verifyJwt: JwtVerifier)
      ensures Valid() && Snapshot() == Initial
      ensures this.verifyIdToken == verifyIdToken && this.signJwt == signJwt && this.verifyJwt == verifyJwt
    {
      todos, nextId, cache, sessions := [], 0, map[], [];
      this.verifyIdToken := verifyIdToken;
      this.signJwt := signJwt;
      this.verifyJwt := verifyJwt;
    }

    /** `POST /login`. `sessionId` is the value `crypto.randomUUID()` returns;
        `createError` is the error `Session.create` throws, if it does. */
    method Login(token: Option<string>, sessionId: string, createError: Option<string>, now: int)
      returns (sent: seq<Response>)
      requires Valid()
      modifies this`sessions
      ensures Valid()
      ensures Outcome(Snapshot(), sent)
           == Protocol.Login(old(Snapshot()), token, verifyIdToken, signJwt, sessionId, createError, now)
    {
      if !Truthy(token) {
        return [TokenMissing];
      }
      var decoded := verifyIdToken(token.value);
      if decoded.Rejected? {
        return [LoginFailure(decoded.reason)];
      }
      var customJwt := signJwt(Claims(decoded.identity.uid, decoded.identity.email), JwtLifetime);
      if createError.Some? {
        return [LoginFailure(createError.value)];
      }
      sessions := sessions + [NewSession(decoded.identity.uid, sessionId, now)];
      return [Response(200, LoginIssued("✅ Cookie created successfully", customJwt, sessionId))];
    }

    /** `POST /logout` with body field `session_marker`. */
    method Logout(marker: string) returns (sent: seq<Response>)
      requires Valid()
      modifies this`sessions
      ensures Valid()
      ensures Outcome(Snapshot(), sent) == Protocol.Logout(old(Snapshot()), marker)
    {
      var deleted := DeleteOne(sessions, marker);
      sessions := deleted.sessions;
      return [Response(200, LoggedOut(deleted.deletedCount, "✅ Logged out and session cleared"))];
    }

    /** The TTL index on `createdAt` dropping every session two hours old. */
    method ReapSessions(now: int)
      requires Valid()
      modifies this`sessions
      ensures Valid()
      ensures Snapshot() == Protocol.ReapSessions(old(Snapshot()), now)
    {
      sessions := Reap(sessions, now);
    }

    /** The three cache steps every mutating handler ends with: delete the
        owner's key, re-read the owner's list, store it for 300 seconds. */
    method RefreshCache(uid: string, now: int) returns (list: seq<Todo>)
      modifies this`cache
      ensures list == Find(todos, uid)
      ensures Snapshot() == Refreshed(old(Snapshot()), uid, now)
    {
      var key := CacheKey(uid);
      cache := Evict(cache, key);
      list := Find(todos, uid);
      cache := Put(cache, key, list, now);
    }

    /** `GET /`. */
    method ListTodos(uid: string, now: int) returns (sent: seq<Response>)
      requires Valid()
      modifies this`cache
      ensures Valid()
      ensures Outcome(Snapshot(), sent) == List(old(Snapshot()), uid, now)
      ensures sent == [Response(200, TodoList(Find(todos, uid)))]
      ensures Lookup(old(cache), CacheKey(uid), now).None? ==>
        cache == old(cache)[CacheKey(uid) := Entry(Find(todos, uid), now + CacheTtl)]
    {
      ghost var before := Snapshot();
      ProtocolLemmas.HandlePreservesInvariant(before, uid, GetRoot, now);
      var key := CacheKey(uid);
      var cached := Lookup(cache, key, now);
      if cached.Some? {
        return [Response(200, TodoList(cached.value))];
      }
      var list := Find(todos, uid);
      cache := Put(cache, key, list, now);
      return [Response(200, TodoList(list))];
    }

    /** `POST /` with body field `todo`. */
    method CreateTodo(uid: string, todo: Option<string>, now: int) returns (sent: seq<Response>)
      requires Valid()
      modifies this`todos, this`nextId, this`cache
      ensures Valid()
      ensures Outcome(Snapshot(), sent) == Create(old(Snapshot()), uid, todo, now)
      ensures Truthy(todo) && Present(uid) ==>
        var t := Todo(old(nextId), todo.value, false, uid, now);
        && todos == old(todos) + [t] && nextId == old(nextId) + 1
        && sent == [Response(201, Mutation("✅ Todo added successfully", Find(old(todos), uid) + [t]))]
    {
      ghost var before := Snapshot();
      ProtocolLemmas.HandlePreservesInvariant(before, uid, PostRoot(todo), now);
      if Truthy(todo) && Present(uid) {
        ProtocolLemmas.CreateAppendsRecord(before, uid, todo.value, now);
      }
      if !Truthy(todo) {
        return [MissingTodo];
      }
      var created := NewTodo(nextId, todo.value, uid, now);
      if created.Err? {
        return [SaveFailed];
      }
      todos := todos + [created.todo];
      nextId := nextId + 1;
      var list := RefreshCache(uid, now);
      return [Response(201, Mutation("✅ Todo added successfully", list))];
    }

    /** `DELETE /:id`. */
    method DeleteTodo(uid: string, id: IdParam, now: int) returns (sent: seq<Response>)
      requires Valid()
      modifies this`todos, this`cache
      ensures Valid()
      ensures Outcome(Snapshot(), sent) == Remove(old(Snapshot()), uid, id, now)
    {
      ghost var before := Snapshot();
      ProtocolLemmas.HandlePreservesInvariant(before, uid, DeleteById(id), now);
      if id.NotAnObjectId? {
        return [DeleteFailed];
      }
      var deletion := FindOneAndDelete(todos, id.id, uid);
      todos := deletion.table;
      sent := [];
      if deletion.deleted.None? {
        sent := sent + [NotFound];
        // no return here: the handler goes on to refresh the cache
      }
      var list := RefreshCache(uid, now);
      sent := sent + [Response(200, Mutation("✅ Todo deleted successfully", list))];
    }

    /** `PUT /:id` (`change` is `SetText`) and `PATCH /:id` (`SetCompleted`). */
    method EditTodo(uid: string, id: IdParam, change: Change, now: int) returns (sent: seq<Response>)
      requires Valid()
      modifies this`todos, this`cache
      ensures Valid()
      ensures Outcome(Snapshot(), sent) == Edit(old(Snapshot()), uid, id, change, now)
    {
      ghost var before := Snapshot();
      if id.NotAnObjectId? {
        return [Response(500, Message(EditError(change)))];
      }
      ProtocolLemmas.EditPreservesInvariant(before, uid, id.id, change, now);
      var update := FindOneAndUpdate(todos, id.id, uid, change);
      todos := update.table;
      sent := [];
      if update.updated.None? {
        sent := sent + [NotFound];
        // no return here: the handler goes on to refresh the cache
      }
      var list := RefreshCache(uid, now);
      sent := sent + [Response(200, Mutation(EditMessage(change), list))];
    }

    /** A protected request: `authMiddleware`, then the route's handler with
        `req.user.uid` if the middleware called `next()`. */
    method Serve(ex: Exchange, route: Route, now: int)
      requires Valid()
      modifies this, ex
      ensures Valid()
      ensures var o := Protocol.Serve(old(Snapshot()), ex.authCookie, verifyJwt, route, now);
        Snapshot() == o.state && ex.sent == old(ex.sent) + o.sent
      ensures ex.nextCalls == old(ex.nextCalls) + (if Decide(ex.authCookie, verifyJwt).Accept? then 1 else 0)
    {
      var calls := ex.nextCalls;
      AuthMiddleware(ex, verifyJwt);
      if ex.nextCalls == calls {
        return;
      }
      var uid := ex.user.value.uid;
      var sent;
      match route {
        case GetRoot => sent := ListTodos(uid, now);
        case PostRoot(todo) => sent := CreateTodo(uid, todo, now);
        case DeleteById(id) => sent := DeleteTodo(uid, id, now);
        case PutById(id, todo) => sent := EditTodo(uid, id, SetText(todo), now);
        case PatchById(id, completed) => sent := EditTodo(uid, id, SetCompleted(completed), now);
      }
      ex.sent := ex.sent + sent;
    }
  }
}
