/** The request-handling protocol of `server/server.js`, stated as pure
    transitions over the three stores: each endpoint maps the state before
    the request to the state after it and the responses it sends, in order.
    The class in module Server carries out the same steps imperatively and
    is proved to agree with these functions. */
module Protocol {
  import opened Common
  import opened TodoModel
  import opened SessionModel
  import opened TodoStore
  import opened SessionStore
  import opened Cache
  import opened Http
  import opened Auth

  /** `expiresIn: "7d"`, in seconds. */
  const JwtLifetime: int := 7 * 24 * 60 * 60

  /** What Firebase's `verifyIdToken` yields: the verified identity, or the error message it threw. */
  datatype Identity = Identity(uid: string, email: string)
  datatype IdCheck = Verified(identity: Identity) | Rejected(reason: string)
  type IdVerifier = string -> IdCheck

  /** `jwt.sign(claims, JWT_SECRET, { expiresIn })`, with `expiresIn` in seconds. */
  type JwtSigner = (Claims, int) -> string

  /** `req.params.id` as Mongoose casts it to an ObjectId; a string that is
      not one makes the query throw a CastError. */
  datatype IdParam = ObjectId(id: TodoId) | NotAnObjectId

  /** The protected routes with the body fields each one reads. */
  datatype Route =
    | GetRoot
    | PostRoot(todo: Option<string>)
    | DeleteById(id: IdParam)
    | PutById(id: IdParam, todo: Option<string>)
    | PatchById(id: IdParam, completed: Option<bool>)

  /** The todo collection, the next store-assigned id, the cache and the session collection. */
  datatype State = State(todos: seq<Todo>, nextId: TodoId, cache: Store, sessions: seq<Session>)

  /** The state after a request and the responses its handler sent, in order. */
  datatype Outcome = Outcome(state: State, sent: seq<Response>)

  /** Every cache entry holds exactly its owner's current list. */
  ghost predicate CacheCoherent(todos: seq<Todo>, cache: Store)
  {
    forall u :: CacheKey(u) in cache ==> cache[CacheKey(u)].todos == Find(todos, u)
  }

  /** What every handler keeps: unique ids below the next fresh one, an owner
      on every record, and a coherent cache. */
  ghost predicate Invariant(s: State)
  {
    && UniqueIds(s.todos)
    && (forall t :: t in s.todos ==> t.id < s.nextId && Present(t.owner))
    && CacheCoherent(s.todos, s.cache)
  }

  const Initial: State := State([], 0, map[], [])

  // ---------------------------------------------------------------- login and logout

  const TokenMissing: Response := Response(400, Message("Token missing"))

  function LoginFailure(error: string): Response
  {
    Response(401, LoginFailed("Invalid Firebase token", error))
  }

  /** `POST /login`. `sessionId` is what `crypto.randomUUID()` returned and
      `createError` the error `Session.create` threw, if it did. */
  function Login(s: State, token: Option<string>, verifyIdToken: IdVerifier, signJwt: JwtSigner,
                 sessionId: string, createError: Option<string>, now: int): Outcome
  {
    if !Truthy(token) then Outcome(s, [TokenMissing])
    else match verifyIdToken(token.value)
      case Rejected(reason) => Outcome(s, [LoginFailure(reason)])
      case Verified(id) =>
        var jwt := signJwt(Claims(id.uid, id.email), JwtLifetime);
        if createError.Some? then Outcome(s, [LoginFailure(createError.value)])
        else Outcome(s.(sessions := s.sessions + [NewSession(id.uid, sessionId, now)]),
                     [Response(200, LoginIssued("✅ Cookie created successfully", jwt, sessionId))])
  }

  /** `POST /logout` with body field `session_marker`. */
  function Logout(s: State, marker: string): Outcome
  {
    var d := DeleteOne(s.sessions, marker);
    Outcome(s.(sessions := d.sessions), [Response(200, LoggedOut(d.deletedCount, "✅ Logged out and session cleared"))])
  }

  /** The store's reaper at time `now`: sessions older than two hours are gone. */
  function ReapSessions(s: State, now: int): State
  {
    s.(sessions := Reap(s.sessions, now))
  }

  // ---------------------------------------------------------------- the todo routes

  /** `redis.del(key)`, then `Todo.find({ userId })`, then `redis.set(key, list, { EX: 300 })`. */
  function Refreshed(s: State, uid: string, now: int): State
  {
    s.(cache := Put(Evict(s.cache, CacheKey(uid)), CacheKey(uid), Find(s.todos, uid), now))
  }

  /** `GET /`: the cached list on a hit, without reading the collection;
      otherwise the owner's list, which is then cached. */
  function List(s: State, uid: string, now: int): Outcome
  {
    match Lookup(s.cache, CacheKey(uid), now)
    case Some(todos) => Outcome(s, [Response(200, TodoList(todos))])
    case None =>
      var todos := Find(s.todos, uid);
      Outcome(s.(cache := Put(s.cache, CacheKey(uid), todos, now)), [Response(200, TodoList(todos))])
  }

  const MissingTodo: Response := Response(400, Message("Missing todo or id"))
  const SaveFailed: Response := Response(500, Message("Error saving todo"))
  const DeleteFailed: Response := Response(500, Message("Error deleting todo"))

  /** `POST /` with body field `todo`. */
  function Create(s: State, uid: string, todo: Option<string>, now: int): Outcome
  {
    if !Truthy(todo) then Outcome(s, [MissingTodo])
    else match NewTodo(s.nextId, todo.value, uid, now)
      case Err(_) => Outcome(s, [SaveFailed])
      case Ok(t) =>
        var s' := Refreshed(s.(todos := s.todos + [t], nextId := s.nextId + 1), uid, now);
        Outcome(s', [Response(201, Mutation("✅ Todo added successfully", Find(s'.todos, uid)))])
  }

  const NotFound: Response := Response(404, Message("❌ Todo not found"))

  /** `DELETE /:id`. On not-found it sends 404 and carries on. */
  function Remove(s: State, uid: string, id: IdParam, now: int): Outcome
  {
    match id
    case NotAnObjectId => Outcome(s, [DeleteFailed])
    case ObjectId(i) =>
      var d := FindOneAndDelete(s.todos, i, uid);
      var s' := Refreshed(s.(todos := d.table), uid, now);
      Outcome(s', (if d.deleted.None? then [NotFound] else [])
                  + [Response(200, Mutation("✅ Todo deleted successfully", Find(s'.todos, uid)))])
  }

  /** The success and failure messages of PUT (text) and PATCH (completion). */
  function EditMessage(c: Change): string
  {
    if c.SetText? then "✅ Todo updated successfully" else "✅ Complete status updated successfully"
  }

  function EditError(c: Change): string
  {
    if c.SetText? then "Error updating todo" else "Error in complete-status update"
  }

  /** `PUT /:id` and `PATCH /:id`. On not-found they send 404 and carry on. */
  function Edit(s: State, uid: string, id: IdParam, c: Change, now: int): Outcome
  {
    match id
    case NotAnObjectId => Outcome(s, [Response(500, Message(EditError(c)))])
    case ObjectId(i) =>
      var u := FindOneAndUpdate(s.todos, i, uid, c);
      var s' := Refreshed(s.(todos := u.table), uid, now);
      Outcome(s', (if u.updated.None? then [NotFound] else [])
                  + [Response(200, Mutation(EditMessage(c), Find(s'.todos, uid)))])
  }

  /** The handler of `route` for the user whose `uid` the middleware attached. */
  function Handle(s: State, uid: string, route: Route, now: int): Outcome
  {
    match route
    case GetRoot => List(s, uid, now)
    case PostRoot(todo) => Create(s, uid, todo, now)
    case DeleteById(id) => Remove(s, uid, id, now)
    case PutById(id, todo) => Edit(s, uid, id, SetText(todo), now)
    case PatchById(id, completed) => Edit(s, uid, id, SetCompleted(completed), now)
  }

  /** A protected request: the middleware, then the handler if it called `next()`. */
  function Serve(s: State, cookie: Option<string>, verifyJwt: JwtVerifier, route: Route, now: int): Outcome
  {
    match Decide(cookie, verifyJwt)
    case Reject(r) => Outcome(s, [r])
    case Accept(user) => Handle(s, user.uid, route, now)
  }

  /** Whether a mutating request gets past validation and the id cast to
      its final response. */
  predicate ReachesFinal(uid: string, route: Route)
  {
    match route
    case GetRoot => false
    case PostRoot(todo) => Truthy(todo) && Present(uid)
    case DeleteById(id) => id.ObjectId?
    case PutById(id, _) => id.ObjectId?
    case PatchById(id, _) => id.ObjectId?
  }
}
