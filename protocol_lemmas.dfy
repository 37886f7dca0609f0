/** What the protocol of `server/server.js` guarantees, proved over the
    transitions of module Protocol. */
module ProtocolLemmas {
  import opened Common
  import opened TodoModel
  import opened SessionModel
  import opened TodoStore
  import opened SessionStore
  import opened Cache
  import opened Http
  import opened Auth
  import opened Protocol

  /** The final response of a handler: the one that carries the list. */
  function Last(sent: seq<Response>): Response
    requires sent != []
  {
    sent[|sent| - 1]
  }

  // ---------------------------------------------------------------- ownership

  /** A handler for `uid` leaves every other owner's list as it was. */
  lemma {:induction false} OthersUnchanged(s: State, uid: string, route: Route, now: int, other: string)
    requires other != uid
    ensures Find(Handle(s, uid, route, now).state.todos, other) == Find(s.todos, other)
  {
    match route
    case GetRoot =>
    case PostRoot(todo) =>
      if Truthy(todo) && NewTodo(s.nextId, todo.value, uid, now).Ok? {
        FindAppend(s.todos, NewTodo(s.nextId, todo.value, uid, now).todo, other);
      }
    case DeleteById(id) =>
      if id.ObjectId? { DeleteIsolation(s.todos, id.id, uid, other); }
    case PutById(id, todo) =>
      if id.ObjectId? { UpdateIsolation(s.todos, id.id, uid, SetText(todo), other); }
    case PatchById(id, completed) =>
      if id.ObjectId? { UpdateIsolation(s.todos, id.id, uid, SetCompleted(completed), other); }
  }

  /** Ownership isolation: a request made as `uid` never changes, deletes or
      adds a record of another owner, never touches another owner's cache
      entry, and never touches the session table. */
  lemma HandleIsolatesOwners(s: State, uid: string, route: Route, now: int)
    ensures var s' := Handle(s, uid, route, now).state;
      && (forall t :: t in s.todos && t.owner != uid ==> t in s'.todos)
      && (forall t :: t in s'.todos && t.owner != uid ==> t in s.todos)
      && (forall v :: v != uid ==> Find(s'.todos, v) == Find(s.todos, v))
      && (forall v :: v != uid ==> (CacheKey(v) in s'.cache <==> CacheKey(v) in s.cache))
      && (forall v :: v != uid && CacheKey(v) in s.cache ==> s'.cache[CacheKey(v)] == s.cache[CacheKey(v)])
      && s'.sessions == s.sessions
  {
    var s' := Handle(s, uid, route, now).state;
    forall v | v != uid ensures Find(s'.todos, v) == Find(s.todos, v) {
      OthersUnchanged(s, uid, route, now, v);
    }
    forall t | t in s.todos && t.owner != uid ensures t in s'.todos {
      assert t in Find(s.todos, t.owner);
    }
    forall t | t in s'.todos && t.owner != uid ensures t in s.todos {
      assert t in Find(s'.todos, t.owner);
    }
    forall v | v != uid ensures CacheKey(v) in s'.cache <==> CacheKey(v) in s.cache {
      CacheKeyInjective(v, uid);
    }
    forall v | v != uid && CacheKey(v) in s.cache ensures s'.cache[CacheKey(v)] == s.cache[CacheKey(v)] {
      CacheKeyInjective(v, uid);
    }
  }

  // ---------------------------------------------------------------- the invariant

  /** Refreshing `uid`'s entry after a change that left every other owner's
      list alone makes the whole cache coherent again. */
  lemma RefreshRestoresCoherence(s: State, todos: seq<Todo>, uid: string, now: int)
    requires CacheCoherent(s.todos, s.cache)
    requires forall v :: v != uid ==> Find(todos, v) == Find(s.todos, v)
    ensures CacheCoherent(todos, Refreshed(s.(todos := todos), uid, now).cache)
  {
    var c := Refreshed(s.(todos := todos), uid, now).cache;
    forall u | CacheKey(u) in c ensures c[CacheKey(u)].todos == Find(todos, u) {
      if u != uid {
        CacheKeyInjective(u, uid);
      }
    }
  }

  /** Every handler keeps the invariant; in particular, under sequential
      requests every cache entry equals its owner's current list. */
  lemma HandlePreservesInvariant(s: State, uid: string, route: Route, now: int)
    requires Invariant(s)
    ensures Invariant(Handle(s, uid, route, now).state)
  {
    match route
    case GetRoot => ListPreservesInvariant(s, uid, now);
    case PostRoot(todo) => CreatePreservesInvariant(s, uid, todo, now);
    case DeleteById(id) =>
      if id.ObjectId? { RemovePreservesInvariant(s, uid, id.id, now); }
    case PutById(id, todo) =>
      if id.ObjectId? { EditPreservesInvariant(s, uid, id.id, SetText(todo), now); }
    case PatchById(id, completed) =>
      if id.ObjectId? { EditPreservesInvariant(s, uid, id.id, SetCompleted(completed), now); }
  }

  lemma ListPreservesInvariant(s: State, uid: string, now: int)
    requires Invariant(s)
    ensures Invariant(List(s, uid, now).state)
  {
    var s' := List(s, uid, now).state;
    forall u | CacheKey(u) in s'.cache ensures s'.cache[CacheKey(u)].todos == Find(s'.todos, u) {
      if u != uid { CacheKeyInjective(u, uid); }
    }
  }

  lemma CreatePreservesInvariant(s: State, uid: string, todo: Option<string>, now: int)
    requires Invariant(s)
    ensures Invariant(Create(s, uid, todo, now).state)
  {
    if Truthy(todo) && NewTodo(s.nextId, todo.value, uid, now).Ok? {
      var t := NewTodo(s.nextId, todo.value, uid, now).todo;
      var table := s.todos + [t];
      forall v | v != uid ensures Find(table, v) == Find(s.todos, v) {
        FindAppend(s.todos, t, v);
      }
      assert forall i :: 0 <= i < |s.todos| ==> table[i] == s.todos[i] && s.todos[i] in s.todos;
      RefreshRestoresCoherence(s, table, uid, now);
    }
  }

  lemma RemovePreservesInvariant(s: State, uid: string, i: TodoId, now: int)
    requires Invariant(s)
    ensures Invariant(Remove(s, uid, ObjectId(i), now).state)
  {
    var d := FindOneAndDelete(s.todos, i, uid);
    forall v | v != uid ensures Find(d.table, v) == Find(s.todos, v) {
      DeleteIsolation(s.todos, i, uid, v);
    }
    DeleteKeepsIdsUnique(s.todos, i, uid);
    forall t | t in d.table ensures t in s.todos {
      assert t in multiset(d.table);
    }
    RefreshRestoresCoherence(s, d.table, uid, now);
  }

  lemma EditPreservesInvariant(s: State, uid: string, i: TodoId, c: Change, now: int)
    requires Invariant(s)
    ensures Invariant(Edit(s, uid, ObjectId(i), c, now).state)
  {
    var u := FindOneAndUpdate(s.todos, i, uid, c);
    forall v | v != uid ensures Find(u.table, v) == Find(s.todos, v) {
      UpdateIsolation(s.todos, i, uid, c, v);
    }
    forall t | t in u.table ensures t.id < s.nextId && Present(t.owner) {
      var j :| 0 <= j < |u.table| && u.table[j] == t;
      assert s.todos[j] in s.todos;
    }
    assert forall j :: 0 <= j < |u.table| ==> u.table[j].id == s.todos[j].id;
    RefreshRestoresCoherence(s, u.table, uid, now);
  }

  // ---------------------------------------------------------------- the handler steps

  /** Validation before side effects: a POST with a falsy `todo` answers 400,
      and a POST whose record fails the schema or a request whose `:id` is
      not an ObjectId answers 500; none of them changes anything. */
  lemma RejectedRequestsChangeNothing(s: State, uid: string, route: Route, now: int)
    requires !route.GetRoot? && !ReachesFinal(uid, route)
    ensures var o := Handle(s, uid, route, now);
      && o.state == s && |o.sent| == 1
      && o.sent[0].status == (if route.PostRoot? && !Truthy(route.todo) then 400 else 500)
  {
  }

  /** Cache coherence after a mutation: once a POST, PUT, PATCH or DELETE
      reaches its final response, the owner's cache entry and the returned
      `todos` both equal the owner's list in the new collection, and the
      entry is fresh for another 300 seconds. */
  lemma MutationRefreshesOwnerCache(s: State, uid: string, route: Route, now: int)
    requires ReachesFinal(uid, route)
    ensures var o := Handle(s, uid, route, now);
      && o.sent != [] && Last(o.sent).body.Mutation?
      && Last(o.sent).status == (if route.PostRoot? then 201 else 200)
      && Last(o.sent).body.todos == Find(o.state.todos, uid)
      && CacheKey(uid) in o.state.cache
      && o.state.cache[CacheKey(uid)] == Entry(Find(o.state.todos, uid), now + CacheTtl)
  {
  }

  /** A POST that passes validation appends exactly one record, with the
      given text, owner `uid`, `completed` false, the next id and the current
      time, and answers 201 with the owner's old list followed by it. */
  lemma CreateAppendsRecord(s: State, uid: string, text: string, now: int)
    requires text != "" && uid != ""
    ensures var t := Todo(s.nextId, text, false, uid, now);
      var o := Create(s, uid, Some(text), now);
      && o.state.todos == s.todos + [t]
      && o.state.nextId == s.nextId + 1
      && o.state.sessions == s.sessions
      && o.sent == [Response(201, Mutation("✅ Todo added successfully", Find(s.todos, uid) + [t]))]
      && o.state.cache == s.cache[CacheKey(uid) := Entry(Find(s.todos, uid) + [t], now + CacheTtl)]
  {
    FindAppend(s.todos, Todo(s.nextId, text, false, uid, now), uid);
  }

  /** The handler carries on after not-found: PUT, PATCH and DELETE on an id
      the caller does not own send 404, leave the collection as it was, and
      still rewrite the cache entry and send 200 with the unchanged list. */
  lemma NotFoundStillRefreshes(s: State, uid: string, route: Route, now: int)
    requires route.DeleteById? || route.PutById? || route.PatchById?
    requires route.id.ObjectId? && forall t :: t in s.todos ==> !Matches(t, route.id.id, uid)
    ensures var o := Handle(s, uid, route, now);
      && o.state.todos == s.todos
      && |o.sent| == 2 && o.sent[0] == NotFound
      && o.sent[1].status == 200 && o.sent[1].body.Mutation? && o.sent[1].body.todos == Find(s.todos, uid)
      && CacheKey(uid) in o.state.cache
      && o.state.cache[CacheKey(uid)] == Entry(Find(s.todos, uid), now + CacheTtl)
  {
  }

  /** A successful DELETE drops exactly the record with that id from the
      owner's list. */
  lemma DeleteDropsRecord(s: State, uid: string, i: TodoId, now: int)
    requires Invariant(s)
    requires exists t :: t in s.todos && Matches(t, i, uid)
    ensures var o := Remove(s, uid, ObjectId(i), now);
      && |o.sent| == 1 && o.sent[0].status == 200
      && (forall t :: t in o.sent[0].body.todos <==> t in Find(s.todos, uid) && t.id != i)
      && var L := Find(s.todos, uid);
         exists j :: 0 <= j < |L| && L[j].id == i && o.sent[0].body.todos == L[..j] + L[j + 1..]
  {
    var d := FindOneAndDelete(s.todos, i, uid);
    DeleteFromOwnerList(s.todos, i, uid);
    var k := FirstMatch(s.todos, i, uid).value;
    DeleteKeepsOrder(s.todos, i, uid);
    forall t | t in Find(s.todos, uid) && t != d.deleted.value ensures t.id != i {
      var j :| 0 <= j < |s.todos| && s.todos[j] == t;
      assert j != k;
    }
  }

  /** A successful PUT or PATCH changes exactly the record with that id and
      owner, and only the one field its update document names. */
  lemma EditTouchesOneRecord(s: State, uid: string, i: TodoId, c: Change, now: int)
    requires Invariant(s)
    ensures var o := Edit(s, uid, ObjectId(i), c, now);
      && |o.state.todos| == |s.todos|
      && forall j :: 0 <= j < |s.todos| ==>
           o.state.todos[j] == (if Matches(s.todos[j], i, uid) then Apply(s.todos[j], c) else s.todos[j])
    ensures var o := Edit(s, uid, ObjectId(i), c, now);
      (exists t :: t in s.todos && Matches(t, i, uid)) ==>
        o.sent == [Response(200, Mutation(EditMessage(c), Find(o.state.todos, uid)))]
  {
    var u := FindOneAndUpdate(s.todos, i, uid, c);
    var m := FirstMatch(s.todos, i, uid);
    if m.Some? {
      forall j | 0 <= j < |s.todos| && Matches(s.todos[j], i, uid) ensures j == m.value {
      }
    }
  }

  /** `GET /` always answers with the owner's current list: on a hit the
      coherent cache already holds it, and the hit leaves every store alone. */
  lemma ListServesCurrentList(s: State, uid: string, now: int)
    requires CacheCoherent(s.todos, s.cache)
    ensures List(s, uid, now).sent == [Response(200, TodoList(Find(s.todos, uid)))]
    ensures Lookup(s.cache, CacheKey(uid), now).Some? ==> List(s, uid, now).state == s
    ensures Lookup(s.cache, CacheKey(uid), now).None? ==>
      List(s, uid, now).state == s.(cache := s.cache[CacheKey(uid) := Entry(Find(s.todos, uid), now + CacheTtl)])
  {
  }

  // ---------------------------------------------------------------- sessions

  /** `POST /login`: a falsy token is 400 and a failed verification or
      session write is 401, none of which adds a session or hands out a JWT;
      otherwise exactly one session record with the verified uid and the
      fresh marker is added, and the answer carries that marker and a JWT
      signed over `{ uid, email }` for seven days. */
  lemma LoginOutcomes(s: State, token: Option<string>, verifyIdToken: IdVerifier, signJwt: JwtSigner,
                      sessionId: string, createError: Option<string>, now: int)
    ensures var o := Login(s, token, verifyIdToken, signJwt, sessionId, createError, now);
      && |o.sent| == 1
      && (o.sent[0].status == 200 <==>
            Truthy(token) && verifyIdToken(token.value).Verified? && createError.None?)
      && (!Truthy(token) ==> o.sent[0] == TokenMissing)
      && (o.sent[0].status != 200 ==>
            o.state == s && !o.sent[0].body.LoginIssued? && o.sent[0].status == (if Truthy(token) then 401 else 400))
  {
  }

  lemma LoginAddsOneSession(s: State, token: Option<string>, verifyIdToken: IdVerifier, signJwt: JwtSigner,
                            sessionId: string, now: int)
    requires Truthy(token) && verifyIdToken(token.value).Verified?
    ensures var id := verifyIdToken(token.value).identity;
      var o := Login(s, token, verifyIdToken, signJwt, sessionId, None, now);
      && o.sent == [Response(200, LoginIssued("✅ Cookie created successfully",
                                               signJwt(Claims(id.uid, id.email), JwtLifetime), sessionId))]
      && |o.state.sessions| == |s.sessions| + 1
      && Count(o.state.sessions, sessionId) == Count(s.sessions, sessionId) + 1
      && (forall m :: m != sessionId ==> Count(o.state.sessions, m) == Count(s.sessions, m))
      && o.state.sessions == s.sessions + [Session(id.uid, sessionId, now)]
      && o.state.todos == s.todos && o.state.cache == s.cache
  {
    var id := verifyIdToken(token.value).identity;
    var rec := NewSession(id.uid, sessionId, now);
    CountAppend(s.sessions, rec, sessionId);
    forall m | m != sessionId
      ensures Count(s.sessions + [rec], m) == Count(s.sessions, m)
    {
      CountAppend(s.sessions, rec, m);
    }
  }

  /** `POST /logout` always answers 200 and removes at most one record, one
      that carries the marker; with at most one such record, a second logout
      with the same marker removes nothing. */
  lemma LogoutIdempotent(s: State, marker: string)
    requires Count(s.sessions, marker) <= 1
    ensures var once := Logout(s, marker);
      && once.sent[0].status == 200
      && Count(once.state.sessions, marker) == 0
      && Logout(once.state, marker) == Outcome(once.state, [Response(200, LoggedOut(0, "✅ Logged out and session cleared"))])
  {
    DeleteOneTwice(s.sessions, marker);
  }

  /** `sessionId` is not unique: when two records share a marker, each
      logout removes one of them. */
  lemma LogoutRemovesOneOfDuplicates(s: State, marker: string)
    requires Count(s.sessions, marker) >= 2
    ensures var once := Logout(s, marker);
      && once.sent[0].status == 200
      && Count(once.state.sessions, marker) == Count(s.sessions, marker) - 1
      && Logout(once.state, marker).sent[0].body.deletedCount == 1
  {
  }

  /** A protected request behaves the same whatever the session table holds:
      the middleware reads only the cookie and the JWT secret. */
  lemma SessionsNeverConsulted(s: State, sessions: seq<Session>, cookie: Option<string>,
                               verifyJwt: JwtVerifier, route: Route, now: int)
    ensures var o := Serve(s, cookie, verifyJwt, route, now);
      Serve(s.(sessions := sessions), cookie, verifyJwt, route, now) == Outcome(o.state.(sessions := sessions), o.sent)
  {
  }

  /** Logout does not revoke a JWT: after any logout, every protected request
      gets the same answers it would have got before. */
  lemma LogoutDoesNotRevoke(s: State, marker: string, cookie: Option<string>,
                            verifyJwt: JwtVerifier, route: Route, now: int)
    ensures Serve(Logout(s, marker).state, cookie, verifyJwt, route, now).sent
         == Serve(s, cookie, verifyJwt, route, now).sent
  {
    SessionsNeverConsulted(s, Logout(s, marker).state.sessions, cookie, verifyJwt, route, now);
  }

  /** Authentication failures short-circuit: a rejected request gets one 401
      and no store is touched. */
  lemma UnauthenticatedRequestsChangeNothing(s: State, cookie: Option<string>,
                                             verifyJwt: JwtVerifier, route: Route, now: int)
    requires Decide(cookie, verifyJwt).Reject?
    ensures var o := Serve(s, cookie, verifyJwt, route, now);
      o.state == s && |o.sent| == 1 && o.sent[0].status == 401
  {
  }

  /** `POST /logout` removes only a record carrying the marker: every
      other session survives with its multiplicity, and nothing is added. */
  lemma LogoutKeepsOtherSessions(s: State, marker: string)
    ensures var once := Logout(s, marker);
      && once.sent[0].status == 200
      && multiset(once.state.sessions) <= multiset(s.sessions)
      && (forall r: Session :: r.sessionId != marker ==> multiset(once.state.sessions)[r] == multiset(s.sessions)[r])
      && once.state.todos == s.todos && once.state.cache == s.cache
  {
    DeleteOneKeepsOthers(s.sessions, marker);
  }
}
