/** Client-side runs of the server, showing what its contracts let a caller
    conclude about whole request sequences. */
module Scenarios {
  import opened Common
  import opened TodoModel
  import opened TodoStore
  import opened Cache
  import opened SessionModel
  import opened Http
  import opened Auth
  import opened Protocol
  import opened Server

  /** A signed-in user adds "buy milk" and marks it done; the list each
      answer carries and the cache entry follow each step. */
  method AddAndComplete(server: TodoServer, jwt: string, user: Claims, now: int)
    returns (created: seq<Response>, completed: seq<Response>)
    requires server.Valid() && server.todos == [] && server.nextId == 0 && user.uid != ""
    requires Decide(Some(jwt), server.verifyJwt) == Accept(user)
    modifies server
    ensures server.Valid() && server.sessions == old(server.sessions)
    ensures server.todos == [Todo(0, "buy milk", true, user.uid, now)]
    ensures CacheKey(user.uid) in server.cache
    ensures server.cache[CacheKey(user.uid)] == Entry(server.todos, now + CacheTtl)
    ensures created == [Response(201, Mutation("✅ Todo added successfully", [Todo(0, "buy milk", false, user.uid, now)]))]
    ensures completed == [Response(200, Mutation("✅ Complete status updated successfully", server.todos))]
  {
    var ex := new Exchange(Some(jwt));
    server.Serve(ex, PostRoot(Some("buy milk")), now);
    created := ex.sent;
    var milk := Todo(0, "buy milk", false, user.uid, now);
    assert server.todos == [milk];
    assert Find(server.todos, user.uid) == [milk];
    assert FirstMatch(server.todos, 0, user.uid) == Some(0);

    ex := new Exchange(Some(jwt));
    server.Serve(ex, PatchById(ObjectId(0), Some(true)), now);
    completed := ex.sent;
    var done := milk.(completed := true);
    assert server.todos == [done];
    assert Find(server.todos, user.uid) == [done];
  }

  /** Log in, add "buy milk", mark it done, log out, then list again with
      the same JWT cookie: the list is still served, because logging out
      deletes the session record and the middleware never looks at it. */
  method LogoutThenList(verifyIdToken: IdVerifier, signJwt: JwtSigner, verifyJwt: JwtVerifier,
                        idToken: string, marker: string, now: int)
    returns (login: seq<Response>, logout: seq<Response>, afterLogout: seq<Response>)
    requires idToken != "" && verifyIdToken(idToken).Verified?
    requires var id := verifyIdToken(idToken).identity;
      && id.uid != ""
      && signJwt(Claims(id.uid, id.email), JwtLifetime) != ""
      && verifyJwt(signJwt(Claims(id.uid, id.email), JwtLifetime)) == Some(Claims(id.uid, id.email))
    ensures var id := verifyIdToken(idToken).identity;
      && login == [Response(200, LoginIssued("✅ Cookie created successfully",
                                             signJwt(Claims(id.uid, id.email), JwtLifetime), marker))]
      && logout == [Response(200, LoggedOut(1, "✅ Logged out and session cleared"))]
      && afterLogout == [Response(200, TodoList([Todo(0, "buy milk", true, id.uid, now)]))]
  {
    var server := new TodoServer(verifyIdToken, signJwt, verifyJwt);
    var id := verifyIdToken(idToken).identity;
    var user := Claims(id.uid, id.email);
    login := server.Login(Some(idToken), marker, None, now);
    var jwt := login[0].body.jwt;
    assert server.sessions == [Session(id.uid, marker, now)];

    var created, completed := AddAndComplete(server, jwt, user, now);

    logout := server.Logout(marker);

    var ex := new Exchange(Some(jwt));
    server.Serve(ex, GetRoot, now);
    afterLogout := ex.sent;
  }

  /** Bob edits the id of Alice's todo: the owner-scoped filter finds
      nothing, so Bob gets a 404 followed by a 200 with his own (empty)
      list, and Alice's record is unchanged. */
  method EditForeignTodo(alice: string, bob: string, now: int)
    returns (sent: seq<Response>, aliceList: seq<Response>)
    requires alice != bob && alice != "" && bob != ""
    ensures sent == [NotFound, Response(200, Mutation("✅ Todo updated successfully", []))]
    ensures aliceList == [Response(200, TodoList([Todo(0, "buy milk", false, alice, now)]))]
  {
    var server := new TodoServer(_ => Rejected("no identity provider"), (_, _) => "", _ => None);
    var created := server.CreateTodo(alice, Some("buy milk"), now);
    var milk := Todo(0, "buy milk", false, alice, now);
    assert server.todos == [milk];
    assert FirstMatch(server.todos, 0, bob) == None;
    sent := server.EditTodo(bob, ObjectId(0), SetText(Some("mine now")), now);
    assert server.todos == [milk];
    assert Find(server.todos, alice) == [milk];
    aliceList := server.ListTodos(alice, now);
  }

  /** The schema requires non-empty text, but `findOneAndUpdate` runs no
      validators: a PUT with an empty `todo` stores the empty text, while a
      POST with it is refused with 400. */
  method EmptyTextThroughPut(uid: string, now: int)
    returns (post: seq<Response>, put: seq<Response>)
    requires uid != ""
    ensures post == [MissingTodo]
    ensures put == [Response(200, Mutation("✅ Todo updated successfully", [Todo(0, "", false, uid, now)]))]
  {
    var server := new TodoServer(_ => Rejected("no identity provider"), (_, _) => "", _ => None);
    post := server.CreateTodo(uid, Some(""), now);
    var created := server.CreateTodo(uid, Some("buy milk"), now);
    assert server.todos == [Todo(0, "buy milk", false, uid, now)];
    assert FirstMatch(server.todos, 0, uid) == Some(0);
    put := server.EditTodo(uid, ObjectId(0), SetText(Some("")), now);
    assert server.todos == [Todo(0, "", false, uid, now)];
    assert Find(server.todos, uid) == [Todo(0, "", false, uid, now)];
    assert EditMessage(SetText(Some(""))) == "✅ Todo updated successfully";
  }
}
