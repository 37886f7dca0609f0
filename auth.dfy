/** The gate in front of every todo route (`server/middlewares/authMiddleware.js`):
    it reads the `auth_token` cookie, verifies it as a JWT with the server's
    secret, and either answers 401 or attaches the claims to `req.user` and
    calls `next()`. Neither the session table nor any header is consulted. */
module Auth {
  import opened Common
  import opened Http

  /** The claims the server signs into its JWT and `jwt.verify` gives back. */
  datatype Claims = Claims(uid: string, email: string)

  /** `jwt.verify(token, JWT_SECRET)` at the moment of the call: the decoded
      claims, or failure (bad signature, expired, malformed). */
  type JwtVerifier = string -> Option<Claims>

  const Unauthorized: Response := Response(401, Message("Unauthorized"))
  const InvalidCookie: Response := Response(401, Message("Invalid cookie"))

  datatype Decision = Accept(user: Claims) | Reject(response: Response)

  /** The middleware's decision, from the cookie and the verifier alone. */
  function Decide(cookie: Option<string>, verify: JwtVerifier): (d: Decision)
    ensures d.Accept? <==> Truthy(cookie) && verify(cookie.value).Some?
    ensures d.Accept? ==> Some(d.user) == verify(cookie.value)
    ensures !Truthy(cookie) ==> d == Reject(Unauthorized)
    ensures Truthy(cookie) && verify(cookie.value).None? ==> d == Reject(InvalidCookie)
  {
    if !Truthy(cookie) then Reject(Unauthorized)
    else match verify(cookie.value)
      case None => Reject(InvalidCookie)
      case Some(claims) => Accept(claims)
  }

  /** One request/response pair as the middleware sees it. */
  class Exchange {
    /** `req.cookies.auth_token`. */
    const authCookie: Option<string>
    /** `req.user`. */
    var user: Option<Claims>
    /** Every `res.status(...).json(...)` made on this exchange, in order. */
    var sent: seq<Response>
    /** How many times `next()` has been called. */
    var nextCalls: nat

    constructor (authCookie: Option<string>)
      ensures this.authCookie == authCookie
      ensures user == None && sent == [] && nextCalls == 0
    {
      this.authCookie := authCookie;
      user := None;
      sent := [];
      nextCalls := 0;
    }
  }

  /** `authMiddleware(req, res, next)`: exactly one of a 401 response or a
      call of `next()` with `req.user` set to the decoded claims. */
  method AuthMiddleware(ex: Exchange, verify: JwtVerifier)
    modifies ex
    ensures Decide(ex.authCookie, verify).Reject? ==>
      ex.sent == old(ex.sent) + [Decide(ex.authCookie, verify).response]
      && ex.nextCalls == old(ex.nextCalls) && ex.user == old(ex.user)
    ensures Decide(ex.authCookie, verify).Accept? ==>
      ex.user == Some(Decide(ex.authCookie, verify).user)
      && ex.nextCalls == old(ex.nextCalls) + 1 && ex.sent == old(ex.sent)
    ensures (ex.nextCalls == old(ex.nextCalls) + 1) != (|ex.sent| == |old(ex.sent)| + 1)
  {
    var token := ex.authCookie;
    if !Truthy(token) {
      ex.sent := ex.sent + [Unauthorized];
      return;
    }
    var decoded := verify(token.value);
    if decoded.None? {
      ex.sent := ex.sent + [InvalidCookie];
      return;
    }
    ex.user := decoded;
    ex.nextCalls := ex.nextCalls + 1;
  }
}
