/**
 * The request gates of the server (farmapp/middleware/auth.js): the
 * authentication gate that takes the session fast path, falls back to a
 * bearer token checked by the JSON Web Token verifier and backfills the
 * session, then the role gates.
 */
module AuthMiddleware {
  import opened Wrappers
  import opened Text
  import opened Web

  /**
   * `jwt.verify(token, JWT_SECRET)`: the decoded claims, or `None` when it
   * throws (bad signature, malformed or expired token). Signature and expiry
   * checking belong to the library and are not modelled.
   */
  type Verifier = string -> Option<Principal>

  const BearerPrefix: string := "Bearer "

  /** `req.header('Authorization') || req.cookies.token`: a non-empty header wins over the cookie. */
  function TokenSource(req: Request): (t: Option<string>)
    ensures req.authorization.Some? && req.authorization.value != "" ==> t == req.authorization
    ensures req.authorization.None? || req.authorization.value == "" ==>
              (t.Some? <==> "token" in req.cookies) && (t.Some? ==> t.value == req.cookies["token"])
  {
    if req.authorization.Some? && req.authorization.value != "" then req.authorization
    else if "token" in req.cookies then Some(req.cookies["token"])
    else None
  }

  /**
   * The string handed to the verifier: the token with its exact 7-character
   * prefix `"Bearer "` removed; a token without that prefix is never verified.
   */
  function BearerCredential(req: Request): (c: Option<string>)
    ensures c.Some? <==> TokenSource(req).Some? && IsPrefix(BearerPrefix, TokenSource(req).value)
    ensures c.Some? ==> TokenSource(req).value == BearerPrefix + c.value
  {
    match TokenSource(req)
    case None => None
    case Some(t) =>
      if IsPrefix(BearerPrefix, t) then
        assert t == t[..|BearerPrefix|] + t[|BearerPrefix|..];
        Some(t[|BearerPrefix|..])
      else None
  }

  /** `req.xhr || req.headers.accept?.includes('application/json')`. */
  predicate WantsJson(req: Request) {
    req.xhr || (req.accept.Some? && Contains(req.accept.value, "application/json"))
  }

  /** The answer to an unauthenticated request, chosen by content negotiation. */
  function Unauthenticated(req: Request): (r: Response)
    ensures r.SendJson? <==> WantsJson(req)
    ensures r.SendJson? ==> r.status == 401 && r.body == JObj([("error", JStr("Unauthorized"))])
    ensures !r.SendJson? ==> r == Redirect(LoginPath)
  {
    if WantsJson(req) then SendJson(401, JObj([("error", JStr("Unauthorized"))]))
    else Redirect(LoginPath)
  }

  /** A gate's decision together with the session's `user` slot afterwards. */
  datatype AuthStep = AuthStep(gate: Gate, sessionUser: Option<Principal>)

  /**
   * `isAuthenticated` as a function of the session's user before the request:
   * a session identity passes untouched; otherwise a verified bearer
   * credential passes and its claims are written into the session; anything
   * else is answered as unauthenticated and the session stays empty.
   */
  function Authenticate(sessionUser: Option<Principal>, req: Request, verify: Verifier): (r: AuthStep)
    ensures sessionUser.Some? ==> r == AuthStep(Next, sessionUser)
    ensures r.gate.Next? ==> r.sessionUser.Some?
    ensures sessionUser.None? ==>
              (r.gate.Next? <==> BearerCredential(req).Some? && verify(BearerCredential(req).value).Some?)
    ensures sessionUser.None? && r.gate.Next? ==> r.sessionUser == verify(BearerCredential(req).value)
    ensures r.gate.Halt? ==> r == AuthStep(Halt(Unauthenticated(req)), None)
  {
    if sessionUser.Some? then AuthStep(Next, sessionUser)
    else match BearerCredential(req)
      case Some(credential) =>
        if verify(credential).Some? then AuthStep(Next, verify(credential))
        else AuthStep(Halt(Unauthenticated(req)), None)
      case None => AuthStep(Halt(Unauthenticated(req)), None)
  }

  /**
   * The middleware itself, on the connection's session. (The code after the
   * final `return` of the source is unreachable and has no counterpart.)
   */
  method IsAuthenticated(conn: Connection, req: Request, verify: Verifier) returns (g: Gate)
    modifies conn`sessionUser
    ensures AuthStep(g, conn.sessionUser) == Authenticate(old(conn.sessionUser), req, verify)
  {
    if conn.sessionUser.Some? {
      return Next;
    }
    var token := TokenSource(req);
    if token.Some? && IsPrefix(BearerPrefix, token.value) {
      var credential := token.value[|BearerPrefix|..];
      var decoded := verify(credential);
      if decoded.Some? {
        conn.sessionUser := decoded;
        return Next;
      }
    }
    return Halt(Unauthenticated(req));
  }

  /** With a user in the session, neither the request's credentials nor the verifier matter. */
  lemma FastPathIgnoresCredentials(u: Principal, req1: Request, v1: Verifier, req2: Request, v2: Verifier)
    ensures Authenticate(Some(u), req1, v1) == Authenticate(Some(u), req2, v2) == AuthStep(Next, Some(u))
  {
  }

  /** A verified token fills the session, so the next request on the connection takes the fast path. */
  lemma BackfillThenFastPath(req: Request, verify: Verifier, next: Request, later: Verifier)
    requires Authenticate(None, req, verify).gate.Next?
    ensures var s := Authenticate(None, req, verify).sessionUser;
            s.Some? && Authenticate(s, next, later) == AuthStep(Next, s)
  {
  }

  predicate IsBase64UrlChar(c: char) {
    ('A' <= c <= 'Z') || ('a' <= c <= 'z') || ('0' <= c <= '9') || c == '-' || c == '_'
  }

  /** The shape of a signed token (JWS compact serialization, RFC 7515 section 7.1): base64url parts joined by dots. */
  predicate IsCompactJws(t: string) {
    forall i :: 0 <= i < |t| ==> IsBase64UrlChar(t[i]) || t[i] == '.'
  }

  /**
   * The token cookie written at login holds the bare signed token, which has
   * no space and so never carries the `"Bearer "` prefix: on its own it never
   * authenticates a request.
   */
  lemma {:induction false} LoginCookieNeverAccepted(req: Request, verify: Verifier)
    requires req.authorization.None? || req.authorization.value == ""
    requires "token" in req.cookies && IsCompactJws(req.cookies["token"])
    ensures Authenticate(None, req, verify) == AuthStep(Halt(Unauthenticated(req)), None)
  {
    var t := req.cookies["token"];
    assert |t| < |BearerPrefix| || t[6] != BearerPrefix[6];
    assert !IsPrefix(BearerPrefix, t);
  }

  /** A request with neither a session identity nor any token is always rejected. */
  lemma NoCredentialsRejected(req: Request, verify: Verifier)
    requires req.authorization.None? && "token" !in req.cookies
    ensures Authenticate(None, req, verify).gate == Halt(Unauthenticated(req))
  {
  }

  const Forbidden: Response :=
    Render(403, "error", "Acceso denegado", "No tiene permisos para acceder a esta sección")

  /** `isAdmin`: passes exactly when `req.user` is present with role `'admin'`; the session is not consulted. */
  function IsAdmin(req: Request): (g: Gate)
    ensures g.Next? <==> req.user.Some? && req.user.value.role == AdminRole
    ensures g.Halt? ==> g.response == Forbidden
  {
    if req.user.Some? && req.user.value.role == AdminRole then Next else Halt(Forbidden)
  }

  /**
   * `hasRole(roles)`: no `req.user` redirects to login; an empty role list
   * admits any user; otherwise exactly the listed roles pass and the others
   * are refused with 403.
   */
  function HasRole(roles: seq<string>, req: Request): (g: Gate)
    ensures req.user.None? ==> g == Halt(Redirect(LoginPath))
    ensures req.user.Some? ==> (g.Next? <==> roles == [] || req.user.value.role in roles)
    ensures req.user.Some? && g.Halt? ==> g.response.Render? && g.response.status == 403
  {
    if req.user.None? then Halt(Redirect(LoginPath))
    else if |roles| > 0 && req.user.value.role !in roles then
      Halt(Render(403, "error", "Acceso denegado", "No tiene permisos suficientes para acceder a este recurso"))
    else Next
  }

  /** A row found by the model's `findByPk`; `userId` is absent when the row has no such column. */
  datatype Item = Item(userId: Option<int>)

  /** `model.findByPk(id)`: the row, `None` when there is none, or an exception. */
  type Finder = Option<string> -> Try<Option<Item>>

  const ServerError: Response :=
    Render(500, "error", "Error del servidor", "Ocurrió un error al verificar los permisos")

  /**
   * `isOwnerOrAdmin(model, idParam)`: an admin passes without a lookup; a
   * missing row gives 404, a row owned by someone else 403, a failed lookup
   * 500. Without `req.user`, reading its role throws inside the `try`, which
   * also gives 500.
   */
  function IsOwnerOrAdmin(findByPk: Finder, idParam: string, req: Request): (g: Gate)
    ensures req.user.None? ==> g == Halt(ServerError)
    ensures req.user.Some? && req.user.value.role == AdminRole ==> g == Next
    ensures req.user.Some? && req.user.value.role != AdminRole ==>
              var found := findByPk(if idParam in req.params then Some(req.params[idParam]) else None);
              && (found.Threw? ==> g == Halt(ServerError))
              && (found == Ok(None) ==> g.Halt? && g.response.Render? && g.response.status == 404)
              && (found.Ok? && found.value.Some? ==>
                    (g.Next? <==> found.value.value.userId == Some(req.user.value.id)))
              && (g.Halt? && found.Ok? && found.value.Some? ==> g.response.Render? && g.response.status == 403)
  {
    if req.user.None? then Halt(ServerError)
    else if req.user.value.role == AdminRole then Next
    else
      var id := if idParam in req.params then Some(req.params[idParam]) else None;
      match findByPk(id)
      case Threw => Halt(ServerError)
      case Ok(None) => Halt(Render(404, "error", "No encontrado", "El recurso solicitado no existe"))
      case Ok(Some(item)) =>
        if item.userId != Some(req.user.value.id) then
          Halt(Render(403, "error", "Acceso denegado", "No tiene permisos para acceder a este recurso"))
        else Next
  }

  /** The result of `verifyToken`: `{success: true, user}` or `{success: false, error}`. */
  datatype TokenCheck = Verified(user: Principal) | Invalid(error: string)

  /** `verifyToken(token)`: succeeds exactly when the verifier accepts the token, with its claims. */
  function VerifyToken(token: string, verify: Verifier): (r: TokenCheck)
    ensures r.Verified? <==> verify(token).Some?
    ensures r.Verified? ==> verify(token) == Some(r.user)
    ensures r.Invalid? ==> r.error == "Token inválido o expirado"
  {
    match verify(token)
    case Some(claims) => Verified(claims)
    case None => Invalid("Token inválido o expirado")
  }

  /** The two gates of this module, as the routers list them. */
  datatype Guard = LoginGuard | AdminGuard

  /** Runs one gate: `isAuthenticated` may fill the session; `isAdmin` leaves it alone. */
  function RunGuard(g: Guard, sessionUser: Option<Principal>, req: Request, verify: Verifier): AuthStep {
    match g
    case LoginGuard => Authenticate(sessionUser, req, verify)
    case AdminGuard => AuthStep(IsAdmin(req), sessionUser)
  }

  /** Runs gates in order and stops at the first that answers the request. */
  function RunGuards(gs: seq<Guard>, sessionUser: Option<Principal>, req: Request, verify: Verifier): AuthStep
    decreases |gs|
  {
    if gs == [] then AuthStep(Next, sessionUser)
    else
      var step := RunGuard(gs[0], sessionUser, req, verify);
      if step.gate.Halt? then step else RunGuards(gs[1..], step.sessionUser, req, verify)
  }
}
