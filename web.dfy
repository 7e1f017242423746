/**
 * The HTTP vocabulary shared by the server-side modules: the identity kept in
 * a session, JSON bodies, responses, the outcome of a middleware gate, the
 * incoming request as the gates see it, and one client connection (its
 * server-side session and the cookies its browser holds).
 */
module Web {
  import opened Wrappers

  /**
   * The identity snapshot `{id, username, fullName, role}` written into
   * `req.session.user` at login and carried as the claims of the login token.
   */
  datatype Principal = Principal(id: int, username: string, fullName: string, role: string)

  const AdminRole: string := "admin"

  const LoginPath: string := "/auth/login"

  datatype Json =
    | JNull
    | JBool(b: bool)
    | JInt(i: int)
    | JStr(s: string)
    | JArr(items: seq<Json>)
    | JObj(fields: seq<(string, Json)>)

  /** JavaScript truthiness of a decoded JSON body value; a missing field reads as `JNull`. */
  predicate Truthy(j: Json) {
    match j
    case JNull => false
    case JBool(b) => b
    case JInt(i) => i != 0
    case JStr(s) => s != ""
    case _ => true
  }

  function PrincipalJson(p: Principal): Json {
    JObj([("id", JInt(p.id)), ("username", JStr(p.username)),
          ("fullName", JStr(p.fullName)), ("role", JStr(p.role))])
  }

  /** `res.redirect(location)`, `res.status(status).json(body)` or `res.status(status).render(view, {title, message})`. */
  datatype Response =
    | Redirect(location: string)
    | SendJson(status: nat, body: Json)
    | Render(status: nat, view: string, title: string, message: string)

  /** What a middleware does with a request: call `next()`, or answer it. */
  datatype Gate = Next | Halt(response: Response)

  datatype Verb = GET | POST | PUT | DELETE

  /**
   * An incoming request: verb and path (as segments below the router's mount
   * point), the `Authorization` header, the `cookies` parsed by cookie-parser,
   * `req.xhr`, the `Accept` header, `req.user` and the route parameters.
   */
  datatype Request = Request(
    verb: Verb,
    path: seq<string>,
    authorization: Option<string>,
    cookies: map<string, string>,
    xhr: bool,
    accept: Option<string>,
    user: Option<Principal>,
    params: map<string, string>)

  /** A cookie as `res.cookie` sets it. */
  datatype Cookie = Cookie(value: string, httpOnly: bool, secure: bool, maxAgeMs: nat)

  /**
   * One client: the `user` slot of its server-side session and the cookies its
   * browser holds (set and cleared by responses).
   */
  class Connection {
    var sessionUser: Option<Principal>
    var cookies: map<string, Cookie>

    constructor ()
      ensures sessionUser == None && cookies == map[]
    {
      sessionUser := None;
      cookies := map[];
    }

    /** The `cookies` object of the next request this browser sends. */
    function CookieValues(): (m: map<string, string>)
      reads this
      ensures m.Keys == cookies.Keys
      ensures forall k :: k in m ==> m[k] == cookies[k].value
    {
      map k | k in cookies :: cookies[k].value
    }
  }
}
