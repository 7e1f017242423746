/**
 * The sign-in and sign-out handlers of the web front end
 * (farmapp/controllers/authController.js) and the sign-in sequence it shares
 * with the JSON login of farmapp/routes/api.js: look the user up, check the
 * password, sign a token, write the session and set the token cookie.
 */
module AuthController {
  import opened Wrappers
  import opened Web

  /** `req.body.username` and `req.body.password`; either may be missing. */
  datatype Credentials = Credentials(username: Option<string>, password: Option<string>)

  /** A row of the `users` table, as far as sign-in reads it. */
  datatype UserRow = UserRow(id: int, username: string, passwordHash: string, fullName: string, role: string)

  /** `SELECT * FROM users WHERE username = ?`: the matching rows, or an exception. */
  type UserQuery = Option<string> -> Try<seq<UserRow>>

  /** `bcrypt.compare(password, hash)`: whether they match, or an exception. */
  type PasswordCheck = (Option<string>, string) -> Try<bool>

  /** `jwt.sign(claims, JWT_SECRET, {expiresIn})`: the signed token, or an exception. */
  type Signer = Principal -> Try<string>

  /** The snapshot `{id, username, fullName: full_name, role}` used for the session, the claims and the JSON reply. */
  function Snapshot(u: UserRow): Principal {
    Principal(u.id, u.username, u.fullName, u.role)
  }

  /** How a sign-in attempt ends. */
  datatype LoginOutcome =
    | NoSuchUser
    | WrongPassword
    | LoggedIn(user: Principal, token: string)
    | Crashed

  /**
   * The decision of a sign-in attempt: the first matching row is checked; it
   * succeeds exactly when the lookup, the password check and the signing all
   * go through and the password matches, and then the identity and the token
   * claims are that row's snapshot. An exception at any step is a crash.
   */
  function Attempt(c: Credentials, users: UserQuery, compare: PasswordCheck, sign: Signer): (o: LoginOutcome)
    ensures o == NoSuchUser <==> users(c.username) == Ok([])
    ensures o == WrongPassword <==>
              users(c.username).Ok? && users(c.username).value != [] &&
              compare(c.password, users(c.username).value[0].passwordHash) == Ok(false)
    ensures o.LoggedIn? <==>
              users(c.username).Ok? && users(c.username).value != [] &&
              compare(c.password, users(c.username).value[0].passwordHash) == Ok(true) &&
              sign(Snapshot(users(c.username).value[0])).Ok?
    ensures o.LoggedIn? ==>
              o.user == Snapshot(users(c.username).value[0]) && sign(o.user) == Ok(o.token)
  {
    match users(c.username)
    case Threw => Crashed
    case Ok(rows) =>
      if rows == [] then NoSuchUser
      else match compare(c.password, rows[0].passwordHash)
        case Threw => Crashed
        case Ok(isMatch) =>
          if !isMatch then WrongPassword
          else match sign(Snapshot(rows[0]))
            case Threw => Crashed
            case Ok(token) => LoggedIn(Snapshot(rows[0]), token)
  }

  /** 24 * 60 * 60 * 1000: one day, in milliseconds. */
  const OneDayMs: nat := 86400000

  /** The `token` cookie: httpOnly, secure in production, one day long. */
  function TokenCookie(token: string, production: bool): Cookie {
    Cookie(token, true, production, OneDayMs)
  }

  /**
   * The sign-in sequence on a connection. Only a successful attempt writes
   * the session and sets the `token` cookie; both failures and every
   * exception return before either write.
   */
  method SignIn(conn: Connection, c: Credentials, users: UserQuery, compare: PasswordCheck, sign: Signer,
                production: bool) returns (o: LoginOutcome)
    modifies conn
    ensures o == Attempt(c, users, compare, sign)
    ensures o.LoggedIn? ==>
              conn.sessionUser == Some(o.user) &&
              conn.cookies == old(conn.cookies)["token" := TokenCookie(o.token, production)]
    ensures !o.LoggedIn? ==> conn.sessionUser == old(conn.sessionUser) && conn.cookies == old(conn.cookies)
  {
    var found := users(c.username);
    if found.Threw? {
      return Crashed;
    }
    if found.value == [] {
      return NoSuchUser;
    }
    var user := found.value[0];
    var isMatch := compare(c.password, user.passwordHash);
    if isMatch.Threw? {
      return Crashed;
    }
    if !isMatch.value {
      return WrongPassword;
    }
    var token := sign(Snapshot(user));
    if token.Threw? {
      return Crashed;
    }
    conn.sessionUser := Some(Snapshot(user));
    conn.cookies := conn.cookies["token" := TokenCookie(token.value, production)];
    return LoggedIn(Snapshot(user), token.value);
  }

  const BadCredentialsLocation: string := "/auth/login?error=Usuario o contraseña incorrectos"

  /** The page the web login answers with for each outcome. */
  function LoginReply(o: LoginOutcome): Response {
    match o
    case NoSuchUser => Redirect(BadCredentialsLocation)
    case WrongPassword => Redirect(BadCredentialsLocation)
    case LoggedIn(user, _) => Redirect(if user.role == AdminRole then "/dashboard" else "/sales/pos")
    case Crashed => Render(500, "error", "Error", "Error al iniciar sesión. Por favor, intente nuevamente.")
  }

  /** `login`: the shared sign-in, answered with a redirect or the error page. */
  method Login(conn: Connection, c: Credentials, users: UserQuery, compare: PasswordCheck, sign: Signer,
               production: bool) returns (r: Response)
    modifies conn
    ensures var o := Attempt(c, users, compare, sign);
            && r == LoginReply(o)
            && (o.LoggedIn? ==>
                  conn.sessionUser == Some(o.user) &&
                  conn.cookies == old(conn.cookies)["token" := TokenCookie(o.token, production)])
            && (!o.LoggedIn? ==> conn.sessionUser == old(conn.sessionUser) && conn.cookies == old(conn.cookies))
  {
    var o := SignIn(conn, c, users, compare, sign, production);
    r := LoginReply(o);
  }

  /**
   * An unknown user and a wrong password are answered identically, so the
   * reply does not tell which one it was.
   */
  lemma BadCredentialsIndistinguishable()
    ensures LoginReply(NoSuchUser) == LoginReply(WrongPassword) == Redirect(BadCredentialsLocation)
  {
  }

  /** After a successful web login, admins land on the dashboard and every other role on the point of sale. */
  lemma LoginLanding(c: Credentials, users: UserQuery, compare: PasswordCheck, sign: Signer)
    requires Attempt(c, users, compare, sign).LoggedIn?
    ensures var role := users(c.username).value[0].role;
            LoginReply(Attempt(c, users, compare, sign)) ==
              Redirect(if role == AdminRole then "/dashboard" else "/sales/pos")
  {
  }

  /** Answering with the error page is exactly the case of an exception during the attempt. */
  lemma LoginCrashPage(o: LoginOutcome)
    ensures LoginReply(o).Render? <==> o == Crashed
    ensures LoginReply(o).Render? ==> LoginReply(o).status == 500
  {
  }

  /**
   * `logout`: destroys the session. When destroying fails the client is sent
   * home and nothing else changes; otherwise the session is gone, the
   * `connect.sid` cookie is cleared and the client is sent to the login page.
   * The application names its session cookie `farmapp.sid`, so that cookie
   * and the `token` cookie stay in the browser.
   */
  method Logout(conn: Connection, destroyFails: bool) returns (r: Response)
    modifies conn
    ensures destroyFails ==>
              r == Redirect("/") && conn.sessionUser == old(conn.sessionUser) && conn.cookies == old(conn.cookies)
    ensures !destroyFails ==>
              r == Redirect(LoginPath) && conn.sessionUser == None &&
              conn.cookies == old(conn.cookies) - {"connect.sid"}
  {
    if destroyFails {
      return Redirect("/");
    }
    conn.sessionUser := None;
    conn.cookies := conn.cookies - {"connect.sid"};
    return Redirect(LoginPath);
  }

  /** `isAuthenticated` of the controller: passes exactly when the session holds a user. */
  function IsAuthenticated(sessionUser: Option<Principal>): (g: Gate)
    ensures g.Next? <==> sessionUser.Some?
    ensures g.Halt? ==> g.response == Redirect(LoginPath)
  {
    if sessionUser.Some? then Next else Halt(Redirect(LoginPath))
  }

  /** `isAdmin` of the controller: passes exactly when the session holds an admin. */
  function IsAdmin(sessionUser: Option<Principal>): (g: Gate)
    ensures g.Next? <==> sessionUser.Some? && sessionUser.value.role == AdminRole
    ensures g.Halt? ==>
              g.response == Render(403, "error", "Acceso denegado", "No tiene permisos para acceder a esta sección.")
  {
    if sessionUser.Some? && sessionUser.value.role == AdminRole then Next
    else Halt(Render(403, "error", "Acceso denegado", "No tiene permisos para acceder a esta sección."))
  }
}
