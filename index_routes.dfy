/**
 * The page router of farmapp/routes/index.js: the home redirect, the pages
 * behind their gate lists, the status endpoint and the 404 fallback.
 */
module IndexRoutes {
  import opened Wrappers
  import opened Web
  import opened AuthMiddleware

  /** The route a request is matched to (only `GET` routes are registered; the fallback takes every method). */
  datatype Page = Home | Dashboard | Profile | Settings | Status | NotFound

  function PageOf(req: Request): (p: Page)
    ensures p != NotFound ==> req.verb == GET
  {
    if req.verb != GET then NotFound
    else if req.path == [] then Home
    else if req.path == ["dashboard"] then Dashboard
    else if req.path == ["profile"] then Profile
    else if req.path == ["settings"] then Settings
    else if req.path == ["api", "status"] then Status
    else NotFound
  }

  /** The gates each route lists in front of its handler. */
  function GatesFor(p: Page): seq<Guard> {
    match p
    case Dashboard => [LoginGuard]
    case Profile => [LoginGuard]
    case Settings => [LoginGuard, AdminGuard]
    case _ => []
  }

  const NotFoundPage: Response :=
    Render(404, "error", "404 - Página no encontrada", "La página que buscas no existe o ha sido movida.")

  /** `GET /` reads the session directly: the dashboard with a user in it, the login page otherwise. */
  function HomeRedirect(sessionUser: Option<Principal>): (r: Response)
    ensures r == Redirect("/dashboard") <==> sessionUser.Some?
    ensures r == Redirect(LoginPath) <==> sessionUser.None?
  {
    if sessionUser.Some? then Redirect("/dashboard") else Redirect(LoginPath)
  }

  /** `GET /api/status`, with the clock's ISO time as a parameter. */
  function StatusBody(now: string): Json {
    JObj([("status", JStr("ok")), ("timestamp", JStr(now)), ("version", JStr("1.0.0"))])
  }

  /** What the handler of a page answers once its gates have let the request through. */
  function PageResponse(p: Page, sessionUser: Option<Principal>, now: string): Response {
    match p
    case Home => HomeRedirect(sessionUser)
    case Dashboard => Render(200, "dashboard", "Panel de Control", "")
    case Profile => Render(200, "profile", "Mi Perfil", "")
    case Settings => Render(200, "settings", "Configuración del Sistema", "")
    case Status => SendJson(200, StatusBody(now))
    case NotFound => NotFoundPage
  }

  datatype Served = Served(response: Response, sessionUser: Option<Principal>)

  /** One request through the router: its route's gates in order, then its handler. */
  function Serve(sessionUser: Option<Principal>, req: Request, verify: Verifier, now: string): Served {
    var p := PageOf(req);
    var step := RunGuards(GatesFor(p), sessionUser, req, verify);
    if step.gate.Halt? then Served(step.gate.response, step.sessionUser)
    else Served(PageResponse(p, step.sessionUser, now), step.sessionUser)
  }

  /** `GET /` is ungated: it redirects to the dashboard exactly when the session holds a user. */
  lemma HomeRule(s: Option<Principal>, req: Request, verify: Verifier, now: string)
    requires PageOf(req) == Home
    ensures Serve(s, req, verify, now) == Served(HomeRedirect(s), s)
  {
  }

  /** `/dashboard` and `/profile` render exactly when `isAuthenticated` lets the request through. */
  lemma LoginOnlyPages(s: Option<Principal>, req: Request, verify: Verifier, now: string)
    requires PageOf(req) == Dashboard || PageOf(req) == Profile
    ensures var login := Authenticate(s, req, verify);
            var served := Serve(s, req, verify, now);
            && served.sessionUser == login.sessionUser
            && (login.gate.Next? ==> served.response == PageResponse(PageOf(req), login.sessionUser, now))
            && (login.gate.Halt? ==> served.response == Unauthenticated(req))
  {
    var gs := GatesFor(PageOf(req));
    assert gs == [LoginGuard] && gs[1..] == [];
    var login := Authenticate(s, req, verify);
    assert RunGuards(gs, s, req, verify) ==
           if login.gate.Halt? then login else RunGuards([], login.sessionUser, req, verify);
  }

  /**
   * `/settings` renders only when both gates pass; a refusal by either one
   * is the answer. With `req.user` unset the admin gate always refuses.
   */
  lemma SettingsGates(s: Option<Principal>, req: Request, verify: Verifier, now: string)
    requires PageOf(req) == Settings
    ensures var login := Authenticate(s, req, verify);
            var served := Serve(s, req, verify, now);
            && (served.response.Render? && served.response.view == "settings" <==>
                  login.gate.Next? && IsAdmin(req).Next?)
            && (login.gate.Halt? ==> served.response == Unauthenticated(req))
            && (login.gate.Next? && IsAdmin(req).Halt? ==> served.response == Forbidden)
  {
    var gs := GatesFor(Settings);
    assert gs[1..] == [AdminGuard] && gs[1..][1..] == [];
  }

  /** `GET /api/status` needs no credential. */
  lemma StatusOpen(s: Option<Principal>, req: Request, verify: Verifier, now: string)
    requires PageOf(req) == Status
    ensures Serve(s, req, verify, now) == Served(SendJson(200, StatusBody(now)), s)
  {
  }

  /** Any other request gets the 404 page and leaves the session alone. */
  lemma FallbackIsNotFound(s: Option<Principal>, req: Request, verify: Verifier, now: string)
    requires PageOf(req) == NotFound
    ensures Serve(s, req, verify, now) == Served(NotFoundPage, s)
  {
  }
}
