/**
 * The products router of farmapp/routes/products.js, mounted at `/api`
 * (farmapp/app.js:162): a chain of routes and path-less gates registered in
 * order, and the way a request walks that chain. The order of registration
 * decides which gates stand in front of which handler.
 */
module ProductRoutes {
  import opened Wrappers
  import opened Seqs
  import opened Web
  import opened Inventory
  import opened AuthMiddleware
  import ApiRoutes

  /** One segment of a route path: literal text, or a `:name` parameter. */
  datatype Seg = Lit(text: string) | Param(name: string)

  /** The handlers the router can hand a request to. */
  datatype Handler =
    | AllProducts        // GET /products
    | LowStockProducts   // GET /products/low-stock
    | ListProducts       // productController.listProducts
    | SearchProducts     // productController.searchProducts
    | ShowAddForm
    | AddProduct
    | ShowEditForm
    | UpdateProduct
    | DeleteProduct

  /** A layer of the router: `router.get/post(path, handler)`, or `router.use(gate)` with no path. */
  datatype Layer = Route(verb: Verb, pattern: seq<Seg>, handler: Handler) | Use(guard: Guard)

  /** One path segment fits one pattern segment: a literal equals it, a parameter is not empty. */
  predicate SegFits(seg: Seg, part: string) {
    match seg
    case Lit(t) => part == t
    case Param(_) => part != ""
  }

  /** `path` has the shape of `pattern`: as many segments, each fitting its pattern segment. */
  predicate Fits(pattern: seq<Seg>, path: seq<string>)
    decreases |pattern|
  {
    if pattern == [] || path == [] then pattern == [] && path == []
    else SegFits(pattern[0], path[0]) && Fits(pattern[1..], path[1..])
  }

  /** Matches a path against a route pattern, binding its parameters. */
  function MatchPath(pattern: seq<Seg>, path: seq<string>): (m: Option<map<string, string>>)
    ensures m.Some? <==> Fits(pattern, path)
    ensures m.Some? ==> forall k :: 0 <= k < |pattern| && pattern[k].Param? ==> pattern[k].name in m.value
    decreases |pattern|
  {
    if pattern == [] then (if path == [] then Some(map[]) else None)
    else if path == [] then None
    else
      var rest := MatchPath(pattern[1..], path[1..]);
      assert forall k :: 1 <= k < |pattern| ==> pattern[k] == pattern[1..][k - 1];
      match pattern[0]
      case Lit(t) => if path[0] == t then rest else None
      case Param(n) => if path[0] == "" || rest.None? then None else Some(rest.value[n := path[0]])
  }

  /** Where a request ends up in the router. */
  datatype Outcome =
    | Handled(handler: Handler, params: map<string, string>)
    | Stopped(response: Response)
    | Unmatched   // passed on to the routers mounted after this one

  datatype Dispatched = Dispatched(outcome: Outcome, sessionUser: Option<Principal>)

  /**
   * Express's walk of the chain: the first route whose verb and path match
   * takes the request; every path-less gate on the way runs, and one that
   * answers stops the walk.
   */
  function Dispatch(layers: seq<Layer>, sessionUser: Option<Principal>, req: Request, verify: Verifier): Dispatched
    decreases |layers|
  {
    if layers == [] then Dispatched(Unmatched, sessionUser)
    else match layers[0]
      case Route(verb, pattern, h) =>
        var m := MatchPath(pattern, req.path);
        if verb == req.verb && m.Some? then Dispatched(Handled(h, m.value), sessionUser)
        else Dispatch(layers[1..], sessionUser, req, verify)
      case Use(g) =>
        var step := RunGuard(g, sessionUser, req, verify);
        if step.gate.Halt? then Dispatched(Stopped(step.gate.response), step.sessionUser)
        else Dispatch(layers[1..], step.sessionUser, req, verify)
  }

  /** The router object: its layers, in registration order. */
  class Router {
    var layers: seq<Layer>

    constructor ()
      ensures layers == []
    {
      layers := [];
    }

    /** `router.get(path, handler)`. */
    method Get(pattern: seq<Seg>, h: Handler)
      modifies this
      ensures layers == old(layers) + [Route(GET, pattern, h)]
    {
      layers := layers + [Route(GET, pattern, h)];
    }

    /** `router.post(path, handler)`. */
    method Post(pattern: seq<Seg>, h: Handler)
      modifies this
      ensures layers == old(layers) + [Route(POST, pattern, h)]
    {
      layers := layers + [Route(POST, pattern, h)];
    }

    /** `router.use(gate)`, with no path. */
    method Use(g: Guard)
      modifies this
      ensures layers == old(layers) + [Layer.Use(g)]
    {
      layers := layers + [Layer.Use(g)];
    }

    /**
     * Handles one request on a connection, layer by layer; `isAuthenticated`
     * may write the connection's session on the way.
     */
    method Handle(conn: Connection, req: Request, verify: Verifier) returns (o: Outcome)
      modifies conn`sessionUser
      ensures Dispatched(o, conn.sessionUser) == Dispatch(layers, old(conn.sessionUser), req, verify)
    {
      var i := 0;
      while i < |layers|
        invariant 0 <= i <= |layers|
        invariant Dispatch(layers[i..], conn.sessionUser, req, verify) ==
                  Dispatch(layers, old(conn.sessionUser), req, verify)
      {
        assert layers[i..][1..] == layers[i + 1..];
        if layers[i].Route? {
          var m := MatchPath(layers[i].pattern, req.path);
          if layers[i].verb == req.verb && m.Some? {
            return Handled(layers[i].handler, m.value);
          }
        } else {
          var gate: Gate;
          if layers[i].guard == LoginGuard {
            gate := IsAuthenticated(conn, req, verify);
          } else {
            gate := IsAdmin(req);
          }
          if gate.Halt? {
            return Stopped(gate.response);
          }
        }
        i := i + 1;
      }
      return Unmatched;
    }
  }

  /** Lines 8 and 24: the two JSON listings, registered before any gate. */
  const PublicLayers: seq<Layer> := [
    Route(GET, [Lit("products")], AllProducts),
    Route(GET, [Lit("products"), Lit("low-stock")], LowStockProducts)]

  /** Lines 45-46. */
  const WebLayers: seq<Layer> := [
    Route(GET, [], ListProducts),
    Route(GET, [Lit("search")], SearchProducts)]

  /** Lines 52-60. */
  const AdminLayers: seq<Layer> := [
    Route(GET, [Lit("add")], ShowAddForm),
    Route(POST, [Lit("add")], AddProduct),
    Route(GET, [Lit("edit"), Param("id")], ShowEditForm),
    Route(POST, [Lit("update"), Param("id")], UpdateProduct),
    Route(POST, [Lit("delete"), Param("id")], DeleteProduct)]

  /** From line 49 on. */
  const AfterWeb: seq<Layer> := [Layer.Use(AdminGuard)] + AdminLayers

  /** From line 45 on. */
  const AfterLogin: seq<Layer> := WebLayers + AfterWeb

  /** From line 42 on. */
  const AfterPublic: seq<Layer> := [Layer.Use(LoginGuard)] + AfterLogin

  /** The chain the module builds, gates included. */
  const ProductsChain: seq<Layer> := PublicLayers + AfterPublic

  /** The module's registrations, in source order. */
  method BuildRouter() returns (r: Router)
    ensures fresh(r) && r.layers == ProductsChain
  {
    r := new Router();
    r.Get([Lit("products")], AllProducts);
    r.Get([Lit("products"), Lit("low-stock")], LowStockProducts);
    assert r.layers == PublicLayers;
    r.Use(LoginGuard);
    r.Get([], ListProducts);
    r.Get([Lit("search")], SearchProducts);
    assert r.layers == PublicLayers + [Layer.Use(LoginGuard)] + WebLayers;
    r.Use(AdminGuard);
    ghost var before := r.layers;
    r.Get([Lit("add")], ShowAddForm);
    r.Post([Lit("add")], AddProduct);
    r.Get([Lit("edit"), Param("id")], ShowEditForm);
    r.Post([Lit("update"), Param("id")], UpdateProduct);
    r.Post([Lit("delete"), Param("id")], DeleteProduct);
    assert r.layers == before + AdminLayers;
    ChainRegroup(PublicLayers, [Layer.Use(LoginGuard)], WebLayers, [Layer.Use(AdminGuard)], AdminLayers);
  }

  /** The registrations, regrouped by stage. */
  lemma ChainRegroup<T>(a: seq<T>, b: seq<T>, c: seq<T>, d: seq<T>, e: seq<T>)
    ensures a + b + c + d + e == a + (b + (c + (d + e)))
  {
  }

  /** Walking `a + b` is walking `a`, then `b` from where `a` left the session if nothing in `a` took the request. */
  lemma {:induction false} DispatchConcat(a: seq<Layer>, b: seq<Layer>, s: Option<Principal>, req: Request,
                                           verify: Verifier)
    ensures var first := Dispatch(a, s, req, verify);
            Dispatch(a + b, s, req, verify) ==
              if first.outcome.Unmatched? then Dispatch(b, first.sessionUser, req, verify) else first
    decreases |a|
  {
    if a != [] {
      assert (a + b)[0] == a[0];
      assert (a + b)[1..] == a[1..] + b;
      match a[0]
      case Route(_, _, _) =>
        DispatchConcat(a[1..], b, s, req, verify);
      case Use(g) =>
        DispatchConcat(a[1..], b, RunGuard(g, s, req, verify).sessionUser, req, verify);
    } else {
      assert a + b == b;
    }
  }

  predicate AllRoutes(layers: seq<Layer>) {
    forall k :: 0 <= k < |layers| ==> layers[k].Route?
  }

  /** A stretch of routes with no gate leaves the session alone and either hands the request to one of its handlers or passes it on. */
  lemma {:induction false} RoutesOnly(layers: seq<Layer>, s: Option<Principal>, req: Request, verify: Verifier)
    requires AllRoutes(layers)
    ensures var d := Dispatch(layers, s, req, verify);
            && d.sessionUser == s
            && (d.outcome.Handled? || d.outcome.Unmatched?)
            && (d.outcome.Handled? ==> exists k :: 0 <= k < |layers| && layers[k].handler == d.outcome.handler)
    decreases |layers|
  {
    if layers != [] {
      RoutesOnly(layers[1..], s, req, verify);
      var d := Dispatch(layers[1..], s, req, verify);
      if d.outcome.Handled? {
        var k :| 0 <= k < |layers[1..]| && layers[1..][k].handler == d.outcome.handler;
        assert layers[k + 1] == layers[1..][k];
      }
    }
  }

  predicate IsWebHandler(h: Handler) {
    h == ListProducts || h == SearchProducts
  }

  predicate IsAdminHandler(h: Handler) {
    h == ShowAddForm || h == AddProduct || h == ShowEditForm || h == UpdateProduct || h == DeleteProduct
  }

  /** The admin gate refuses unless `req.user` is an admin; past it, an admin handler or nothing. */
  lemma AdminStage(s: Option<Principal>, req: Request, verify: Verifier)
    ensures var d := Dispatch(AfterWeb, s, req, verify);
            && (IsAdmin(req).Halt? ==> d == Dispatched(Stopped(Forbidden), s))
            && (IsAdmin(req).Next? ==> d == Dispatch(AdminLayers, s, req, verify))
  {
    assert AfterWeb[0] == Layer.Use(AdminGuard) && AfterWeb[1..] == AdminLayers;
  }

  /** Past the login gate: a web handler, or the admin stage. */
  lemma WebStage(s: Option<Principal>, req: Request, verify: Verifier)
    ensures var d := Dispatch(AfterLogin, s, req, verify);
            var w := Dispatch(WebLayers, s, req, verify);
            d == if w.outcome.Unmatched? then Dispatch(AfterWeb, s, req, verify) else w
  {
    DispatchConcat(WebLayers, AfterWeb, s, req, verify);
  }

  /** The login gate: it answers the request, or passes it on with the session it leaves. */
  lemma LoginStage(s: Option<Principal>, req: Request, verify: Verifier)
    ensures var login := Authenticate(s, req, verify);
            var d := Dispatch(AfterPublic, s, req, verify);
            && (login.gate.Halt? ==> d == Dispatched(Stopped(login.gate.response), login.sessionUser))
            && (login.gate.Next? ==> d == Dispatch(AfterLogin, login.sessionUser, req, verify))
  {
    assert AfterPublic[0] == Layer.Use(LoginGuard) && AfterPublic[1..] == AfterLogin;
  }

  /**
   * What a request can meet in this router: one of the two public listings,
   * with the session untouched, or else the login gate; a web handler only
   * past the login gate; an admin handler, or nothing at all, only past both
   * gates.
   */
  lemma ChainStages(s: Option<Principal>, req: Request, verify: Verifier)
    ensures var d := Dispatch(ProductsChain, s, req, verify);
            var login := Authenticate(s, req, verify);
            && (d.outcome.Handled? && !IsWebHandler(d.outcome.handler) && !IsAdminHandler(d.outcome.handler) ==>
                  d.sessionUser == s)
            && (d.outcome.Handled? && IsWebHandler(d.outcome.handler) ==> login.gate.Next?)
            && (d.outcome.Handled? && IsAdminHandler(d.outcome.handler) ==> login.gate.Next? && IsAdmin(req).Next?)
            && (d.outcome.Unmatched? ==> login.gate.Next? && IsAdmin(req).Next?)
  {
    var d := Dispatch(ProductsChain, s, req, verify);
    var p := Dispatch(PublicLayers, s, req, verify);
    RoutesOnly(PublicLayers, s, req, verify);
    DispatchConcat(PublicLayers, AfterPublic, s, req, verify);
    if p.outcome.Handled? {
      assert d == p;
      PublicHandlersOnly(PublicLayers, p.outcome.handler);
    } else {
      assert d == Dispatch(AfterPublic, s, req, verify);
      PastPublic(s, req, verify);
    }
  }

  /** Past the two listings: the login gate, then the web and admin stages. */
  lemma PastPublic(s: Option<Principal>, req: Request, verify: Verifier)
    ensures var d := Dispatch(AfterPublic, s, req, verify);
            var login := Authenticate(s, req, verify);
            && (d.outcome.Handled? ==> login.gate.Next? && (IsWebHandler(d.outcome.handler) || IsAdminHandler(d.outcome.handler)))
            && (d.outcome.Handled? && IsAdminHandler(d.outcome.handler) ==> IsAdmin(req).Next?)
            && (d.outcome.Unmatched? ==> login.gate.Next? && IsAdmin(req).Next?)
  {
    var login := Authenticate(s, req, verify);
    LoginStage(s, req, verify);
    if login.gate.Next? {
      var u := login.sessionUser;
      var w := Dispatch(WebLayers, u, req, verify);
      RoutesOnly(WebLayers, u, req, verify);
      WebStage(u, req, verify);
      if w.outcome.Handled? {
        WebHandlersOnly(w.outcome.handler);
      } else {
        AdminStage(u, req, verify);
        if IsAdmin(req).Next? {
          var m := Dispatch(AdminLayers, u, req, verify);
          RoutesOnly(AdminLayers, u, req, verify);
          if m.outcome.Handled? {
            AdminHandlersOnly(m.outcome.handler);
          }
        }
      }
    }
  }

  lemma PublicHandlersOnly(layers: seq<Layer>, h: Handler)
    requires layers == PublicLayers
    requires exists k :: 0 <= k < |layers| && layers[k].handler == h
    ensures !IsWebHandler(h) && !IsAdminHandler(h)
  {
    var k :| 0 <= k < |layers| && layers[k].handler == h;
    assert k == 0 || k == 1;
  }

  lemma WebHandlersOnly(h: Handler)
    requires exists k :: 0 <= k < |WebLayers| && WebLayers[k].handler == h
    ensures IsWebHandler(h) && !IsAdminHandler(h)
  {
    var k :| 0 <= k < |WebLayers| && WebLayers[k].handler == h;
    assert k == 0 || k == 1;
  }

  lemma AdminHandlersOnly(h: Handler)
    requires exists k :: 0 <= k < |AdminLayers| && AdminLayers[k].handler == h
    ensures IsAdminHandler(h) && !IsWebHandler(h)
  {
    var k :| 0 <= k < |AdminLayers| && AdminLayers[k].handler == h;
    assert 0 <= k < 5;
  }

  /** `GET /api/products` and `GET /api/products/low-stock` are answered without any credential. */
  lemma PublicListingsOpen(s: Option<Principal>, req: Request, verify: Verifier)
    requires req.verb == GET
    ensures req.path == ["products"] ==>
              Dispatch(ProductsChain, s, req, verify) == Dispatched(Handled(AllProducts, map[]), s)
    ensures req.path == ["products", "low-stock"] ==>
              Dispatch(ProductsChain, s, req, verify) == Dispatched(Handled(LowStockProducts, map[]), s)
  {
    assert ProductsChain[0] == Route(GET, [Lit("products")], AllProducts);
    assert ProductsChain[1..][0] == Route(GET, [Lit("products"), Lit("low-stock")], LowStockProducts);
    if req.path == ["products", "low-stock"] {
      assert !Fits([Lit("products")], req.path);
    }
  }

  /**
   * `isAdmin` reads `req.user`, which nothing in the application sets: a
   * request that gets past the login gate is refused by the admin gate, even
   * when the session holds an admin, and so nothing falls through this router.
   */
  lemma AdminGateRefusesEveryone(s: Option<Principal>, req: Request, verify: Verifier)
    requires req.user.None?
    ensures var d := Dispatch(ProductsChain, s, req, verify);
            && !d.outcome.Unmatched?
            && !(d.outcome.Handled? && IsAdminHandler(d.outcome.handler))
            && (Authenticate(s, req, verify).gate.Next? && !d.outcome.Handled? ==> d.outcome == Stopped(Forbidden))
  {
    ChainStages(s, req, verify);
    var login := Authenticate(s, req, verify);
    RoutesOnly(PublicLayers, s, req, verify);
    RoutesOnly(WebLayers, login.sessionUser, req, verify);
    DispatchConcat(PublicLayers, AfterPublic, s, req, verify);
    LoginStage(s, req, verify);
    WebStage(login.sessionUser, req, verify);
    AdminStage(login.sessionUser, req, verify);
  }

  /**
   * The routers mounted at `/api` after this one (farmapp/app.js:163-164)
   * see only requests this router passes on; with `req.user` unset there are
   * none, so a JSON login without credentials is answered by the login gate.
   */
  lemma LaterApiRoutersUnreachable(req: Request, verify: Verifier)
    requires req.user.None? && req.verb == POST && req.path == ["auth", "login"]
    requires req.authorization.None? && "token" !in req.cookies
    ensures Dispatch(ProductsChain, None, req, verify) == Dispatched(Stopped(Unauthenticated(req)), None)
  {
    RoutesOnly(PublicLayers, None, req, verify);
    DispatchConcat(PublicLayers, AfterPublic, None, req, verify);
    LoginStage(None, req, verify);
  }

  /** `WHERE p.stock < p.min_stock_level OR p.stock IS NULL`. */
  predicate IsBelowLevel(p: StockRow) {
    p.stock.None? || (p.minStockLevel.Some? && p.stock.value < p.minStockLevel.value)
  }

  /**
   * `GET /products/low-stock` of this router: at most ten rows below their
   * level or without a stock, those without a stock first and then ascending
   * stock; no qualifying row left out comes before a listed one.
   */
  function LowStockListing(products: seq<StockRow>): (r: seq<StockRow>)
    ensures |r| == Min(10, |Retain(products, IsBelowLevel)|)
    ensures multiset(r) <= multiset(products)
    ensures forall i :: 0 <= i < |r| ==> IsBelowLevel(r[i])
    ensures forall i, j :: 0 <= i < j < |r| ==> StockLe(r[i], r[j])
  {
    LowestStockKept(products, IsBelowLevel);
    LowestStockOrdered(products, IsBelowLevel);
    LowestStock(products, IsBelowLevel)
  }

  /** Rows without a stock come first in the listing. */
  lemma NullStockFirst(products: seq<StockRow>, i: int, j: int)
    requires 0 <= i < j < |LowStockListing(products)|
    requires LowStockListing(products)[j].stock.None?
    ensures LowStockListing(products)[i].stock.None?
  {
  }

  /** No qualifying row left out comes before a listed one. */
  lemma LowStockListingLowest(products: seq<StockRow>)
    ensures forall x, y ::
              x in multiset(Retain(products, IsBelowLevel)) - multiset(LowStockListing(products)) &&
              y in LowStockListing(products)
              ==> StockLe(y, x)
  {
    LowestStockLowest(products, IsBelowLevel);
  }

  /**
   * The comparison is strict here and not in routes/api.js: a row exactly at
   * its level is listed by the JSON API's rule but not by this router's.
   */
  lemma AtLevelListedOnlyByApi(p: StockRow)
    requires p.stock.Some? && p.stock == p.minStock == p.minStockLevel
    ensures ApiRoutes.IsLowStock(p) && !IsBelowLevel(p)
  {
  }
}
