/**
 * The JSON API router of farmapp/routes/api.js: login, status check and
 * logout on the connection's session, and the two read-only dashboard
 * selections (recent sales and low stock) as filter, sort and limit over
 * in-memory tables.
 */
module ApiRoutes {
  import opened Wrappers
  import opened Seqs
  import opened Web
  import opened Inventory
  import AuthController

  function Message(success: bool, message: string): Json {
    JObj([("success", JBool(success)), ("message", JStr(message))])
  }

  /** The JSON answer of `POST /auth/login` for each outcome of the shared sign-in. */
  function LoginReply(o: AuthController.LoginOutcome): (r: Response)
    ensures r.SendJson?
    ensures r.status == 401 <==> o.NoSuchUser? || o.WrongPassword?
    ensures r.status == 200 <==> o.LoggedIn?
    ensures r.status == 500 <==> o.Crashed?
    ensures o.LoggedIn? ==> r.body == JObj([("success", JBool(true)), ("user", PrincipalJson(o.user))])
    ensures o.NoSuchUser? || o.WrongPassword? ==> r.body == Message(false, "Usuario o contraseña incorrectos")
    ensures o.Crashed? ==> r.body == Message(false, "Error del servidor")
  {
    match o
    case NoSuchUser => SendJson(401, Message(false, "Usuario o contraseña incorrectos"))
    case WrongPassword => SendJson(401, Message(false, "Usuario o contraseña incorrectos"))
    case LoggedIn(user, _) => SendJson(200, JObj([("success", JBool(true)), ("user", PrincipalJson(user))]))
    case Crashed => SendJson(500, Message(false, "Error del servidor"))
  }

  /**
   * `POST /auth/login`: the shared sign-in; on success the session holds the
   * snapshot that the reply carries, and the `token` cookie is set; on any
   * failure neither is written.
   */
  method Login(conn: Connection, c: AuthController.Credentials, users: AuthController.UserQuery,
               compare: AuthController.PasswordCheck, sign: AuthController.Signer, production: bool)
    returns (r: Response)
    modifies conn
    ensures var o := AuthController.Attempt(c, users, compare, sign);
            && r == LoginReply(o)
            && (o.LoggedIn? ==>
                  conn.sessionUser == Some(o.user) &&
                  conn.cookies == old(conn.cookies)["token" := AuthController.TokenCookie(o.token, production)])
            && (!o.LoggedIn? ==> conn.sessionUser == old(conn.sessionUser) && conn.cookies == old(conn.cookies))
  {
    var o := AuthController.SignIn(conn, c, users, compare, sign, production);
    r := LoginReply(o);
  }

  /** `GET /auth/check`: 401 `{isAuthenticated: false}` without a session user, else the user. */
  function Check(sessionUser: Option<Principal>): (r: Response)
    ensures r.SendJson?
    ensures r.status == 401 <==> sessionUser.None?
    ensures sessionUser.None? ==> r.body == JObj([("isAuthenticated", JBool(false))])
    ensures sessionUser.Some? ==>
              r.status == 200 &&
              r.body == JObj([("isAuthenticated", JBool(true)), ("user", PrincipalJson(sessionUser.value))])
  {
    match sessionUser
    case None => SendJson(401, JObj([("isAuthenticated", JBool(false))]))
    case Some(user) => SendJson(200, JObj([("isAuthenticated", JBool(true)), ("user", PrincipalJson(user))]))
  }

  /**
   * `POST /auth/logout`: when destroying the session fails, 500 and nothing
   * changes; otherwise the session is gone, the `token` and `farmapp.sid`
   * cookies are cleared and the answer is `{success: true}`.
   */
  method Logout(conn: Connection, destroyFails: bool) returns (r: Response)
    modifies conn
    ensures destroyFails ==>
              r == SendJson(500, Message(false, "Error al cerrar sesión")) &&
              conn.sessionUser == old(conn.sessionUser) && conn.cookies == old(conn.cookies)
    ensures !destroyFails ==>
              r == SendJson(200, JObj([("success", JBool(true))])) &&
              conn.sessionUser == None && conn.cookies == old(conn.cookies) - {"token", "farmapp.sid"}
  {
    if destroyFails {
      return SendJson(500, Message(false, "Error al cerrar sesión"));
    }
    conn.sessionUser := None;
    conn.cookies := conn.cookies - {"token", "farmapp.sid"};
    return SendJson(200, JObj([("success", JBool(true))]));
  }

  /**
   * A client that logs in, checks, logs out and checks again: the first
   * check reports the user the login reply carried; after a successful
   * logout the second check is unauthenticated and no token cookie is left.
   */
  method LoginCheckLogoutCheck(conn: Connection, c: AuthController.Credentials, users: AuthController.UserQuery,
                               compare: AuthController.PasswordCheck, sign: AuthController.Signer,
                               production: bool, destroyFails: bool)
    returns (login: Response, first: Response, logout: Response, second: Response)
    modifies conn
    ensures var o := AuthController.Attempt(c, users, compare, sign);
            o.LoggedIn? ==>
              && login.SendJson? && login.body == JObj([("success", JBool(true)), ("user", PrincipalJson(o.user))])
              && first == SendJson(200, JObj([("isAuthenticated", JBool(true)), ("user", PrincipalJson(o.user))]))
    ensures !destroyFails ==> second.SendJson? && second.status == 401 && "token" !in conn.cookies
  {
    login := Login(conn, c, users, compare, sign, production);
    first := Check(conn.sessionUser);
    logout := Logout(conn, destroyFails);
    second := Check(conn.sessionUser);
  }

  /** `WHERE stock <= min_stock`: a NULL on either side never qualifies. */
  predicate IsLowStock(p: StockRow) {
    p.stock.Some? && p.minStock.Some? && p.stock.value <= p.minStock.value
  }

  /**
   * `GET /products/low-stock`: at most ten rows drawn from the table, each
   * with a stock at or below its `min_stock`.
   */
  function LowStock(products: seq<StockRow>): (r: seq<StockRow>)
    ensures |r| == Min(10, |Retain(products, IsLowStock)|)
    ensures multiset(r) <= multiset(products)
    ensures forall i :: 0 <= i < |r| ==> IsLowStock(r[i])
  {
    LowestStockKept(products, IsLowStock);
    LowestStock(products, IsLowStock)
  }

  /** The rows are listed lowest stock first. */
  lemma LowStockAscending(products: seq<StockRow>)
    ensures var r := LowStock(products);
            forall i, j :: 0 <= i < j < |r| ==>
              r[i].stock.Some? && r[j].stock.Some? && r[i].stock.value <= r[j].stock.value
  {
    LowestStockOrdered(products, IsLowStock);
  }

  /** No qualifying row left out has less stock than a listed one. */
  lemma LowStockLowest(products: seq<StockRow>)
    ensures var r := LowStock(products);
            forall x, y :: x in multiset(Retain(products, IsLowStock)) - multiset(r) && y in r ==>
              x.stock.Some? && y.stock.Some? && y.stock.value <= x.stock.value
  {
    var low := Retain(products, IsLowStock);
    var r := LowStock(products);
    LowestStockLowest(products, IsLowStock);
    RetainKept(products, IsLowStock);
    forall x: StockRow, y: StockRow | x in multiset(low) - multiset(r) && y in r
      ensures x.stock.Some? && y.stock.Some? && y.stock.value <= x.stock.value
    {
      assert StockLe(y, x);
      assert x in low;
      var j :| 0 <= j < |r| && r[j] == y;
    }
  }

  /** A row of `sales`: its total as MySQL's DECIMAL text, its creation time and its customer, if any. */
  datatype SaleRow = SaleRow(id: int, total: string, createdAt: int, customerId: Option<int>)

  datatype CustomerRow = CustomerRow(id: int, name: string)

  /** A line of the reply: `s.id, s.total, s.created_at as date, c.name as customer`. */
  datatype SaleSummary = SaleSummary(id: int, total: string, date: int, customer: Option<string>)

  /** `LEFT JOIN customers c ON s.customer_id = c.id`: the name of the customer, or NULL when there is none. */
  function CustomerName(customers: seq<CustomerRow>, id: Option<int>): (name: Option<string>)
    ensures name.None? ==> forall k :: 0 <= k < |customers| ==> id != Some(customers[k].id)
    ensures name.Some? ==>
              exists k :: 0 <= k < |customers| && Some(customers[k].id) == id && customers[k].name == name.value
  {
    if id.None? || customers == [] then None
    else if customers[0].id == id.value then Some(customers[0].name)
    else
      var rest := CustomerName(customers[1..], id);
      assert rest.Some? ==>
               exists k :: 0 <= k < |customers| && Some(customers[k].id) == id && customers[k].name == rest.value
      by {
        if rest.Some? {
          var k :| 0 <= k < |customers[1..]| && Some(customers[1..][k].id) == id && customers[1..][k].name == rest.value;
          assert customers[k + 1] == customers[1..][k];
        }
      }
      rest
  }

  /** `ORDER BY created_at DESC`. */
  predicate Newer(a: SaleRow, b: SaleRow) {
    a.createdAt >= b.createdAt
  }

  lemma NewerTotal()
    ensures TotalPreorder(Newer)
  {
  }

  /** The ten newest sales: newest first, drawn from `sales`, and none left out is newer than one kept. */
  function NewestSales(sales: seq<SaleRow>): (r: seq<SaleRow>)
    ensures |r| == Min(10, |sales|)
    ensures multiset(r) <= multiset(sales)
    ensures forall i, j :: 0 <= i < j < |r| ==> r[i].createdAt >= r[j].createdAt
    ensures forall x, y :: x in multiset(sales) - multiset(r) && y in r ==> y.createdAt >= x.createdAt
  {
    NewerTotal();
    var r := Lowest(sales, Newer, 10);
    assert forall i, j :: 0 <= i < j < |r| ==> r[i].createdAt >= r[j].createdAt by {
      forall i, j | 0 <= i < j < |r| ensures r[i].createdAt >= r[j].createdAt {
        assert Newer(r[i], r[j]);
      }
    }
    assert forall x, y :: x in multiset(sales) - multiset(r) && y in r ==> y.createdAt >= x.createdAt by {
      forall x, y | x in multiset(sales) - multiset(r) && y in r ensures y.createdAt >= x.createdAt {
        assert Newer(y, x);
      }
    }
    r
  }

  /** `GET /sales/recent`: the newest ten sales, each with its customer's name joined in. */
  function RecentSales(sales: seq<SaleRow>, customers: seq<CustomerRow>): (r: seq<SaleSummary>)
    ensures |r| == Min(10, |sales|)
    ensures forall i, j :: 0 <= i < j < |r| ==> r[i].date >= r[j].date
    ensures forall i :: 0 <= i < |r| ==>
              var s := NewestSales(sales)[i];
              r[i] == SaleSummary(s.id, s.total, s.createdAt, CustomerName(customers, s.customerId))
  {
    var top := NewestSales(sales);
    seq(|top|, i requires 0 <= i < |top| =>
      SaleSummary(top[i].id, top[i].total, top[i].createdAt, CustomerName(customers, top[i].customerId)))
  }
}
