/**
 * The products page script, farmapp/public/js/products.js: the API address,
 * the table rows drawn from the product list, the search filter, the
 * mapping of the product form to the JSON body it sends, the choice between
 * creating and updating, and the alerts shown for each reply.
 */
module ClientProducts {
  import opened Wrappers
  import opened Text
  import opened Seqs
  import opened ClientValues

  /**
   * A product as `/api/products` sends it. `name` and `category_name` are
   * text or `null` (`None`); `stock` and `min_stock` are numeric columns.
   */
  datatype ClientProduct = ClientProduct(
    id: Value,
    code: Value,
    name: Option<string>,
    categoryName: Option<string>,
    stock: Numeric,
    minStock: Numeric,
    unit: Value,
    status: Value)

  // ---------------------------------------------------------------- addresses

  /** The development hosts for which `getApiBaseUrl` forces plain HTTP. */
  predicate IsLocalHost(host: string) {
    Contains(host, "localhost") || Contains(host, "127.0.0.1")
  }

  /** The scheme `getApiBaseUrl` puts in front of the host. */
  function Scheme(protocol: string, host: string): (s: string)
    ensures IsLocalHost(host) ==> s == "http:"
    ensures !IsLocalHost(host) ==> s == protocol
  {
    if IsLocalHost(host) then "http:" else protocol
  }

  /** `getApiBaseUrl()`: `http://host` on a development host, the page's own protocol otherwise. */
  function ApiBaseUrl(protocol: string, host: string): (r: string)
    ensures IsLocalHost(host) ==> r == "http://" + host
    ensures !IsLocalHost(host) ==> r == protocol + "//" + host
  {
    Scheme(protocol, host) + "//" + host
  }

  /** The address `loadProducts` fetches. */
  function ProductsListUrl(protocol: string, host: string): (r: string)
    ensures r == ApiBaseUrl(protocol, host) + "/api/products"
  {
    ApiBaseUrl(protocol, host) + "/api/products"
  }

  /** The JSON body `handleFormSubmit` sends; a NaN number is serialised as `null`, written `None`. */
  datatype ProductBody = ProductBody(
    code: string,
    name: string,
    categoryId: string,
    description: string,
    unit: string,
    stock: Option<int>,
    minStock: Option<int>,
    maxStock: Option<int>,
    status: int)

  /** A save request: its verb, its protocol-relative address and its body. */
  datatype SaveRequest = SaveRequest(verb: string, url: string, body: ProductBody)

  /** An empty `productId` creates a product; any other updates the product it names. */
  function SaveRequestOf(host: string, productId: string, body: ProductBody): (r: SaveRequest)
    ensures r.body == body
    ensures r.verb == "POST" <==> productId == ""
    ensures r.verb == "PUT" <==> productId != ""
    ensures productId == "" ==> r.url == "//" + host + "/api/products"
    ensures productId != "" ==> r.url == "//" + host + "/api/products/" + productId
  {
    if productId == "" then SaveRequest("POST", "//" + host + "/api/products", body)
    else SaveRequest("PUT", "//" + host + "/api/products/" + productId, body)
  }

  /** Two different product ids are saved to two different addresses. */
  lemma SaveUrlsTellIdsApart(host: string, a: string, b: string, body: ProductBody)
    requires a != b
    ensures SaveRequestOf(host, a, body).url != SaveRequestOf(host, b, body).url
  {
    var base := "//" + host + "/api/products";
    var ua := SaveRequestOf(host, a, body).url;
    var ub := SaveRequestOf(host, b, body).url;
    assert a != "" ==> ua[|base| + 1..] == a;
    assert b != "" ==> ub[|base| + 1..] == b;
  }

  /** Creating a product posts to the address the list is loaded from, without its scheme. */
  lemma CreateAddressIsListAddress(protocol: string, host: string, body: ProductBody)
    ensures ProductsListUrl(protocol, host) == Scheme(protocol, host) + SaveRequestOf(host, "", body).url
  {
  }

  // ---------------------------------------------------------------- form

  /**
   * The product form's fields as the script reads them. An element that
   * may be missing (`description`, `maxStock`, `status`) is an `Option`;
   * `valid` is `form.checkValidity()`.
   */
  datatype ProductForm = ProductForm(
    valid: bool,
    productId: string,
    code: string,
    name: string,
    category: string,
    description: Option<string>,
    unit: string,
    stock: string,
    minStock: string,
    maxStock: Option<string>,
    status: Option<string>)

  /** `document.getElementById(x)?.value || ''`. */
  function ValueOr(field: Option<string>, fallback: string): (r: string)
    ensures field.None? || field == Some("") ==> r == fallback
    ensures field.Some? && field.value != "" ==> r == field.value
  {
    if field.None? || field.value == "" then fallback else field.value
  }

  /**
   * The body built from the form: `stock` is `parseInt` of its field,
   * `min_stock` is `parseInt(value || 0)`, `max_stock` is `null` for a
   * missing or empty field, and `status` is 1 exactly for the option `'1'`.
   */
  function BodyOf(form: ProductForm): (b: ProductBody)
    ensures b.code == form.code && b.name == form.name && b.categoryId == form.category && b.unit == form.unit
    ensures b.description == ValueOr(form.description, "")
    ensures b.stock == ParseIntAuto(form.stock)
    ensures form.minStock == "" ==> b.minStock == Some(0)
    ensures form.minStock != "" ==> b.minStock == ParseIntAuto(form.minStock)
    ensures form.maxStock.None? || form.maxStock == Some("") ==> b.maxStock.None?
    ensures form.maxStock.Some? && form.maxStock.value != "" ==> b.maxStock == ParseIntAuto(form.maxStock.value)
    ensures b.status == 1 <==> form.status == Some("1")
    ensures b.status == 0 <==> form.status != Some("1")
  {
    var minStock := if form.minStock == "" then Some(0) else ParseIntAuto(form.minStock);
    var maxStock := if ValueOr(form.maxStock, "") == "" then None else ParseIntAuto(form.maxStock.value);
    ProductBody(form.code, form.name, form.category, ValueOr(form.description, ""), form.unit,
                ParseIntAuto(form.stock), minStock, maxStock, if form.status == Some("1") then 1 else 0)
  }

  /** A stock typed as a decimal number reaches the server as that number, and so does a minimum. */
  lemma FormNumbersRoundTrip(form: ProductForm, stock: nat, minStock: nat)
    requires form.stock == NatToString(stock) && form.minStock == NatToString(minStock)
    ensures BodyOf(form).stock == Some(stock) && BodyOf(form).minStock == Some(minStock)
  {
    ParseIntAutoOfDecimal(stock, []);
    ParseIntAutoOfDecimal(minStock, []);
    assert NatToString(stock) + [] == NatToString(stock);
    assert NatToString(minStock) + [] == NatToString(minStock);
  }

  /** A product saved with the minimum left blank has a minimum of 0, and an inactive status unless `'1'` is chosen. */
  lemma FormDefaults(form: ProductForm)
    requires form.minStock == "" && form.maxStock.None? && form.status.None?
    ensures BodyOf(form).minStock == Some(0) && BodyOf(form).maxStock.None? && BodyOf(form).status == 0
  {
  }

  // ---------------------------------------------------------------- escaping

  /** How the HTML fragment serialisation writes one character of a text node. */
  function EscapeChar(c: char): (r: string)
    ensures r != []
    ensures c !in "&<>\U{A0}" ==> r == [c]
  {
    if c == '&' then "&amp;"
    else if c == '<' then "&lt;"
    else if c == '>' then "&gt;"
    else if c == '\U{A0}' then "&nbsp;"
    else [c]
  }

  /** `div.textContent = s; div.innerHTML`: `s` with `&`, `<`, `>` and no-break spaces written as entities. */
  function EscapeText(s: string): (r: string)
    ensures |r| >= |s|
    ensures '<' !in r && '>' !in r && '\U{A0}' !in r
  {
    if s == [] then [] else EscapeChar(s[0]) + EscapeText(s[1..])
  }

  /** `escapeHtml(unsafe)`: a string is escaped; anything else is returned as it is. */
  function EscapeHtml(v: Value): (r: Value)
    ensures !v.Str? ==> r == v
    ensures v.Str? ==> r == Str(EscapeText(v.s))
  {
    if v.Str? then Str(EscapeText(v.s)) else v
  }

  /** Reading the escaped text back as HTML: the four entities become their characters again. */
  function Unescape(t: string): (r: string)
    decreases |t|
  {
    if t == [] then []
    else if IsPrefix("&amp;", t) then "&" + Unescape(t[5..])
    else if IsPrefix("&lt;", t) then "<" + Unescape(t[4..])
    else if IsPrefix("&gt;", t) then ">" + Unescape(t[4..])
    else if IsPrefix("&nbsp;", t) then "\U{A0}" + Unescape(t[6..])
    else [t[0]] + Unescape(t[1..])
  }

  /** Text that does not open with `&` is not an entity. */
  lemma NoEntityAt(t: string)
    requires t != [] && t[0] != '&'
    ensures Unescape(t) == [t[0]] + Unescape(t[1..])
  {
    assert forall n :: 0 < n <= |t| ==> t[..n][0] == t[0];
    assert "&amp;"[0] == '&' && "&lt;"[0] == '&' && "&gt;"[0] == '&' && "&nbsp;"[0] == '&';
  }

  /** The entity `e` followed by `rest` is read back as its character `r` followed by the rest. */
  lemma EntityAt(e: string, r: string, rest: string)
    requires e in ["&amp;", "&lt;", "&gt;", "&nbsp;"]
    requires r == (if e == "&amp;" then "&" else if e == "&lt;" then "<" else if e == "&gt;" then ">" else "\U{A0}")
    ensures Unescape(e + rest) == r + Unescape(rest)
  {
    var t := e + rest;
    assert t[..|e|] == e && t[|e|..] == rest;
    assert t[1] == e[1];
    if e == "&lt;" || e == "&gt;" {
      assert !IsPrefix("&amp;", t);
    }
    if e == "&gt;" {
      assert !IsPrefix("&lt;", t);
    }
    if e == "&nbsp;" {
      assert !IsPrefix("&amp;", t) && !IsPrefix("&lt;", t) && !IsPrefix("&gt;", t);
    }
  }

  /** One escaped character is read back as that character. */
  lemma UnescapeChar(c: char, rest: string)
    ensures Unescape(EscapeChar(c) + rest) == [c] + Unescape(rest)
  {
    if c == '&' {
      EntityAt("&amp;", "&", rest);
    } else if c == '<' {
      EntityAt("&lt;", "<", rest);
    } else if c == '>' {
      EntityAt("&gt;", ">", rest);
    } else if c == '\U{A0}' {
      EntityAt("&nbsp;", "\U{A0}", rest);
    } else {
      var t := [c] + rest;
      assert t[1..] == rest;
      NoEntityAt(t);
    }
  }

  /** Escaping loses nothing: the browser shows exactly the original text. */
  lemma {:induction false} UnescapeEscape(s: string)
    ensures Unescape(EscapeText(s)) == s
  {
    if s != [] {
      UnescapeChar(s[0], EscapeText(s[1..]));
      UnescapeEscape(s[1..]);
      assert s == [s[0]] + s[1..];
    }
  }

  /** Text with none of the four characters is left as it is. */
  lemma {:induction false} EscapePlain(s: string)
    requires forall i :: 0 <= i < |s| ==> s[i] !in "&<>\U{A0}"
    ensures EscapeText(s) == s
  {
    if s != [] {
      EscapePlain(s[1..]);
      assert s == [s[0]] + s[1..];
    }
  }

  // ---------------------------------------------------------------- rows

  /** One row of `#productsTable`, or the single placeholder row of an empty list. */
  datatype ProductRow =
    | Placeholder
    | ProductLine(code: string, name: string, category: string, stock: string,
                  lowStock: bool, active: bool, statusText: string, id: string)

  /** `${product.stock}`: a number, or the text of `null` or `undefined`. */
  function NumericText(v: Numeric): (t: string)
    ensures v.Number? ==> t == IntToString(v.n)
  {
    match v
    case Absent => "undefined"
    case NullNumber => "null"
    case Number(n) => IntToString(n)
  }

  /**
   * The row `renderProducts` draws for one product: escaped code and name,
   * the category or `'Sin categoría'`, the stock with its unit, the
   * `badge-error` mark for a stock at or below the minimum, and the status.
   */
  function RowOf(p: ClientProduct): (r: ProductRow)
    ensures r.ProductLine?
  {
    ProductLine(
      ToText(EscapeHtml(p.code)),
      if p.name.Some? then EscapeText(p.name.value) else "null",
      ValueOr(p.categoryName, "Sin categoría"),
      NumericText(p.stock) + " " + ToText(Or(p.unit, Str(""))),
      NumLe(p.stock, p.minStock),
      Truthy(p.status),
      if Truthy(p.status) then "Activo" else "Inactivo",
      ToText(p.id))
  }

  /** The rows for a list: the placeholder alone for an empty list, one row per product otherwise. */
  function Rows(list: seq<ClientProduct>): (rows: seq<ProductRow>)
  {
    if |list| == 0 then [Placeholder] else Lines(list)
  }

  /** One row per product, in order. */
  function Lines(list: seq<ClientProduct>): (rows: seq<ProductRow>)
    ensures |rows| == |list|
    ensures forall i :: 0 <= i < |list| ==> rows[i] == RowOf(list[i])
  {
    seq(|list|, i requires 0 <= i < |list| => RowOf(list[i]))
  }

  /** Drawing one more product appends its row. */
  lemma LinesSnoc(list: seq<ClientProduct>, i: nat)
    requires i < |list|
    ensures Lines(list[..i + 1]) == Lines(list[..i]) + [RowOf(list[i])]
  {
    var a, b := Lines(list[..i + 1]), Lines(list[..i]) + [RowOf(list[i])];
    assert |a| == |b|;
    forall j | 0 <= j < |a| ensures a[j] == b[j] {
      if j < i {
        assert list[..i + 1][j] == list[..i][j];
      }
    }
  }

  /** The table has one row per product, in order, and falls back to the placeholder exactly when the list is empty. */
  lemma RowsShape(list: seq<ClientProduct>)
    ensures |Rows(list)| == if list == [] then 1 else |list|
    ensures Rows(list)[0] == Placeholder <==> list == []
    ensures list != [] ==> forall i :: 0 <= i < |list| ==> Rows(list)[i] == RowOf(list[i])
  {
  }

  /** The `badge-error` rule: a stock at or below the minimum, with `null` taken as 0 and a missing value never flagged. */
  lemma LowStockMark(p: ClientProduct)
    ensures p.stock.Number? && p.minStock.Number? ==> (RowOf(p).lowStock <==> p.stock.n <= p.minStock.n)
    ensures p.stock.Absent? || p.minStock.Absent? ==> !RowOf(p).lowStock
    ensures p.stock.NullNumber? && p.minStock.Number? ==> (RowOf(p).lowStock <==> 0 <= p.minStock.n)
  {
    NumLeCases(p.stock, p.minStock);
  }

  /** The category falls back to `'Sin categoría'`, and is shown unescaped otherwise. */
  lemma CategoryCell(p: ClientProduct)
    ensures p.categoryName.None? || p.categoryName == Some("") ==> RowOf(p).category == "Sin categoría"
    ensures p.categoryName.Some? && p.categoryName.value != "" ==> RowOf(p).category == p.categoryName.value
  {
  }

  // ---------------------------------------------------------------- search

  /** `product.code && product.code.toString().toLowerCase().includes(term)`. */
  predicate CodeMatches(code: Value, term: string) {
    Truthy(code) && Contains(Lower(ToText(code)), term)
  }

  /** `field && field.toLowerCase().includes(term)` for a text field. */
  predicate TextMatches(field: Option<string>, term: string) {
    field.Some? && field.value != "" && Contains(Lower(field.value), term)
  }

  /** The filter callback: the code, the name or the category name contains the term. */
  predicate ProductMatches(p: ClientProduct, term: string) {
    CodeMatches(p.code, term) || TextMatches(p.name, term) || TextMatches(p.categoryName, term)
  }

  function MatchesTerm(term: string): ClientProduct -> bool {
    p => ProductMatches(p, term)
  }

  /** The list `filterProducts` draws: all of them for an empty term, the matching ones otherwise. */
  function Filtered(products: seq<ClientProduct>, input: string): (r: seq<ClientProduct>)
    ensures |r| <= |products|
  {
    var term := Lower(input);
    if term == "" then products else Retain(products, MatchesTerm(term))
  }

  /** An empty search shows the whole list. */
  lemma FilterEmptyShowsAll(products: seq<ClientProduct>)
    ensures Filtered(products, "") == products
  {
  }

  /** With a term, a product is shown exactly when one of its fields contains the lowercased term. */
  lemma FilterKeepsMatches(products: seq<ClientProduct>, input: string, p: ClientProduct)
    requires input != "" && p in products
    ensures p in Filtered(products, input) <==> ProductMatches(p, Lower(input))
  {
    assert |Lower(input)| == |input|;
    RetainMembers(products, MatchesTerm(Lower(input)), p);
  }

  /** Every product shown matches the term. */
  lemma FilterShowsOnlyMatches(products: seq<ClientProduct>, input: string)
    requires input != ""
    ensures forall i :: 0 <= i < |Filtered(products, input)| ==> ProductMatches(Filtered(products, input)[i], Lower(input))
  {
    assert |Lower(input)| == |input|;
  }

  /** The products shown keep the order of the list. */
  lemma FilterKeepsOrder(products: seq<ClientProduct>, input: string)
    ensures IsSubsequence(Filtered(products, input), products)
  {
    if Lower(input) == "" {
      SubsequenceOfItself(products);
    } else {
      RetainSubsequence(products, MatchesTerm(Lower(input)));
    }
  }

  lemma {:induction false} SubsequenceOfItself<T>(s: seq<T>)
    ensures IsSubsequence(s, s)
  {
    if s != [] {
      SubsequenceOfItself(s[1..]);
    }
  }

  /** Empty or missing fields never match, whatever the term. */
  lemma EmptyFieldsNeverMatch(p: ClientProduct, term: string)
    requires !Truthy(p.code)
    requires p.name.None? || p.name == Some("")
    requires p.categoryName.None? || p.categoryName == Some("")
    ensures !ProductMatches(p, term)
  {
  }

  /** The search ignores the case of the term. */
  lemma FilterIgnoresCase(products: seq<ClientProduct>, input: string)
    ensures Filtered(products, Lower(input)) == Filtered(products, input)
  {
    LowerIdempotent(input);
  }

  lemma LowerIdempotent(s: string)
    ensures Lower(Lower(s)) == Lower(s)
  {
    assert forall i :: 0 <= i < |s| ==> LowerChar(LowerChar(s[i])) == LowerChar(s[i]);
  }

  // ---------------------------------------------------------------- replies

  /** `showAlert(message, type)`. */
  datatype Alert = Alert(message: string, kind: string)

  /**
   * The outcome of `fetch('/api/products')`: the decoded list, a refusal
   * with the decoded body's `message` (`Undefined` when the body is not JSON),
   * or the message of the error thrown by the fetch or by the decoding.
   */
  datatype ListReply = Listed(items: seq<ClientProduct>) | Refused(message: Value) | Unreachable(error: string)

  const LoadErrorText: string := "Error al cargar los productos"
  const SaveErrorText: string := "Error al guardar el producto"

  /**
   * The alert text of a failure: a refusal throws `new Error(message ||
   * fallback)`, and the handler shows `error.message || fallback`.
   */
  function FailureText(refused: Value, fallback: string): (t: string)
    requires fallback != ""
    ensures Truthy(refused) ==> t == ToText(refused)
    ensures !Truthy(refused) ==> t == fallback
    ensures t != ""
  {
    var errorMessage := ToText(Or(refused, Str(fallback)));
    ValueOr(Some(errorMessage), fallback)
  }

  /** The alert text of a thrown error: its message, or the fallback for an empty one. */
  function ThrownText(error: string, fallback: string): (t: string)
    requires fallback != ""
    ensures error != "" ==> t == error
    ensures error == "" ==> t == fallback
  {
    ValueOr(Some(error), fallback)
  }

  /** The alerts a load shows: none for a list, the danger alert with the failure's text otherwise. */
  function LoadAlerts(reply: ListReply): (r: seq<Alert>)
    ensures reply.Listed? <==> r == []
    ensures reply.Refused? ==> r == [Alert(FailureText(reply.message, LoadErrorText), "danger")]
    ensures reply.Unreachable? ==> r == [Alert(ThrownText(reply.error, LoadErrorText), "danger")]
  {
    match reply
    case Listed(_) => []
    case Refused(message) => [Alert(FailureText(message, LoadErrorText), "danger")]
    case Unreachable(error) => [Alert(ThrownText(error, LoadErrorText), "danger")]
  }

  /** The reply to a save: the status and the decoded body's `message`, or the message of what was thrown. */
  datatype SaveReply = Answered(ok: bool, message: Value) | Broken(error: string)

  /** The success text: the reply's message, or `Producto creado/actualizado correctamente`. */
  function SavedText(isNew: bool, message: Value): (t: string)
    ensures Truthy(message) ==> t == ToText(message)
    ensures !Truthy(message) ==> t == "Producto " + (if isNew then "creado" else "actualizado") + " correctamente"
  {
    ToText(Or(message, Str("Producto " + (if isNew then "creado" else "actualizado") + " correctamente")))
  }

  /** The products page: the loaded list, the rows drawn, the alerts shown and the form's class list. */
  class ProductsPage {
    var products: seq<ClientProduct>
    var rows: seq<ProductRow>
    var alerts: seq<Alert>
    var formClasses: set<string>

    constructor ()
      ensures products == [] && rows == [] && alerts == [] && formClasses == {}
    {
      products, rows, alerts, formClasses := [], [], [], {};
    }

    /** `renderProducts(list)`: the placeholder for an empty list, else one row per product. */
    method RenderProducts(list: seq<ClientProduct>)
      modifies this`rows
      ensures rows == Rows(list)
    {
      if |list| == 0 {
        rows := [Placeholder];
        return;
      }
      rows := [];
      var i := 0;
      while i < |list|
        invariant 0 <= i <= |list|
        invariant rows == Lines(list[..i])
      {
        LinesSnoc(list, i);
        rows := rows + [RowOf(list[i])];
        i := i + 1;
      }
      assert list[..|list|] == list;
    }

    /** `filterProducts()`: the rows of the products the search input matches. */
    method FilterProducts(input: string)
      modifies this`rows
      ensures rows == Rows(Filtered(products, input))
    {
      var term := Lower(input);
      if term == "" {
        RenderProducts(products);
        return;
      }
      RenderProducts(Retain(products, MatchesTerm(term)));
    }

    /** `loadProducts()`: a list replaces the products and is drawn; a failure only adds an alert. */
    method LoadProducts(reply: ListReply)
      modifies this`products, this`rows, this`alerts
      ensures alerts == old(alerts) + LoadAlerts(reply)
      ensures reply.Listed? ==> products == reply.items && rows == Rows(reply.items)
      ensures !reply.Listed? ==> products == old(products) && rows == old(rows)
    {
      match reply
      case Listed(items) =>
        products := items;
        RenderProducts(products);
      case Refused(message) =>
        alerts := alerts + [Alert(FailureText(message, LoadErrorText), "danger")];
      case Unreachable(error) =>
        alerts := alerts + [Alert(ThrownText(error, LoadErrorText), "danger")];
    }

    /**
     * `handleFormSubmit`: an invalid form is only marked `was-validated`;
     * a valid one is sent, and a successful save reloads the list (`reload`
     * is that request's reply), shows the success alert and clears the mark;
     * a failed one shows the error alert. The request sent is returned.
     */
    method HandleFormSubmit(form: ProductForm, host: string, reply: SaveReply, reload: ListReply) returns (sent: Option<SaveRequest>)
      modifies this
      ensures !form.valid ==>
                sent.None? && formClasses == old(formClasses) + {"was-validated"} &&
                products == old(products) && rows == old(rows) && alerts == old(alerts)
      ensures form.valid ==> sent == Some(SaveRequestOf(host, form.productId, BodyOf(form)))
      ensures form.valid && reply.Answered? && reply.ok ==>
                formClasses == old(formClasses) - {"was-validated"} &&
                (reload.Listed? ==> products == reload.items && rows == Rows(reload.items)) &&
                (!reload.Listed? ==> products == old(products) && rows == old(rows)) &&
                alerts == old(alerts) + LoadAlerts(reload) + [Alert(SavedText(form.productId == "", reply.message), "success")]
      ensures form.valid && reply.Answered? && !reply.ok ==>
                formClasses == old(formClasses) && products == old(products) && rows == old(rows) &&
                alerts == old(alerts) + [Alert(FailureText(reply.message, SaveErrorText), "danger")]
      ensures form.valid && reply.Broken? ==>
                formClasses == old(formClasses) && products == old(products) && rows == old(rows) &&
                alerts == old(alerts) + [Alert(ThrownText(reply.error, SaveErrorText), "danger")]
    {
      if !form.valid {
        formClasses := formClasses + {"was-validated"};
        return None;
      }
      var isNew := form.productId == "";
      var request := SaveRequestOf(host, form.productId, BodyOf(form));
      sent := Some(request);
      match reply
      case Broken(error) =>
        alerts := alerts + [Alert(ThrownText(error, SaveErrorText), "danger")];
      case Answered(ok, message) =>
        if !ok {
          alerts := alerts + [Alert(FailureText(message, SaveErrorText), "danger")];
        } else {
          LoadProducts(reload);
          alerts := alerts + [Alert(SavedText(isNew, message), "success")];
          formClasses := formClasses - {"was-validated"};
        }
    }
  }
}
