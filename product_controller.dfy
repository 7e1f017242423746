/**
 * The product handlers of farmapp/controllers/productController.js: the
 * listing, the search and the two forms as read-only selections, and add,
 * update and delete as writes to the `products` table. Each write is a
 * function from the table to the page and the new table, and a method on the
 * database that performs the same steps in place.
 */
module ProductController {
  import opened Wrappers
  import opened Text
  import opened Seqs
  import opened Tables

  /** `req.flash(kind, message)`, shown on the page the redirect leads to. */
  datatype Flash = Flash(kind: string, message: string)

  /** A listed product: the row with `c.name as category_name` from the `LEFT JOIN`. */
  datatype ProductListing = ProductListing(product: ProductRow, categoryName: Option<string>)

  /**
   * What a product handler answers. `FormPage` is `products/form` rendered
   * with the category choices it is given. `Unanswered` is no reply at all:
   * the handler's promise rejects, and farmapp/start.js reacts to the
   * unhandled rejection by closing the server and exiting with status 1.
   */
  datatype ProductPage =
    | ListPage(title: string, products: seq<ProductListing>)
    | FormPage(status: nat, title: string, product: ProductFields, productId: Option<int>, isEdit: bool,
               categories: seq<CategoryRow>, error: Option<string>)
    | ErrorPage(status: nat, title: string, message: string)
    | Redirected(location: string, flash: Flash)
    | Found(products: seq<ProductListing>)
    | SearchFailed(status: nat, message: string)
    | Unanswered

  /**
   * How an add or an update fails, beyond the keys of the table. `AtWrite`:
   * the `INSERT` or `UPDATE` throws and the two `SELECT`s of the catch block
   * answer. `AtWriteAndCatch`: the write throws and so do those `SELECT`s,
   * which the catch block runs outside any `try` (a write refused by a key
   * under a lost connection is this case too).
   */
  datatype WriteFault = NoFault | AtWrite | AtWriteAndCatch

  /** A page together with the products table it leaves behind. */
  datatype Written = Written(page: ProductPage, rows: seq<ProductRow>)

  const AddError: string := "Error al agregar el producto. Por favor, intente nuevamente."
  const UpdateError: string := "Error al actualizar el producto. Por favor, intente nuevamente."
  const DeleteError: string := "No se pudo eliminar el producto. Asegúrese de que no esté relacionado con ventas."

  /** The empty `product: {}` of the add form. */
  const Blank: ProductFields := ProductFields(None, None, None, None, None, None, None, None, None, None)

  /**
   * The ten values the insert and the update bind: `category_id`,
   * `supplier_id` and `expiration_date` through `|| null`, the other seven as
   * submitted.
   */
  function Stored(body: ProductFields): (f: ProductFields)
    ensures f.categoryId.None? <==> !Filled(body.categoryId)
    ensures f.supplierId.None? <==> !Filled(body.supplierId)
    ensures f.expirationDate.None? <==> !Filled(body.expirationDate)
    ensures f.categoryId.Some? ==> f.categoryId == body.categoryId
    ensures f.supplierId.Some? ==> f.supplierId == body.supplierId
    ensures f.expirationDate.Some? ==> f.expirationDate == body.expirationDate
    ensures f.(categoryId := body.categoryId, supplierId := body.supplierId, expirationDate := body.expirationDate) == body
  {
    body.(categoryId := OrNull(body.categoryId), supplierId := OrNull(body.supplierId),
          expirationDate := OrNull(body.expirationDate))
  }

  /** `LEFT JOIN categories c ON p.category_id = c.id`: the name of the category referred to, or NULL. */
  function CategoryNameOf(categories: seq<CategoryRow>, p: ProductRow): (name: Option<string>)
    ensures name.None? ==> forall k :: 0 <= k < |categories| ==> !References(p, categories[k].id)
    ensures name.Some? ==>
              exists k :: 0 <= k < |categories| && References(p, categories[k].id) && categories[k].name == name.value
  {
    if categories == [] then None
    else if References(p, categories[0].id) then Some(categories[0].name)
    else
      var rest := CategoryNameOf(categories[1..], p);
      assert rest.Some? ==>
               exists k :: 0 <= k < |categories| && References(p, categories[k].id) && categories[k].name == rest.value
      by {
        if rest.Some? {
          var k :| 0 <= k < |categories[1..]| && References(p, categories[1..][k].id) && categories[1..][k].name == rest.value;
          assert categories[k + 1] == categories[1..][k];
        }
      }
      assert rest.None? ==> forall k :: 0 <= k < |categories| ==> !References(p, categories[k].id) by {
        if rest.None? {
          forall k | 0 <= k < |categories| ensures !References(p, categories[k].id) {
            if k > 0 {
              assert categories[k] == categories[1..][k - 1];
            }
          }
        }
      }
      rest
  }

  function ListingIn(categories: seq<CategoryRow>): ProductRow -> ProductListing {
    p => ProductListing(p, CategoryNameOf(categories, p))
  }

  /** `ORDER BY p.name` as MySQL sorts: a NULL name first, then by name. */
  predicate NameLe(a: Option<string>, b: Option<string>) {
    a.None? || (b.Some? && StrLe(a.value, b.value))
  }

  predicate ByName(a: ProductListing, b: ProductListing) {
    NameLe(a.product.fields.name, b.product.fields.name)
  }

  lemma ByNameTotal()
    ensures TotalPreorder(ByName)
  {
    forall a: ProductListing, b: ProductListing ensures ByName(a, b) || ByName(b, a) {
      if a.product.fields.name.Some? && b.product.fields.name.Some? {
        StrLeTotal(a.product.fields.name.value, b.product.fields.name.value);
      }
    }
    forall a: ProductListing, b: ProductListing, c: ProductListing | ByName(a, b) && ByName(b, c)
      ensures ByName(a, c)
    {
      if a.product.fields.name.Some? {
        StrLeTrans(a.product.fields.name.value, b.product.fields.name.value, c.product.fields.name.value);
      }
    }
  }

  /** The joined rows sorted by name: one entry per row, each with its own category name. */
  function Listings(rows: seq<ProductRow>, categories: seq<CategoryRow>): (r: seq<ProductListing>)
    ensures |r| == |rows|
    ensures forall i, j :: 0 <= i < j < |r| ==> NameLe(r[i].product.fields.name, r[j].product.fields.name)
    ensures forall i :: 0 <= i < |r| ==>
              exists k :: 0 <= k < |rows| && r[i] == ProductListing(rows[k], CategoryNameOf(categories, rows[k]))
    ensures forall k :: 0 <= k < |rows| ==> ProductListing(rows[k], CategoryNameOf(categories, rows[k])) in r
  {
    ByNameTotal();
    var r := OrderedImage(rows, ListingIn(categories), ByName);
    assert forall i, j :: 0 <= i < j < |r| ==> NameLe(r[i].product.fields.name, r[j].product.fields.name) by {
      forall i, j | 0 <= i < j < |r| ensures NameLe(r[i].product.fields.name, r[j].product.fields.name) {
        assert ByName(r[i], r[j]);
      }
    }
    assert forall k :: 0 <= k < |rows| ==> ProductListing(rows[k], CategoryNameOf(categories, rows[k])) in r by {
      forall k | 0 <= k < |rows| ensures ProductListing(rows[k], CategoryNameOf(categories, rows[k])) in r {
        assert ListingIn(categories)(rows[k]) in r;
      }
    }
    r
  }

  /** `ORDER BY name` over the categories. */
  predicate ByCategoryName(a: CategoryRow, b: CategoryRow) {
    StrLe(a.name, b.name)
  }

  lemma ByCategoryNameTotal()
    ensures TotalPreorder(ByCategoryName)
  {
    forall a: CategoryRow, b: CategoryRow ensures ByCategoryName(a, b) || ByCategoryName(b, a) {
      StrLeTotal(a.name, b.name);
    }
    forall a: CategoryRow, b: CategoryRow, c: CategoryRow | ByCategoryName(a, b) && ByCategoryName(b, c)
      ensures ByCategoryName(a, c)
    {
      StrLeTrans(a.name, b.name, c.name);
    }
  }

  /**
   * `SELECT * FROM categories ORDER BY name`, the choices every product form
   * is rendered with: the same rows, sorted by name.
   */
  function Choices(categories: seq<CategoryRow>): (r: seq<CategoryRow>)
    ensures multiset(r) == multiset(categories)
    ensures forall i, j :: 0 <= i < j < |r| ==> StrLe(r[i].name, r[j].name)
  {
    ByCategoryNameTotal();
    var r := SortBy(categories, ByCategoryName);
    SortBySorted(categories, ByCategoryName);
    assert forall i, j :: 0 <= i < j < |r| ==> StrLe(r[i].name, r[j].name) by {
      forall i, j | 0 <= i < j < |r| ensures StrLe(r[i].name, r[j].name) {
        assert ByCategoryName(r[i], r[j]);
      }
    }
    r
  }

  /** `listProducts`. */
  function List(rows: seq<ProductRow>, categories: seq<CategoryRow>, fault: bool): (p: ProductPage)
    ensures fault <==> p.ErrorPage?
    ensures fault ==> p == ErrorPage(500, "Error", "Error al cargar el inventario de productos.")
    ensures !fault ==> p == ListPage("Inventario de Productos", Listings(rows, categories))
  {
    if fault then ErrorPage(500, "Error", "Error al cargar el inventario de productos.")
    else ListPage("Inventario de Productos", Listings(rows, categories))
  }

  /** `showAddForm`: the empty form, or the error page when loading its choices fails. */
  function ShowAddForm(categories: seq<CategoryRow>, fault: bool): (p: ProductPage)
    ensures fault <==> p.ErrorPage?
    ensures fault ==> p == ErrorPage(500, "Error", "Error al cargar el formulario de producto.")
    ensures !fault ==> p == FormPage(200, "Agregar Producto", Blank, None, false, Choices(categories), None)
  {
    if fault then ErrorPage(500, "Error", "Error al cargar el formulario de producto.")
    else FormPage(200, "Agregar Producto", Blank, None, false, Choices(categories), None)
  }

  /** `showEditForm`: the stored row in the edit form, 404 for an unknown id. */
  function ShowEditForm(rows: seq<ProductRow>, categories: seq<CategoryRow>, id: int, fault: bool): (p: ProductPage)
    ensures fault ==> p == ErrorPage(500, "Error", "Error al cargar el formulario de edición.")
    ensures !fault && FindBy(rows, ProductIdOf, id) < 0 ==>
              p == ErrorPage(404, "No encontrado", "El producto solicitado no existe.")
    ensures p.FormPage? <==> !fault && FindBy(rows, ProductIdOf, id) >= 0
    ensures p.FormPage? ==>
              var k := FindBy(rows, ProductIdOf, id);
              p == FormPage(200, "Editar Producto", rows[k].fields, Some(id), true, Choices(categories), None)
  {
    if fault then ErrorPage(500, "Error", "Error al cargar el formulario de edición.")
    else
      var k := FindBy(rows, ProductIdOf, id);
      if k < 0 then ErrorPage(404, "No encontrado", "El producto solicitado no existe.")
      else FormPage(200, "Editar Producto", rows[k].fields, Some(rows[k].id), true, Choices(categories), None)
  }

  /** The `INSERT` of an add commits: it does not throw, and the barcode, when not NULL, is no row's yet. */
  predicate AddCommits(rows: seq<ProductRow>, body: ProductFields, fault: WriteFault) {
    fault == NoFault && !BarcodeHeld(rows, body.barcode)
  }

  /**
   * `addProduct`: the row is appended under the next id with the null
   * mapping and the client is sent to the listing; when the insert throws,
   * for a barcode some row already holds (a blank one included, since the
   * barcode is bound as submitted) or for any other reason, the form comes
   * back with the submitted body, the category choices and status 500; when
   * loading those choices throws as well, no reply is sent. The table is
   * kept in both cases.
   */
  function Add(rows: seq<ProductRow>, categories: seq<CategoryRow>, nextId: nat, body: ProductFields, fault: WriteFault)
    : (w: Written)
    ensures fault == AtWriteAndCatch ==> w == Written(Unanswered, rows)
    ensures fault != AtWriteAndCatch && !AddCommits(rows, body, fault) ==>
              w == Written(FormPage(500, "Agregar Producto", body, None, false, Choices(categories), Some(AddError)), rows)
    ensures AddCommits(rows, body, fault) ==>
              && w.page == Redirected("/products", Flash("success", "Producto agregado exitosamente"))
              && w.rows == rows + [ProductRow(nextId, Stored(body))]
  {
    if fault == AtWriteAndCatch then Written(Unanswered, rows)
    else if !AddCommits(rows, body, fault) then
      Written(FormPage(500, "Agregar Producto", body, None, false, Choices(categories), Some(AddError)), rows)
    else Written(Redirected("/products", Flash("success", "Producto agregado exitosamente")),
                 rows + [ProductRow(nextId, Stored(body))])
  }

  /** `UPDATE products SET ... WHERE id = ?`: every row with that id gets the new fields, the others stay. */
  function Overwrite(rows: seq<ProductRow>, id: int, f: ProductFields): (r: seq<ProductRow>)
    ensures |r| == |rows|
    ensures forall i :: 0 <= i < |rows| ==> r[i].id == rows[i].id
    ensures forall i :: 0 <= i < |rows| && rows[i].id != id ==> r[i] == rows[i]
    ensures forall i :: 0 <= i < |rows| && rows[i].id == id ==> r[i].fields == f
  {
    seq(|rows|, i requires 0 <= i < |rows| => if rows[i].id == id then rows[i].(fields := f) else rows[i])
  }

  /**
   * The `UPDATE` of an update commits: it does not throw, and the barcode,
   * when not NULL, is held by no row other than the one rewritten. An id no
   * row has rewrites nothing and so meets no key.
   */
  predicate UpdateCommits(rows: seq<ProductRow>, id: int, body: ProductFields, fault: WriteFault) {
    fault == NoFault && !(FindBy(rows, ProductIdOf, id) >= 0 && BarcodeHeldByOther(rows, body.barcode, id))
  }

  /**
   * `updateProduct`: the ten fields of the row with the id are rewritten
   * with the null mapping and the client is sent to the listing, also when
   * no row has that id; when the update throws, for a barcode another row
   * holds or for any other reason, the edit form comes back with the body,
   * the id, the category choices and status 500; when loading those choices
   * throws as well, no reply is sent. The table is kept in both cases.
   */
  function Update(rows: seq<ProductRow>, categories: seq<CategoryRow>, id: int, body: ProductFields, fault: WriteFault)
    : (w: Written)
    ensures fault == AtWriteAndCatch ==> w == Written(Unanswered, rows)
    ensures fault != AtWriteAndCatch && !UpdateCommits(rows, id, body, fault) ==>
              w == Written(FormPage(500, "Editar Producto", body, Some(id), true, Choices(categories), Some(UpdateError)), rows)
    ensures UpdateCommits(rows, id, body, fault) ==>
              && w.page == Redirected("/products", Flash("success", "Producto actualizado exitosamente"))
              && w.rows == Overwrite(rows, id, Stored(body))
  {
    if fault == AtWriteAndCatch then Written(Unanswered, rows)
    else if !UpdateCommits(rows, id, body, fault) then
      Written(FormPage(500, "Editar Producto", body, Some(id), true, Choices(categories), Some(UpdateError)), rows)
    else Written(Redirected("/products", Flash("success", "Producto actualizado exitosamente")),
                 Overwrite(rows, id, Stored(body)))
  }

  /**
   * `deleteProduct`: the rows with the id are deleted and success is
   * flashed; when the `DELETE` throws, for whatever reason, the table stays
   * and the error is flashed, in the controller's own wording about sales
   * that refer to the product. Both go to the listing.
   */
  function Delete(rows: seq<ProductRow>, id: int, fault: bool): (w: Written)
    ensures w.page.Redirected? && w.page.location == "/products"
    ensures fault ==> w == Written(Redirected("/products", Flash("error", DeleteError)), rows)
    ensures !fault ==>
              w == Written(Redirected("/products", Flash("success", "Producto eliminado exitosamente")),
                           Purge(rows, ProductIdOf, id))
  {
    if fault then Written(Redirected("/products", Flash("error", DeleteError)), rows)
    else Written(Redirected("/products", Flash("success", "Producto eliminado exitosamente")), Purge(rows, ProductIdOf, id))
  }

  /** An add keeps the ids and barcodes unique and the ids below the counter, which moves on only when a row was inserted. */
  lemma AddKeepsKeys(rows: seq<ProductRow>, categories: seq<CategoryRow>, nextId: nat, body: ProductFields,
                     fault: WriteFault)
    requires UniqueProducts(rows) && ProductIdsBelow(rows, nextId)
    ensures var w := Add(rows, categories, nextId, body, fault);
            UniqueProducts(w.rows) && ProductIdsBelow(w.rows, if AddCommits(rows, body, fault) then nextId + 1 else nextId)
  {
    var w := Add(rows, categories, nextId, body, fault);
    if AddCommits(rows, body, fault) {
      forall i, j | 0 <= i < j < |w.rows| && w.rows[i].fields.barcode.Some?
        ensures w.rows[i].fields.barcode != w.rows[j].fields.barcode
      {
        if j == |rows| {
          assert w.rows[i] == rows[i];
        }
      }
    }
  }

  /**
   * Adding a second product with a barcode some row already holds is
   * refused and stores nothing; the empty barcode of a blank field is such
   * a barcode too.
   */
  lemma SameBarcodeTwiceRefused(rows: seq<ProductRow>, categories: seq<CategoryRow>, nextId: nat,
                                 first: ProductFields, second: ProductFields)
    requires AddCommits(rows, first, NoFault)
    requires first.barcode.Some? && second.barcode == first.barcode
    ensures var w := Add(rows, categories, nextId, first, NoFault);
            Add(w.rows, categories, nextId + 1, second, NoFault) ==
              Written(FormPage(500, "Agregar Producto", second, None, false, Choices(categories), Some(AddError)), w.rows)
  {
    var w := Add(rows, categories, nextId, first, NoFault);
    assert w.rows[|rows|].fields.barcode == second.barcode;
  }

  /** The edit form of a newly added product shows the stored values, with empty references as NULL. */
  lemma AddThenEdit(rows: seq<ProductRow>, categories: seq<CategoryRow>, nextId: nat, body: ProductFields)
    requires ProductIdsBelow(rows, nextId) && !BarcodeHeld(rows, body.barcode)
    ensures var w := Add(rows, categories, nextId, body, NoFault);
            ShowEditForm(w.rows, categories, nextId, false) ==
              FormPage(200, "Editar Producto", Stored(body), Some(nextId), true, Choices(categories), None)
  {
    var w := Add(rows, categories, nextId, body, NoFault);
    var k := FindBy(w.rows, ProductIdOf, nextId);
    assert ProductIdOf(w.rows[|rows|]) == nextId;
    assert k == |rows|;
  }

  /** An update rewrites fields and keeps the ids of the rows: both keys survive. */
  lemma UpdateKeepsKeys(rows: seq<ProductRow>, categories: seq<CategoryRow>, id: int, body: ProductFields,
                        fault: WriteFault, nextId: nat)
    requires UniqueProducts(rows) && ProductIdsBelow(rows, nextId)
    ensures var w := Update(rows, categories, id, body, fault);
            UniqueProducts(w.rows) && ProductIdsBelow(w.rows, nextId)
  {
    var w := Update(rows, categories, id, body, fault);
    if UpdateCommits(rows, id, body, fault) {
      var b := Stored(body).barcode;
      assert b == body.barcode;
      forall i, j | 0 <= i < j < |w.rows| && w.rows[i].fields.barcode.Some?
        ensures w.rows[i].fields.barcode != w.rows[j].fields.barcode
      {
        if rows[i].id == id || rows[j].id == id {
          assert FindBy(rows, ProductIdOf, id) >= 0 by {
            var m := if rows[i].id == id then i else j;
            assert ProductIdOf(rows[m]) == id;
          }
          assert !BarcodeHeldByOther(rows, body.barcode, id);
        }
      }
    }
  }

  /** An update of an id no row has changes nothing and still reports success, whatever its barcode. */
  lemma UpdateUnknownId(rows: seq<ProductRow>, categories: seq<CategoryRow>, id: int, body: ProductFields)
    requires FindBy(rows, ProductIdOf, id) < 0
    ensures Update(rows, categories, id, body, NoFault) ==
              Written(Redirected("/products", Flash("success", "Producto actualizado exitosamente")), rows)
  {
    var r := Overwrite(rows, id, Stored(body));
    assert forall i :: 0 <= i < |rows| ==> r[i] == rows[i];
  }

  /** After an update the edit form of that product shows the submitted values with the null mapping. */
  lemma UpdateThenEdit(rows: seq<ProductRow>, categories: seq<CategoryRow>, id: int, body: ProductFields)
    requires FindBy(rows, ProductIdOf, id) >= 0 && !BarcodeHeldByOther(rows, body.barcode, id)
    ensures var w := Update(rows, categories, id, body, NoFault);
            ShowEditForm(w.rows, categories, id, false) ==
              FormPage(200, "Editar Producto", Stored(body), Some(id), true, Choices(categories), None)
  {
    var w := Update(rows, categories, id, body, NoFault);
    var k := FindBy(rows, ProductIdOf, id);
    var k' := FindBy(w.rows, ProductIdOf, id);
    assert ProductIdOf(w.rows[k]) == id;
    assert forall i :: 0 <= i < k ==> ProductIdOf(w.rows[i]) != id;
    assert k' == k;
  }

  /** With unique ids a delete removes exactly the row with that id, or nothing when there is none, and keeps the keys. */
  lemma DeleteExactlyOne(rows: seq<ProductRow>, id: int, nextId: nat)
    requires UniqueProducts(rows) && ProductIdsBelow(rows, nextId)
    ensures var k := FindBy(rows, ProductIdOf, id);
            var w := Delete(rows, id, false);
            && (k < 0 ==> w.rows == rows)
            && (k >= 0 ==> w.rows == rows[..k] + rows[k + 1..])
            && UniqueProducts(w.rows) && ProductIdsBelow(w.rows, nextId)
  {
    var k := FindBy(rows, ProductIdOf, id);
    assert Delete(rows, id, false).rows == Purge(rows, ProductIdOf, id);
    if k < 0 {
      PurgeMissing(rows, ProductIdOf, id);
    } else {
      OnlyRowWithId(rows, k);
      PurgeSingle(rows, ProductIdOf, id, k);
      RemoveAtKeepsKeys(rows, k, nextId);
    }
  }

  /** With unique ids, no other row carries the id of row `k`. */
  lemma OnlyRowWithId(rows: seq<ProductRow>, k: nat)
    requires UniqueProducts(rows) && k < |rows|
    ensures forall i :: 0 <= i < |rows| && i != k ==> ProductIdOf(rows[i]) != ProductIdOf(rows[k])
  {
  }

  /** Removing one row keeps the ids unique and below the counter. */
  lemma RemoveAtKeepsKeys(rows: seq<ProductRow>, k: nat, nextId: nat)
    requires UniqueProducts(rows) && ProductIdsBelow(rows, nextId) && k < |rows|
    ensures UniqueProducts(rows[..k] + rows[k + 1..]) && ProductIdsBelow(rows[..k] + rows[k + 1..], nextId)
  {
    var r := rows[..k] + rows[k + 1..];
    assert forall i :: 0 <= i < |r| ==> r[i] == rows[if i < k then i else i + 1];
  }

  /** The text the `LIKE` pattern is built from: `${q}` renders a missing term as `undefined`. */
  function SearchText(q: Option<string>): string {
    if q.None? then "undefined" else q.value
  }

  /** `p.name LIKE %q% OR p.barcode = q`; a NULL name or barcode matches nothing, nor does `barcode = NULL`. */
  predicate Hit(p: ProductRow, q: Option<string>) {
    (p.fields.name.Some? && Contains(p.fields.name.value, SearchText(q))) || (q.Some? && p.fields.barcode == q)
  }

  function HitBy(q: Option<string>): ProductRow -> bool {
    p => Hit(p, q)
  }

  /** `searchProducts`: the hits with their category names, sorted by name, as JSON. */
  function Search(rows: seq<ProductRow>, categories: seq<CategoryRow>, q: Option<string>, fault: bool): (p: ProductPage)
    ensures fault <==> p == SearchFailed(500, "Error al buscar productos")
    ensures p.Found? <==> !fault
  {
    if fault then SearchFailed(500, "Error al buscar productos")
    else Found(Listings(Retain(rows, HitBy(q)), categories))
  }

  /** A search lists only hits, each with its own category name, sorted by name. */
  lemma SearchOnlyHits(rows: seq<ProductRow>, categories: seq<CategoryRow>, q: Option<string>)
    ensures var r := Search(rows, categories, q, false).products;
            && (forall i :: 0 <= i < |r| ==>
                  exists k :: 0 <= k < |rows| && Hit(rows[k], q) &&
                              r[i] == ProductListing(rows[k], CategoryNameOf(categories, rows[k])))
            && (forall i, j :: 0 <= i < j < |r| ==> NameLe(r[i].product.fields.name, r[j].product.fields.name))
  {
    var kept := Retain(rows, HitBy(q));
    var r := Listings(kept, categories);
    assert Search(rows, categories, q, false).products == r;
    forall i | 0 <= i < |r|
      ensures exists k :: 0 <= k < |rows| && Hit(rows[k], q) &&
                          r[i] == ProductListing(rows[k], CategoryNameOf(categories, rows[k]))
    {
      var m :| 0 <= m < |kept| && r[i] == ProductListing(kept[m], CategoryNameOf(categories, kept[m]));
      var k := KeptFrom(rows, HitBy(q), m);
      assert Hit(rows[k], q);
    }
  }

  /** A search lists every hit. */
  lemma SearchAllHits(rows: seq<ProductRow>, categories: seq<CategoryRow>, q: Option<string>)
    ensures var r := Search(rows, categories, q, false).products;
            forall k :: 0 <= k < |rows| && Hit(rows[k], q) ==>
              ProductListing(rows[k], CategoryNameOf(categories, rows[k])) in r
  {
    var kept := Retain(rows, HitBy(q));
    var r := Listings(kept, categories);
    assert Search(rows, categories, q, false).products == r;
    forall k | 0 <= k < |rows| && Hit(rows[k], q)
      ensures ProductListing(rows[k], CategoryNameOf(categories, rows[k])) in r
    {
      RetainMembers(rows, HitBy(q), rows[k]);
      var m :| 0 <= m < |kept| && kept[m] == rows[k];
    }
  }

  /**
   * Without `q` the search looks for names containing `undefined` and
   * matches no barcode; with an empty `q` every named product is a hit.
   */
  lemma SearchTermEdgeCases(p: ProductRow)
    ensures Hit(p, None) <==> p.fields.name.Some? && Contains(p.fields.name.value, "undefined")
    ensures p.fields.name.Some? ==> Hit(p, Some(""))
  {
    if p.fields.name.Some? {
      assert IsPrefix("", p.fields.name.value);
    }
  }

  /** `addProduct` on the database: the steps of `Add`, appending the row in place. */
  method AddProduct(db: Database, body: ProductFields, fault: WriteFault) returns (p: ProductPage)
    requires db.Valid()
    modifies db`products, db`nextProductId
    ensures db.Valid()
    ensures var w := Add(old(db.products), db.categories, old(db.nextProductId), body, fault);
            p == w.page && db.products == w.rows
    ensures db.nextProductId ==
              if AddCommits(old(db.products), body, fault) then old(db.nextProductId) + 1 else old(db.nextProductId)
  {
    AddKeepsKeys(db.products, db.categories, db.nextProductId, body, fault);
    if fault == AtWriteAndCatch {
      return Unanswered;
    }
    if fault == AtWrite || BarcodeHeld(db.products, body.barcode) {
      return FormPage(500, "Agregar Producto", body, None, false, Choices(db.categories), Some(AddError));
    }
    db.products := db.products + [ProductRow(db.nextProductId, Stored(body))];
    db.nextProductId := db.nextProductId + 1;
    p := Redirected("/products", Flash("success", "Producto agregado exitosamente"));
  }

  /** `updateProduct` on the database: the steps of `Update`, rewriting the rows in place. */
  method UpdateProduct(db: Database, id: int, body: ProductFields, fault: WriteFault) returns (p: ProductPage)
    requires db.Valid()
    modifies db`products
    ensures db.Valid()
    ensures var w := Update(old(db.products), db.categories, id, body, fault);
            p == w.page && db.products == w.rows
  {
    UpdateKeepsKeys(db.products, db.categories, id, body, fault, db.nextProductId);
    if fault == AtWriteAndCatch {
      return Unanswered;
    }
    if fault == AtWrite || (FindBy(db.products, ProductIdOf, id) >= 0 && BarcodeHeldByOther(db.products, body.barcode, id)) {
      return FormPage(500, "Editar Producto", body, Some(id), true, Choices(db.categories), Some(UpdateError));
    }
    db.products := Overwrite(db.products, id, Stored(body));
    p := Redirected("/products", Flash("success", "Producto actualizado exitosamente"));
  }

  /** `deleteProduct` on the database: the steps of `Delete`, removing the row in place. */
  method DeleteProduct(db: Database, id: int, fault: bool) returns (p: ProductPage)
    requires db.Valid()
    modifies db`products
    ensures db.Valid()
    ensures var w := Delete(old(db.products), id, fault);
            p == w.page && db.products == w.rows
  {
    if fault {
      return Redirected("/products", Flash("error", DeleteError));
    }
    DeleteExactlyOne(db.products, id, db.nextProductId);
    db.products := Purge(db.products, ProductIdOf, id);
    p := Redirected("/products", Flash("success", "Producto eliminado exitosamente"));
  }
}
