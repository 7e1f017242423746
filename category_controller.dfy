/**
 * The category handlers of farmapp/controllers/categoryController.js: the
 * listing and the search as read-only selections, and create, update and
 * delete as guarded writes to the `categories` table. Each handler is a
 * function from the tables to the reply and the new table, and a method on
 * the database that performs the same steps in place.
 */
module CategoryController {
  import opened Wrappers
  import opened Text
  import opened Seqs
  import opened Web
  import opened Tables

  /** `req.body.name`, `req.body.description` and `req.body.status`. */
  datatype CategoryInput = CategoryInput(name: Option<string>, description: Option<string>, status: Json)

  /** A category as the replies show it: `status` as `stored === 1`, and its product count. */
  datatype CategoryView = CategoryView(id: nat, name: string, description: Option<string>, status: bool, productCount: nat)

  datatype CategoryReply =
    | Failure(status: nat, message: string)
    | Listing(categories: seq<CategoryView>)
    | Saved(status: nat, message: string, category: CategoryView)
    | Removed(message: string)

  /** A reply together with the categories table it leaves behind. */
  datatype Written = Written(reply: CategoryReply, rows: seq<CategoryRow>)

  const NameRequired: string := "El nombre es requerido"
  const DuplicateName: string := "Ya existe una categoría con este nombre"
  const NotFound: string := "Categoría no encontrada"
  const InUse: string := "No se puede eliminar la categoría porque tiene productos asociados"

  function View(c: CategoryRow, products: seq<ProductRow>): CategoryView {
    CategoryView(c.id, c.name, c.description, c.status == 1, ProductCount(products, c.id))
  }

  function ViewIn(products: seq<ProductRow>): CategoryRow -> CategoryView {
    c => View(c, products)
  }

  /** `ORDER BY c.name`. */
  predicate ByName(a: CategoryView, b: CategoryView) {
    StrLe(a.name, b.name)
  }

  lemma ByNameTotal()
    ensures TotalPreorder(ByName)
  {
    forall a: CategoryView, b: CategoryView ensures ByName(a, b) || ByName(b, a) {
      StrLeTotal(a.name, b.name);
    }
    forall a: CategoryView, b: CategoryView, c: CategoryView | ByName(a, b) && ByName(b, c)
      ensures ByName(a, c)
    {
      StrLeTrans(a.name, b.name, c.name);
    }
  }

  /**
   * `SELECT c.*, COUNT(p.id) ... GROUP BY c.id ORDER BY c.name`, then the
   * `status === 1` map: one entry per row, sorted by name, each the row with
   * its own product count.
   */
  function Listed(rows: seq<CategoryRow>, products: seq<ProductRow>): (r: seq<CategoryView>)
    ensures |r| == |rows|
    ensures forall i, j :: 0 <= i < j < |r| ==> StrLe(r[i].name, r[j].name)
    ensures forall i :: 0 <= i < |r| ==> exists k :: 0 <= k < |rows| && r[i] == View(rows[k], products)
    ensures forall k :: 0 <= k < |rows| ==> View(rows[k], products) in r
  {
    ByNameTotal();
    var r := OrderedImage(rows, ViewIn(products), ByName);
    SortedByName(r);
    ViewInIsView(products);
    r
  }

  lemma SortedByName(r: seq<CategoryView>)
    requires Sorted(r, ByName)
    ensures forall i, j :: 0 <= i < j < |r| ==> StrLe(r[i].name, r[j].name)
  {
    forall i, j | 0 <= i < j < |r| ensures StrLe(r[i].name, r[j].name) {
      assert ByName(r[i], r[j]);
    }
  }

  lemma ViewInIsView(products: seq<ProductRow>)
    ensures forall c :: ViewIn(products)(c) == View(c, products)
  {
  }

  /** `getAllCategories`. */
  function GetAll(rows: seq<CategoryRow>, products: seq<ProductRow>, fault: bool): (r: CategoryReply)
    ensures fault <==> r == Failure(500, "Error al cargar las categorías")
    ensures !fault ==> r == Listing(Listed(rows, products))
  {
    if fault then Failure(500, "Error al cargar las categorías") else Listing(Listed(rows, products))
  }

  /** `c.name LIKE %q% OR c.description LIKE %q%`; a NULL description matches nothing. */
  predicate Matches(c: CategoryRow, q: string) {
    Contains(c.name, q) || (c.description.Some? && Contains(c.description.value, q))
  }

  function MatchesTerm(q: string): CategoryRow -> bool {
    c => Matches(c, q)
  }

  /** `searchCategories`: a missing or empty term is refused before any query. */
  function Search(rows: seq<CategoryRow>, products: seq<ProductRow>, q: Option<string>, fault: bool): (r: CategoryReply)
    ensures !Filled(q) ==> r == Failure(400, "Término de búsqueda requerido")
    ensures Filled(q) && fault ==> r == Failure(500, "Error al buscar categorías")
    ensures r.Listing? <==> Filled(q) && !fault
  {
    if !Filled(q) then Failure(400, "Término de búsqueda requerido")
    else if fault then Failure(500, "Error al buscar categorías")
    else Listing(Listed(Retain(rows, MatchesTerm(q.value)), products))
  }

  /** A search lists only matching categories, each with its own product count. */
  lemma SearchOnlyMatches(rows: seq<CategoryRow>, products: seq<ProductRow>, q: string)
    requires q != ""
    ensures var r := Search(rows, products, Some(q), false).categories;
            forall i :: 0 <= i < |r| ==>
              exists k :: 0 <= k < |rows| && Matches(rows[k], q) && r[i] == View(rows[k], products)
  {
    var kept := Retain(rows, MatchesTerm(q));
    var r := Listed(kept, products);
    assert Search(rows, products, Some(q), false).categories == r;
    forall i | 0 <= i < |r|
      ensures exists k :: 0 <= k < |rows| && Matches(rows[k], q) && r[i] == View(rows[k], products)
    {
      var m :| 0 <= m < |kept| && r[i] == View(kept[m], products);
      var k := KeptFrom(rows, MatchesTerm(q), m);
      assert Matches(rows[k], q);
    }
  }

  /** A search lists every matching category. */
  lemma SearchAllMatches(rows: seq<CategoryRow>, products: seq<ProductRow>, q: string)
    requires q != ""
    ensures var r := Search(rows, products, Some(q), false).categories;
            forall k :: 0 <= k < |rows| && Matches(rows[k], q) ==> View(rows[k], products) in r
  {
    var kept := Retain(rows, MatchesTerm(q));
    var r := Listed(kept, products);
    assert Search(rows, products, Some(q), false).categories == r;
    forall k | 0 <= k < |rows| && Matches(rows[k], q) ensures View(rows[k], products) in r {
      RetainMembers(rows, MatchesTerm(q), rows[k]);
      var m :| 0 <= m < |kept| && kept[m] == rows[k];
    }
  }

  /** `status ? 1 : 0`. */
  function StoredStatus(status: Json): (s: int)
    ensures s == 1 <==> Truthy(status)
    ensures s == 0 <==> !Truthy(status)
  {
    if Truthy(status) then 1 else 0
  }

  predicate NameHeld(rows: seq<CategoryRow>, name: string) {
    exists i :: 0 <= i < |rows| && rows[i].name == name
  }

  /** `SELECT id FROM categories WHERE name = ? AND id != ?`. */
  predicate NameHeldByOther(rows: seq<CategoryRow>, name: string, id: int) {
    exists i :: 0 <= i < |rows| && rows[i].name == name && rows[i].id != id
  }

  /**
   * Where the queries of a write throw: nowhere, at or before the write (so
   * nothing is stored), or in a `SELECT` after the write has committed, so
   * the change stays although the reply is the 500 error.
   */
  datatype Fault = NoFault | BeforeWrite | AfterWrite

  const CreateError: string := "Error al crear la categoría"
  const UpdateError: string := "Error al actualizar la categoría"

  /** The `INSERT` of a create commits: the name is filled, free, and the insert does not throw. */
  predicate CreateCommits(rows: seq<CategoryRow>, input: CategoryInput, fault: Fault) {
    Filled(input.name) && fault != BeforeWrite && !NameHeld(rows, input.name.value)
  }

  /**
   * `createCategory`: an empty name is refused before any query; the insert
   * fails when the name is taken (the `UNIQUE` index answers `ER_DUP_ENTRY`);
   * otherwise the row is appended under the next id. The reply reports it
   * with its status as the input's truthiness and a product count of 0,
   * unless the `SELECT` that reads it back throws, which answers 500 with
   * the row stored.
   */
  function Create(rows: seq<CategoryRow>, nextId: nat, input: CategoryInput, fault: Fault): (w: Written)
    ensures !CreateCommits(rows, input, fault) ==> w.rows == rows
    ensures !Filled(input.name) ==> w.reply == Failure(400, NameRequired)
    ensures Filled(input.name) && fault == BeforeWrite ==> w.reply == Failure(500, CreateError)
    ensures Filled(input.name) && fault != BeforeWrite && NameHeld(rows, input.name.value) ==>
              w.reply == Failure(400, DuplicateName)
    ensures CreateCommits(rows, input, fault) ==>
              && w.rows == rows + [CategoryRow(nextId, input.name.value, OrNull(input.description), StoredStatus(input.status))]
              && (fault == AfterWrite ==> w.reply == Failure(500, CreateError))
              && (fault == NoFault ==>
                    w.reply == Saved(201, "Categoría creada exitosamente",
                                     CategoryView(nextId, input.name.value, OrNull(input.description), Truthy(input.status), 0)))
    ensures w.reply.Saved? <==> CreateCommits(rows, input, fault) && fault == NoFault
  {
    if !Filled(input.name) then Written(Failure(400, NameRequired), rows)
    else if fault == BeforeWrite then Written(Failure(500, CreateError), rows)
    else if NameHeld(rows, input.name.value) then Written(Failure(400, DuplicateName), rows)
    else
      var row := CategoryRow(nextId, input.name.value, OrNull(input.description), StoredStatus(input.status));
      var reply := if fault == AfterWrite then Failure(500, CreateError)
                   else Saved(201, "Categoría creada exitosamente", CategoryView(row.id, row.name, row.description, row.status == 1, 0));
      Written(reply, rows + [row])
  }

  /** The counter after a create: it moves on only when the insert committed. */
  function NextAfterCreate(rows: seq<CategoryRow>, nextId: nat, input: CategoryInput, fault: Fault): nat {
    if CreateCommits(rows, input, fault) then nextId + 1 else nextId
  }

  /** A create keeps the keys unique and the counter ahead of every id. */
  lemma CreateKeepsKeys(rows: seq<CategoryRow>, nextId: nat, input: CategoryInput, fault: Fault)
    requires UniqueCategories(rows) && CategoryIdsBelow(rows, nextId)
    ensures var w := Create(rows, nextId, input, fault);
            UniqueCategories(w.rows) && CategoryIdsBelow(w.rows, NextAfterCreate(rows, nextId, input, fault))
  {
    var w := Create(rows, nextId, input, fault);
    if CreateCommits(rows, input, fault) {
      var n := |rows|;
      forall i, j | 0 <= i < j < |w.rows| ensures w.rows[i].id != w.rows[j].id && w.rows[i].name != w.rows[j].name {
        if j == n {
          assert w.rows[i] == rows[i];
          assert !NameHeld(rows, input.name.value);
        }
      }
    }
  }

  /**
   * Creating a name a second time is refused, whatever the first create was
   * given besides; this holds too when the first create committed but was
   * answered 500, so a client retrying that error is told the name is taken.
   */
  lemma CreateTwiceRefused(rows: seq<CategoryRow>, nextId: nat, first: CategoryInput, second: CategoryInput,
                           fault: Fault, retry: Fault)
    requires CreateCommits(rows, first, fault)
    requires second.name == first.name && retry != BeforeWrite
    ensures var w := Create(rows, nextId, first, fault);
            Create(w.rows, nextId + 1, second, retry) == Written(Failure(400, DuplicateName), w.rows)
  {
    var w := Create(rows, nextId, first, fault);
    assert w.rows[|rows|].name == first.name.value;
  }

  /** The `UPDATE` of an update commits: the name is filled, the id known, the name no other row's, and no query throws before it. */
  predicate UpdateCommits(rows: seq<CategoryRow>, id: int, input: CategoryInput, fault: Fault) {
    Filled(input.name) && fault != BeforeWrite && FindBy(rows, CategoryIdOf, id) >= 0 &&
    !NameHeldByOther(rows, input.name.value, id)
  }

  /**
   * `updateCategory`: an empty name is refused first, then an unknown id,
   * then a name some other row holds; keeping its own name is allowed. An
   * update that commits rewrites the target row's name, description (empty
   * stored as NULL) and status, and reports it with its product count,
   * unless a `SELECT` after the write throws, which answers 500 with the
   * row rewritten.
   */
  function Update(rows: seq<CategoryRow>, products: seq<ProductRow>, id: int, input: CategoryInput, fault: Fault)
    : (w: Written)
    ensures !UpdateCommits(rows, id, input, fault) ==> w.rows == rows
    ensures !Filled(input.name) ==> w.reply == Failure(400, NameRequired)
    ensures Filled(input.name) && fault == BeforeWrite ==> w.reply == Failure(500, UpdateError)
    ensures Filled(input.name) && fault != BeforeWrite && FindBy(rows, CategoryIdOf, id) < 0 ==>
              w.reply == Failure(404, NotFound)
    ensures (Filled(input.name) && fault != BeforeWrite && FindBy(rows, CategoryIdOf, id) >= 0 &&
             NameHeldByOther(rows, input.name.value, id)) ==> w.reply == Failure(400, DuplicateName)
    ensures UpdateCommits(rows, id, input, fault) ==>
              var k := FindBy(rows, CategoryIdOf, id);
              var row := CategoryRow(rows[k].id, input.name.value, OrNull(input.description), StoredStatus(input.status));
              && w.rows == rows[k := row]
              && (fault == AfterWrite ==> w.reply == Failure(500, UpdateError))
              && (fault == NoFault ==>
                    && w.reply == Saved(200, "Categoría actualizada exitosamente", View(row, products))
                    && w.reply.category.productCount == ProductCount(products, id))
    ensures w.reply.Saved? <==> UpdateCommits(rows, id, input, fault) && fault == NoFault
  {
    if !Filled(input.name) then Written(Failure(400, NameRequired), rows)
    else if fault == BeforeWrite then Written(Failure(500, UpdateError), rows)
    else
      var k := FindBy(rows, CategoryIdOf, id);
      if k < 0 then Written(Failure(404, NotFound), rows)
      else if NameHeldByOther(rows, input.name.value, id) then Written(Failure(400, DuplicateName), rows)
      else
        var row := CategoryRow(rows[k].id, input.name.value, OrNull(input.description), StoredStatus(input.status));
        var reply := if fault == AfterWrite then Failure(500, UpdateError)
                     else Saved(200, "Categoría actualizada exitosamente", View(row, products));
        Written(reply, rows[k := row])
  }

  /** An update keeps the keys unique and every id below the counter. */
  lemma UpdateKeepsKeys(rows: seq<CategoryRow>, products: seq<ProductRow>, id: int, input: CategoryInput,
                        fault: Fault, nextId: nat)
    requires UniqueCategories(rows) && CategoryIdsBelow(rows, nextId)
    ensures var w := Update(rows, products, id, input, fault);
            UniqueCategories(w.rows) && CategoryIdsBelow(w.rows, nextId)
  {
    var w := Update(rows, products, id, input, fault);
    if UpdateCommits(rows, id, input, fault) {
      var k := FindBy(rows, CategoryIdOf, id);
      var row := w.rows[k];
      assert forall i :: 0 <= i < |rows| && i != k ==> rows[i].name != row.name by {
        forall i | 0 <= i < |rows| && i != k ensures rows[i].name != row.name {
          assert rows[i].id != id;
        }
      }
      ReplaceKeepsUnique(rows, k, row);
    }
  }

  /** Overwriting a row keeps the keys unique when its id stays and its name is no other row's. */
  lemma ReplaceKeepsUnique(rows: seq<CategoryRow>, k: nat, row: CategoryRow)
    requires UniqueCategories(rows) && k < |rows| && row.id == rows[k].id
    requires forall i :: 0 <= i < |rows| && i != k ==> rows[i].name != row.name
    ensures UniqueCategories(rows[k := row])
  {
  }

  /** Renaming a category to the name it already has, or to a free one, goes through. */
  lemma KeepOwnName(rows: seq<CategoryRow>, products: seq<ProductRow>, k: nat, input: CategoryInput)
    requires UniqueCategories(rows) && k < |rows|
    requires input.name == Some(rows[k].name) && rows[k].name != ""
    ensures Update(rows, products, rows[k].id, input, NoFault).reply.Saved?
  {
    assert FindBy(rows, CategoryIdOf, rows[k].id) >= 0;
    assert forall i :: 0 <= i < |rows| && rows[i].name == rows[k].name ==> i == k;
  }

  /**
   * `deleteCategory`: an unknown id is 404, a category some product refers
   * to is kept with a 400, and otherwise the rows with that id are deleted.
   */
  function Delete(rows: seq<CategoryRow>, products: seq<ProductRow>, id: int, fault: bool): (w: Written)
    ensures !w.reply.Removed? ==> w.rows == rows
    ensures fault ==> w.reply == Failure(500, "Error al eliminar la categoría")
    ensures !fault && FindBy(rows, CategoryIdOf, id) < 0 ==> w.reply == Failure(404, NotFound)
    ensures !fault && FindBy(rows, CategoryIdOf, id) >= 0 && ProductCount(products, id) > 0 ==>
              w.reply == Failure(400, InUse)
    ensures w.reply.Removed? <==>
              !fault && FindBy(rows, CategoryIdOf, id) >= 0 &&
              forall i :: 0 <= i < |products| ==> !References(products[i], id)
    ensures w.reply.Removed? ==>
              w.rows == Purge(rows, CategoryIdOf, id) && w.reply == Removed("Categoría eliminada exitosamente")
  {
    if fault then Written(Failure(500, "Error al eliminar la categoría"), rows)
    else if FindBy(rows, CategoryIdOf, id) < 0 then Written(Failure(404, NotFound), rows)
    else if ProductCount(products, id) > 0 then Written(Failure(400, InUse), rows)
    else Written(Removed("Categoría eliminada exitosamente"), Purge(rows, CategoryIdOf, id))
  }

  /** Removing one row keeps the keys unique and every id below the counter. */
  lemma RemoveAtKeepsKeys(rows: seq<CategoryRow>, k: nat, nextId: nat)
    requires UniqueCategories(rows) && CategoryIdsBelow(rows, nextId) && k < |rows|
    ensures UniqueCategories(rows[..k] + rows[k + 1..]) && CategoryIdsBelow(rows[..k] + rows[k + 1..], nextId)
  {
    var r := rows[..k] + rows[k + 1..];
    assert forall i :: 0 <= i < |r| ==> r[i] == rows[if i < k then i else i + 1];
  }

  /** With unique ids a delete removes exactly the target row, keeps the rest in order, and keeps the keys. */
  lemma DeleteExactlyOne(rows: seq<CategoryRow>, products: seq<ProductRow>, id: int, nextId: nat)
    requires UniqueCategories(rows) && CategoryIdsBelow(rows, nextId)
    requires Delete(rows, products, id, false).reply.Removed?
    ensures var k := FindBy(rows, CategoryIdOf, id);
            var w := Delete(rows, products, id, false);
            && w.rows == rows[..k] + rows[k + 1..]
            && UniqueCategories(w.rows) && CategoryIdsBelow(w.rows, nextId)
  {
    var k := FindBy(rows, CategoryIdOf, id);
    assert forall i :: 0 <= i < |rows| && i != k ==> CategoryIdOf(rows[i]) != id;
    PurgeSingle(rows, CategoryIdOf, id, k);
    RemoveAtKeepsKeys(rows, k, nextId);
  }

  /** Once a category is deleted, updating or deleting it again finds nothing. */
  lemma DeletedIsGone(rows: seq<CategoryRow>, products: seq<ProductRow>, id: int, input: CategoryInput, fault: Fault)
    requires Delete(rows, products, id, false).reply.Removed?
    requires Filled(input.name) && fault != BeforeWrite
    ensures var w := Delete(rows, products, id, false);
            && Update(w.rows, products, id, input, fault).reply == Failure(404, NotFound)
            && Delete(w.rows, products, id, false).reply == Failure(404, NotFound)
  {
    var w := Delete(rows, products, id, false);
    assert FindBy(w.rows, CategoryIdOf, id) < 0;
  }

  /** `createCategory` on the database: the steps of `Create`, appending the row in place. */
  method CreateCategory(db: Database, input: CategoryInput, fault: Fault) returns (r: CategoryReply)
    requires db.Valid()
    modifies db`categories, db`nextCategoryId
    ensures db.Valid()
    ensures var w := Create(old(db.categories), old(db.nextCategoryId), input, fault);
            && r == w.reply && db.categories == w.rows
            && db.nextCategoryId == NextAfterCreate(old(db.categories), old(db.nextCategoryId), input, fault)
  {
    CreateKeepsKeys(db.categories, db.nextCategoryId, input, fault);
    if !Filled(input.name) {
      return Failure(400, NameRequired);
    }
    if fault == BeforeWrite {
      return Failure(500, CreateError);
    }
    if NameHeld(db.categories, input.name.value) {
      return Failure(400, DuplicateName);
    }
    var row := CategoryRow(db.nextCategoryId, input.name.value, OrNull(input.description), StoredStatus(input.status));
    db.categories := db.categories + [row];
    db.nextCategoryId := db.nextCategoryId + 1;
    if fault == AfterWrite {
      return Failure(500, CreateError);
    }
    r := Saved(201, "Categoría creada exitosamente", CategoryView(row.id, row.name, row.description, row.status == 1, 0));
  }

  /** `updateCategory` on the database: the steps of `Update`, rewriting the row in place. */
  method UpdateCategory(db: Database, id: int, input: CategoryInput, fault: Fault) returns (r: CategoryReply)
    requires db.Valid()
    modifies db`categories
    ensures db.Valid()
    ensures var w := Update(old(db.categories), db.products, id, input, fault);
            r == w.reply && db.categories == w.rows
  {
    UpdateKeepsKeys(db.categories, db.products, id, input, fault, db.nextCategoryId);
    if !Filled(input.name) {
      return Failure(400, NameRequired);
    }
    if fault == BeforeWrite {
      return Failure(500, UpdateError);
    }
    var k := FindBy(db.categories, CategoryIdOf, id);
    if k < 0 {
      return Failure(404, NotFound);
    }
    if NameHeldByOther(db.categories, input.name.value, id) {
      return Failure(400, DuplicateName);
    }
    var row := CategoryRow(db.categories[k].id, input.name.value, OrNull(input.description), StoredStatus(input.status));
    db.categories := db.categories[k := row];
    if fault == AfterWrite {
      return Failure(500, UpdateError);
    }
    r := Saved(200, "Categoría actualizada exitosamente", View(row, db.products));
  }

  /** `deleteCategory` on the database: the steps of `Delete`, removing the row in place. */
  method DeleteCategory(db: Database, id: int, fault: bool) returns (r: CategoryReply)
    requires db.Valid()
    modifies db`categories
    ensures db.Valid()
    ensures var w := Delete(old(db.categories), db.products, id, fault);
            r == w.reply && db.categories == w.rows
  {
    if fault {
      return Failure(500, "Error al eliminar la categoría");
    }
    if FindBy(db.categories, CategoryIdOf, id) < 0 {
      return Failure(404, NotFound);
    }
    if ProductCount(db.products, id) > 0 {
      return Failure(400, InUse);
    }
    DeleteExactlyOne(db.categories, db.products, id, db.nextCategoryId);
    db.categories := Purge(db.categories, CategoryIdOf, id);
    r := Removed("Categoría eliminada exitosamente");
  }
}
