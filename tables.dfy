/**
 * The `categories` and `products` tables that the controllers under
 * farmapp/controllers read and write, held in memory: rows, the lookups the
 * controllers' `WHERE id = ?` and `category_id = ?` clauses perform, and the
 * database object whose table fields the write handlers reassign.
 */
module Tables {
  import opened Wrappers
  import opened Text
  import opened Seqs

  /** A row of `categories`; `status` holds the 1 or 0 the controller writes. */
  datatype CategoryRow = CategoryRow(id: nat, name: string, description: Option<string>, status: int)

  /**
   * The ten columns the product form submits, each as the submitted text or
   * missing (`undefined`, which the driver sends as NULL).
   */
  datatype ProductFields = ProductFields(
    name: Option<string>,
    description: Option<string>,
    categoryId: Option<string>,
    barcode: Option<string>,
    price: Option<string>,
    costPrice: Option<string>,
    stockQuantity: Option<string>,
    minStockLevel: Option<string>,
    supplierId: Option<string>,
    expirationDate: Option<string>)

  datatype ProductRow = ProductRow(id: nat, fields: ProductFields)

  /** `v || null` on optional text: missing and empty text are both stored as NULL. */
  function OrNull(v: Option<string>): (r: Option<string>)
    ensures r.None? <==> v.None? || v == Some("")
    ensures r.Some? ==> r == v
  {
    if v == Some("") then None else v
  }

  /** The negation of `!v` on optional text: the value is present and not empty. */
  predicate Filled(v: Option<string>) {
    v.Some? && v.value != ""
  }

  function CategoryIdOf(c: CategoryRow): int {
    c.id
  }

  function ProductIdOf(p: ProductRow): int {
    p.id
  }

  /** `SELECT ... WHERE id = ?`: the position of the first row with that id, or -1 when there is none. */
  function FindBy<T>(rows: seq<T>, idOf: T -> int, id: int): (k: int)
    ensures -1 <= k < |rows|
    ensures k >= 0 ==> idOf(rows[k]) == id && forall i :: 0 <= i < k ==> idOf(rows[i]) != id
    ensures k < 0 ==> forall i :: 0 <= i < |rows| ==> idOf(rows[i]) != id
  {
    if rows == [] then -1
    else if idOf(rows[0]) == id then 0
    else
      var k := FindBy(rows[1..], idOf, id);
      assert forall i :: 1 <= i < |rows| ==> rows[i] == rows[1..][i - 1];
      if k < 0 then -1 else k + 1
  }

  function KeepOthers<T>(idOf: T -> int, id: int): T -> bool {
    x => idOf(x) != id
  }

  /** `DELETE ... WHERE id = ?`: every row with another id, in the table's order. */
  function Purge<T>(rows: seq<T>, idOf: T -> int, id: int): (r: seq<T>)
    ensures |r| <= |rows|
    ensures forall i :: 0 <= i < |r| ==> idOf(r[i]) != id
    ensures forall k :: 0 <= k < |rows| && idOf(rows[k]) != id ==> rows[k] in r
    ensures multiset(r) <= multiset(rows)
  {
    var r := Retain(rows, KeepOthers(idOf, id));
    assert forall k :: 0 <= k < |rows| && idOf(rows[k]) != id ==> rows[k] in r by {
      forall k | 0 <= k < |rows| && idOf(rows[k]) != id ensures rows[k] in r {
        RetainMembers(rows, KeepOthers(idOf, id), rows[k]);
      }
    }
    r
  }

  /** With the id held by row `k` alone, the delete removes exactly that row. */
  lemma PurgeSingle<T>(rows: seq<T>, idOf: T -> int, id: int, k: nat)
    requires k < |rows| && idOf(rows[k]) == id
    requires forall i :: 0 <= i < |rows| && i != k ==> idOf(rows[i]) != id
    ensures Purge(rows, idOf, id) == rows[..k] + rows[k + 1..]
  {
    var keep := KeepOthers(idOf, id);
    var a, b := rows[..k], rows[k + 1..];
    assert forall i :: 0 <= i < |a| ==> keep(a[i]) by {
      forall i | 0 <= i < |a| ensures keep(a[i]) {
        assert a[i] == rows[i];
      }
    }
    assert forall i :: 0 <= i < |b| ==> keep(b[i]) by {
      forall i | 0 <= i < |b| ensures keep(b[i]) {
        assert b[i] == rows[k + 1 + i];
      }
    }
    RetainWithout(a, rows[k], b, keep);
    assert rows == a + [rows[k]] + b;
  }

  /** Dropping the one rejected element between two runs of kept ones. */
  lemma RetainWithout<T>(a: seq<T>, x: T, b: seq<T>, keep: T -> bool)
    requires forall i :: 0 <= i < |a| ==> keep(a[i])
    requires forall i :: 0 <= i < |b| ==> keep(b[i])
    requires !keep(x)
    ensures Retain(a + [x] + b, keep) == a + b
  {
    assert [x][1..] == [];
    assert Retain([x], keep) == Retain([], keep) == [];
    RetainAll(a, keep);
    RetainConcat(a, [x], keep);
    assert Retain(a + [x], keep) == a + [] == a;
    RetainAll(b, keep);
    RetainConcat(a + [x], b, keep);
  }

  /** With no row holding the id, the delete changes nothing. */
  lemma PurgeMissing<T>(rows: seq<T>, idOf: T -> int, id: int)
    requires FindBy(rows, idOf, id) < 0
    ensures Purge(rows, idOf, id) == rows
  {
    var keep := KeepOthers(idOf, id);
    forall i | 0 <= i < |rows| ensures keep(rows[i]) {
    }
    RetainAll(rows, keep);
  }

  /**
   * `category_id = id`. The model keeps the form text as bound and reads it
   * as the integer its leading digits spell; the INT column itself stores
   * the text converted, which differs for fractions (`'1.5'` is stored as 2)
   * and for text MySQL refuses.
   */
  predicate References(p: ProductRow, id: int) {
    p.fields.categoryId.Some? && ParseInt(p.fields.categoryId.value) == Some(id)
  }

  function ReferencesTo(id: int): ProductRow -> bool {
    p => References(p, id)
  }

  /** `SELECT COUNT(*) FROM products WHERE category_id = ?`: zero exactly when no product refers to the category. */
  function ProductCount(products: seq<ProductRow>, id: int): (n: nat)
    ensures n <= |products|
    ensures n == 0 <==> forall i :: 0 <= i < |products| ==> !References(products[i], id)
  {
    var refs := Retain(products, ReferencesTo(id));
    assert refs != [] ==> exists i :: 0 <= i < |products| && References(products[i], id) by {
      if refs != [] {
        assert refs[0] in multiset(products);
        var i :| 0 <= i < |products| && products[i] == refs[0];
        assert ReferencesTo(id)(refs[0]);
      }
    }
    assert (exists i :: 0 <= i < |products| && References(products[i], id)) ==> refs != [] by {
      if exists i :: 0 <= i < |products| && References(products[i], id) {
        var i :| 0 <= i < |products| && References(products[i], id);
        RetainMembers(products, ReferencesTo(id), products[i]);
      }
    }
    |refs|
  }

  /** The primary key and the `UNIQUE` name of `categories`. */
  predicate UniqueCategories(rows: seq<CategoryRow>) {
    forall i, j :: 0 <= i < j < |rows| ==> rows[i].id != rows[j].id && rows[i].name != rows[j].name
  }

  /** The primary key and the `UNIQUE` barcode of `products`; NULL barcodes may repeat. */
  predicate UniqueProducts(rows: seq<ProductRow>) {
    forall i, j :: 0 <= i < j < |rows| ==>
      rows[i].id != rows[j].id && (rows[i].fields.barcode.Some? ==> rows[i].fields.barcode != rows[j].fields.barcode)
  }

  /** Some row holds the barcode `b`; a NULL barcode collides with nothing. */
  predicate BarcodeHeld(rows: seq<ProductRow>, b: Option<string>) {
    b.Some? && exists i :: 0 <= i < |rows| && rows[i].fields.barcode == b
  }

  /** Some row other than those with id `id` holds the barcode `b`. */
  predicate BarcodeHeldByOther(rows: seq<ProductRow>, b: Option<string>, id: int) {
    b.Some? && exists i :: 0 <= i < |rows| && rows[i].fields.barcode == b && rows[i].id != id
  }

  /** `AUTO_INCREMENT`: every id handed out so far is below the next one. */
  predicate CategoryIdsBelow(rows: seq<CategoryRow>, next: nat) {
    forall i :: 0 <= i < |rows| ==> rows[i].id < next
  }

  predicate ProductIdsBelow(rows: seq<ProductRow>, next: nat) {
    forall i :: 0 <= i < |rows| ==> rows[i].id < next
  }

  /** The database the handlers write through: the two tables and their auto-increment counters. */
  class Database {
    var categories: seq<CategoryRow>
    var products: seq<ProductRow>
    var nextCategoryId: nat
    var nextProductId: nat

    /** The keys the schema declares hold, and the counters are ahead of every id. */
    predicate Valid()
      reads this
    {
      && UniqueCategories(categories) && CategoryIdsBelow(categories, nextCategoryId)
      && UniqueProducts(products) && ProductIdsBelow(products, nextProductId)
    }

    constructor ()
      ensures categories == [] && products == []
      ensures nextCategoryId == 1 && nextProductId == 1
      ensures Valid()
    {
      categories := [];
      products := [];
      nextCategoryId := 1;
      nextProductId := 1;
    }
  }
}
