/**
 * The stock columns of the `products` table as the two low-stock endpoints
 * read them (farmapp/routes/api.js and farmapp/routes/products.js), and the
 * order `ORDER BY stock ASC` puts them in.
 */
module Inventory {
  import opened Wrappers
  import opened Seqs

  /**
   * A product row: `stock`, `min_stock` (read by routes/api.js) and
   * `min_stock_level` (read by routes/products.js), each possibly NULL.
   */
  datatype StockRow = StockRow(
    id: int,
    name: string,
    stock: Option<int>,
    minStock: Option<int>,
    minStockLevel: Option<int>,
    unit: Option<string>)

  /** `ORDER BY stock ASC` as MySQL sorts: NULL before every number, numbers ascending. */
  predicate StockLe(a: StockRow, b: StockRow) {
    a.stock.None? || (b.stock.Some? && a.stock.value <= b.stock.value)
  }

  lemma StockOrderTotal()
    ensures TotalPreorder(StockLe)
  {
  }

  /**
   * `WHERE keep ORDER BY stock ASC LIMIT 10`: the ten kept rows of lowest
   * stock, fewer when fewer are kept.
   */
  function LowestStock(rows: seq<StockRow>, keep: StockRow -> bool): (r: seq<StockRow>)
    ensures |r| == Min(10, |Retain(rows, keep)|)
    ensures multiset(r) <= multiset(Retain(rows, keep)) <= multiset(rows)
  {
    StockOrderTotal();
    Lowest(Retain(rows, keep), StockLe, 10)
  }

  /** Every listed row satisfies the `WHERE` condition. */
  lemma LowestStockKept(rows: seq<StockRow>, keep: StockRow -> bool)
    ensures forall i :: 0 <= i < |LowestStock(rows, keep)| ==> keep(LowestStock(rows, keep)[i])
  {
    var kept := Retain(rows, keep);
    var r := LowestStock(rows, keep);
    forall i | 0 <= i < |r| ensures keep(r[i]) {
      assert r[i] in multiset(kept);
      var k :| 0 <= k < |kept| && kept[k] == r[i];
    }
  }

  /** The listed rows are in `ORDER BY stock ASC` order. */
  lemma LowestStockOrdered(rows: seq<StockRow>, keep: StockRow -> bool)
    ensures forall i, j :: 0 <= i < j < |LowestStock(rows, keep)| ==>
              StockLe(LowestStock(rows, keep)[i], LowestStock(rows, keep)[j])
  {
    StockOrderTotal();
    var r := LowestStock(rows, keep);
    assert r == Lowest(Retain(rows, keep), StockLe, 10);
    assert Sorted(r, StockLe);
  }

  /** No kept row that was left out comes before a listed one. */
  lemma LowestStockLowest(rows: seq<StockRow>, keep: StockRow -> bool)
    ensures forall x, y ::
              x in multiset(Retain(rows, keep)) - multiset(LowestStock(rows, keep)) && y in LowestStock(rows, keep)
              ==> StockLe(y, x)
  {
    StockOrderTotal();
    assert LowestStock(rows, keep) == Lowest(Retain(rows, keep), StockLe, 10);
  }
}
