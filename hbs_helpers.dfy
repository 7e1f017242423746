/**
 * The template helpers of farmapp/config/hbs-helpers.js that decide
 * something: the stock classification, word-boundary truncation, list
 * membership and strict equality. A block helper's answer is which of its
 * two branches it renders.
 */
module HbsHelpers {
  import opened Wrappers
  import opened Text

  /** `options.fn(this)` or `options.inverse(this)`. */
  datatype Block = Fn | Inverse

  /** `eq`, and `isEqual` and `hasRole`, which are the same test: `a === b` picks the main branch. */
  function Eq<T(==)>(a: T, b: T): (r: Block)
    ensures r == Fn <==> a == b
  {
    if a == b then Fn else Inverse
  }

  /** `minStock || 10`: a missing minimum or a minimum of 0 counts as 10. */
  function Threshold(minStock: Option<int>): (t: int)
    ensures minStock.None? || minStock == Some(0) ==> t == 10
    ensures minStock.Some? && minStock.value != 0 ==> t == minStock.value
  {
    if minStock.None? || minStock.value == 0 then 10 else minStock.value
  }

  /** `isLowStock`: the main branch exactly when the stock is at or below the threshold. */
  function IsLowStock(stock: int, minStock: Option<int>): (r: Block)
    ensures r == Fn <==> stock <= Threshold(minStock)
  {
    if stock <= Threshold(minStock) then Fn else Inverse
  }

  /** `getStockStatus`: out of stock, at or below the threshold, or above it. */
  function GetStockStatus(stock: int, minStock: Option<int>): (s: string)
    ensures s == "danger" <==> stock <= 0
    ensures s == "warning" <==> 0 < stock <= Threshold(minStock)
    ensures s == "success" <==> 0 < stock && Threshold(minStock) < stock
  {
    if stock <= 0 then "danger"
    else if stock <= Threshold(minStock) then "warning"
    else "success"
  }

  /** The badge is green exactly when the stock is positive and `isLowStock` renders its inverse branch. */
  lemma SuccessIsNotLow(stock: int, minStock: Option<int>)
    ensures GetStockStatus(stock, minStock) == "success" <==> stock > 0 && IsLowStock(stock, minStock) == Inverse
    ensures IsLowStock(stock, minStock) == Fn ==> GetStockStatus(stock, minStock) != "success"
  {
  }

  /** A minimum of 0 behaves as no minimum at all. */
  lemma ZeroMinimumFallsBack(stock: int)
    ensures IsLowStock(stock, Some(0)) == IsLowStock(stock, None) == (if stock <= 10 then Fn else Inverse)
    ensures GetStockStatus(stock, Some(0)) == GetStockStatus(stock, None)
  {
  }

  /**
   * `truncate(str, len)`: a string no longer than `len`, and the empty
   * string, are returned as they are.
   * A longer one is cut just before the last space within its first `len`
   * characters, or at `len` characters when that would leave nothing, and
   * `...` is appended.
   */
  function Truncate(str: string, len: int): (r: string)
    ensures |str| <= len || str == [] ==> r == str
    ensures |str| > len && str != [] ==>
              var n := if len < 0 then 0 else len;
              && |r| >= 3 && r[|r| - 3..] == "..."
              && var p := r[..|r| - 3];
              && IsPrefix(p, str) && |p| <= n
              && ((|p| == n && forall j :: 0 < j < n ==> str[j] != ' ') ||
                  (0 < |p| < n && str[|p|] == ' ' && forall j :: |p| < j < n ==> str[j] != ' '))
  {
    if |str| > len && |str| > 0 then
      var n := if len < 0 then 0 else len;
      var head := str[..n];
      var k := LastIndexOf(head, ' ');
      var cut := if k > 0 then str[..k] else [];
      var p := if |cut| > 0 then cut else head;
      assert (p + "...")[..|p|] == p;
      assert k <= 0 ==> forall j :: 0 < j < n ==> str[j] != ' ' by {
        if k <= 0 {
          forall j | 0 < j < n ensures str[j] != ' ' {
            assert head[j] == str[j];
          }
        }
      }
      assert k > 0 ==> forall j :: k < j < n ==> str[j] != ' ' by {
        if k > 0 {
          forall j | k < j < n ensures str[j] != ' ' {
            assert head[j] == str[j];
          }
        }
      }
      p + "..."
    else str
  }

  /** A truncated string is never longer than `len` plus the three dots. */
  lemma TruncateBound(str: string, len: int)
    ensures |Truncate(str, len)| <= if |str| <= len || str == [] then |str| else (if len < 0 then 0 else len) + 3
  {
  }

  /**
   * `inArray`: the main branch exactly when an array is given and holds the
   * value; without an array, the inverse.
   */
  function InArray<T(==)>(value: T, list: Option<seq<T>>): (r: Block)
    ensures r == Fn <==> list.Some? && value in list.value
    ensures list.None? ==> r == Inverse
  {
    if list.Some? && value in list.value then Fn else Inverse
  }
}
