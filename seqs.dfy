/**
 * Generic list operations the application uses in place of SQL clauses or
 * JavaScript array methods: `filter`, `ORDER BY` (an insertion sort under
 * a total preorder) and `ORDER BY ... LIMIT k`.
 */
module Seqs {

  /** `xs.filter(keep)`. */
  function Retain<T>(xs: seq<T>, keep: T -> bool): (r: seq<T>)
    ensures |r| <= |xs|
    ensures forall i :: 0 <= i < |r| ==> keep(r[i])
    ensures multiset(r) <= multiset(xs)
  {
    if xs == [] then []
    else
      var rest := Retain(xs[1..], keep);
      assert xs == [xs[0]] + xs[1..];
      if keep(xs[0]) then [xs[0]] + rest else rest
  }

  /** `a` is `b` with some elements left out, the rest in their original order. */
  ghost predicate IsSubsequence<T>(a: seq<T>, b: seq<T>)
    decreases |b|
  {
    if a == [] then true
    else if b == [] then false
    else if a[0] == b[0] then IsSubsequence(a[1..], b[1..])
    else IsSubsequence(a, b[1..])
  }

  /** An element of `xs` is kept exactly when it satisfies `keep`. */
  lemma {:induction false} RetainMembers<T>(xs: seq<T>, keep: T -> bool, x: T)
    requires x in xs
    ensures x in Retain(xs, keep) <==> keep(x)
  {
    var r := Retain(xs, keep);
    if x in r {
      var j :| 0 <= j < |r| && r[j] == x;
    }
    if xs[0] != x {
      RetainMembers(xs[1..], keep, x);
    }
  }

  /** Whatever is retained satisfies `keep`. */
  lemma RetainKept<T>(xs: seq<T>, keep: T -> bool)
    ensures forall x :: x in Retain(xs, keep) ==> keep(x)
  {
    var r := Retain(xs, keep);
    forall x | x in r ensures keep(x) {
      var i :| 0 <= i < |r| && r[i] == x;
    }
  }

  /** The kept elements keep their original order. */
  lemma {:induction false} RetainSubsequence<T>(xs: seq<T>, keep: T -> bool)
    ensures IsSubsequence(Retain(xs, keep), xs)
  {
    if xs != [] {
      RetainSubsequence(xs[1..], keep);
      var rest := Retain(xs[1..], keep);
      if !keep(xs[0]) {
        SkipHead(rest, xs);
      }
    }
  }

  /** A subsequence of the tail is a subsequence of the whole. */
  lemma {:induction false} SkipHead<T>(a: seq<T>, b: seq<T>)
    requires b != [] && IsSubsequence(a, b[1..])
    ensures IsSubsequence(a, b)
    decreases |b|, 0
  {
    if a != [] && a[0] == b[0] {
      SubsequenceTail(a, b[1..]);
    }
  }

  /** Dropping the first element of a subsequence keeps it a subsequence. */
  lemma {:induction false} SubsequenceTail<T>(a: seq<T>, b: seq<T>)
    requires a != [] && IsSubsequence(a, b)
    ensures IsSubsequence(a[1..], b)
    decreases |b|, 1
  {
    if b != [] {
      if a[0] == b[0] {
        if a[1..] != [] {
          SkipHead(a[1..], b);
        }
      } else {
        SubsequenceTail(a, b[1..]);
        if a[1..] != [] {
          SkipHead(a[1..], b);
        }
      }
    }
  }

  /** The `i`-th kept element is kept and sits at some index of the input. */
  lemma KeptFrom<T>(xs: seq<T>, keep: T -> bool, i: nat) returns (k: nat)
    requires i < |Retain(xs, keep)|
    ensures k < |xs| && xs[k] == Retain(xs, keep)[i] && keep(xs[k])
  {
    var r := Retain(xs, keep);
    assert r[i] in multiset(xs);
    k :| 0 <= k < |xs| && xs[k] == r[i];
  }

  /** Each kept value occurs as often as in the input; any other value does not occur at all. */
  lemma {:induction false} RetainCount<T>(xs: seq<T>, keep: T -> bool, x: T)
    ensures multiset(Retain(xs, keep))[x] == if keep(x) then multiset(xs)[x] else 0
  {
    if xs != [] {
      RetainCount(xs[1..], keep, x);
      assert xs == [xs[0]] + xs[1..];
      assert multiset(xs) == multiset{xs[0]} + multiset(xs[1..]);
    }
  }

  /** Every element of `xs` satisfies `keep`: retaining changes nothing. */
  lemma {:induction false} RetainAll<T>(xs: seq<T>, keep: T -> bool)
    requires forall i :: 0 <= i < |xs| ==> keep(xs[i])
    ensures Retain(xs, keep) == xs
  {
    if xs != [] {
      RetainAll(xs[1..], keep);
    }
  }

  /** Filtering a concatenation filters each part. */
  lemma {:induction false} RetainConcat<T>(a: seq<T>, b: seq<T>, keep: T -> bool)
    ensures Retain(a + b, keep) == Retain(a, keep) + Retain(b, keep)
  {
    if a == [] {
      assert a + b == b;
    } else {
      assert (a + b)[0] == a[0];
      assert (a + b)[1..] == a[1..] + b;
      RetainConcat(a[1..], b, keep);
    }
  }

  /** `le` orders any two values and is transitive. */
  ghost predicate TotalPreorder<T(!new)>(le: (T, T) -> bool) {
    (forall a, b :: le(a, b) || le(b, a)) &&
    (forall a, b, c :: le(a, b) && le(b, c) ==> le(a, c))
  }

  ghost predicate Sorted<T>(s: seq<T>, le: (T, T) -> bool) {
    forall i, j :: 0 <= i < j < |s| ==> le(s[i], s[j])
  }

  /** Inserts `x` after every element of `s` that it does not precede. */
  function Insert<T>(x: T, s: seq<T>, le: (T, T) -> bool): (r: seq<T>)
    ensures multiset(r) == multiset(s) + multiset{x}
    ensures |r| == |s| + 1
  {
    if s == [] then [x]
    else if le(x, s[0]) && !le(s[0], x) then [x] + s
    else
      assert s == [s[0]] + s[1..];
      [s[0]] + Insert(x, s[1..], le)
  }

  lemma {:induction false} InsertSorted<T(!new)>(x: T, s: seq<T>, le: (T, T) -> bool)
    requires TotalPreorder(le) && Sorted(s, le)
    ensures Sorted(Insert(x, s, le), le)
  {
    if s != [] && !(le(x, s[0]) && !le(s[0], x)) {
      InsertSorted(x, s[1..], le);
      var r := Insert(x, s, le);
      assert le(s[0], x);
      forall j | 0 < j < |r| ensures le(s[0], r[j]) {
        assert r[j] in multiset(Insert(x, s[1..], le));
        assert r[j] in multiset(s[1..]) + multiset{x};
        if r[j] != x {
          assert r[j] in s[1..];
          var k :| 0 <= k < |s[1..]| && s[1..][k] == r[j];
          assert s[k + 1] == r[j];
        }
      }
    }
  }

  /**
   * `ORDER BY`: an insertion sort of `s` under `le`. Elements that sort
   * equal do not keep their input order, which `ORDER BY` does not promise
   * either.
   */
  function SortBy<T>(s: seq<T>, le: (T, T) -> bool): (r: seq<T>)
    ensures multiset(r) == multiset(s)
    ensures |r| == |s|
  {
    if s == [] then []
    else
      assert s == [s[0]] + s[1..];
      Insert(s[0], SortBy(s[1..], le), le)
  }

  lemma {:induction false} SortBySorted<T(!new)>(s: seq<T>, le: (T, T) -> bool)
    requires TotalPreorder(le)
    ensures Sorted(SortBy(s, le), le)
  {
    if s != [] {
      SortBySorted(s[1..], le);
      InsertSorted(s[0], SortBy(s[1..], le), le);
    }
  }

  function Min(a: int, b: int): int {
    if a <= b then a else b
  }

  /**
   * `ORDER BY ... LIMIT k`: the first `k` elements of the sorted list. The
   * result is sorted, is drawn from `xs`, and no element of `xs` left out
   * precedes one that was kept.
   */
  function Lowest<T(!new)>(xs: seq<T>, le: (T, T) -> bool, k: nat): (r: seq<T>)
    requires TotalPreorder(le)
    ensures |r| == Min(k, |xs|)
    ensures multiset(r) <= multiset(xs)
    ensures Sorted(r, le)
    ensures forall x, y :: x in multiset(xs) - multiset(r) && y in r ==> le(y, x)
  {
    var s := SortBy(xs, le);
    SortBySorted(xs, le);
    var n := Min(k, |s|);
    var r := s[..n];
    assert s == r + s[n..];
    assert multiset(xs) - multiset(r) == multiset(s[n..]);
    SortedPrefixFirst(s, le, n);
    r
  }

  /** In a sorted list, every element of a prefix comes before every element after it. */
  lemma SortedPrefixFirst<T>(s: seq<T>, le: (T, T) -> bool, n: nat)
    requires n <= |s| && Sorted(s, le)
    ensures forall x, y :: x in multiset(s[n..]) && y in s[..n] ==> le(y, x)
  {
    forall x, y | x in multiset(s[n..]) && y in s[..n] ensures le(y, x) {
      var i :| 0 <= i < |s[n..]| && s[n..][i] == x;
      var j :| 0 <= j < n && s[..n][j] == y;
      assert s[j] == y && s[n + i] == x;
    }
  }

  /** The image of each row under `f`, in the rows' order. */
  function Images<T, U>(xs: seq<T>, f: T -> U): (r: seq<U>)
    ensures |r| == |xs|
    ensures forall i :: 0 <= i < |xs| ==> r[i] == f(xs[i])
  {
    seq(|xs|, i requires 0 <= i < |xs| => f(xs[i]))
  }

  /**
   * `ORDER BY` over a projection of each row: the images of `xs` under `f`,
   * sorted by `le`. The result is a permutation of the images: every entry
   * is the image of a row and every row's image is listed.
   */
  function OrderedImage<T, U(!new)>(xs: seq<T>, f: T -> U, le: (U, U) -> bool): (r: seq<U>)
    requires TotalPreorder(le)
    ensures |r| == |xs|
    ensures multiset(r) == multiset(Images(xs, f))
    ensures Sorted(r, le)
    ensures forall i :: 0 <= i < |r| ==> exists k :: 0 <= k < |xs| && r[i] == f(xs[k])
    ensures forall k :: 0 <= k < |xs| ==> f(xs[k]) in r
  {
    var images := Images(xs, f);
    var r := SortBy(images, le);
    SortBySorted(images, le);
    assert forall i :: 0 <= i < |r| ==> exists k :: 0 <= k < |xs| && r[i] == f(xs[k]) by {
      forall i | 0 <= i < |r| ensures exists k :: 0 <= k < |xs| && r[i] == f(xs[k]) {
        assert r[i] in multiset(images);
        var k :| 0 <= k < |images| && images[k] == r[i];
      }
    }
    assert forall k :: 0 <= k < |xs| ==> f(xs[k]) in r by {
      forall k | 0 <= k < |xs| ensures f(xs[k]) in r {
        assert images[k] in multiset(r);
      }
    }
    r
  }
}
