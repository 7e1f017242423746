/**
 * The values the browser scripts under farmapp/public/js handle: fields of
 * decoded JSON replies and DOM attributes, with JavaScript's truthiness,
 * `String(v)`, the `||` operator and `<=` on numeric fields.
 */
module ClientValues {
  import opened Wrappers
  import opened Text

  /** A scalar as a script sees it; an absent property reads as `Undefined`. */
  datatype Value = Undefined | Null | Bool(b: bool) | Num(n: int) | Str(s: string)

  /** `if (v)`: false for `undefined`, `null`, `false`, `0` and `''`. */
  predicate Truthy(v: Value) {
    match v
    case Undefined => false
    case Null => false
    case Bool(b) => b
    case Num(n) => n != 0
    case Str(s) => s != ""
  }

  /** `String(v)`, which template literals and `textContent` apply. */
  function ToText(v: Value): (t: string)
    ensures v.Str? ==> t == v.s
    ensures !v.Str? ==> t != ""
    ensures Truthy(v) ==> t != ""
  {
    match v
    case Undefined => "undefined"
    case Null => "null"
    case Bool(b) => if b then "true" else "false"
    case Num(n) => IntToString(n)
    case Str(s) => s
  }

  /** `a || b`: the first operand when it is truthy, the second otherwise. */
  function Or(a: Value, b: Value): (r: Value)
    ensures Truthy(a) ==> r == a
    ensures !Truthy(a) ==> r == b
    ensures Truthy(r) <==> Truthy(a) || Truthy(b)
  {
    if Truthy(a) then a else b
  }

  /** `data-status="${b}"` read back with `=== 'true'` gives the boolean again; a number never does. */
  lemma BoolTextRoundTrip(v: Value)
    ensures v.Bool? ==> (ToText(v) == "true" <==> v.b)
    ensures v.Num? ==> ToText(v) != "true"
  {
    if v.Num? {
      var t := ToText(v);
      if v.n < 0 {
        assert t[0] == '-';
      } else {
        assert IsDigit(t[0]);
      }
    }
  }

  /** A numeric column of a decoded reply: a number, `null`, or absent (`undefined`). */
  datatype Numeric = Absent | NullNumber | Number(n: int)

  /** `Number(v)`: `null` is 0 and `undefined` is NaN, written `None`. */
  function NumberOf(v: Numeric): (r: Option<int>)
    ensures r.None? <==> v.Absent?
    ensures v.Number? ==> r == Some(v.n)
    ensures v.NullNumber? ==> r == Some(0)
  {
    match v
    case Absent => None
    case NullNumber => Some(0)
    case Number(n) => Some(n)
  }

  /** `a <= b` on two numeric fields: both are converted to numbers, and NaN compares false. */
  predicate NumLe(a: Numeric, b: Numeric) {
    NumberOf(a).Some? && NumberOf(b).Some? && NumberOf(a).value <= NumberOf(b).value
  }

  /** How `<=` treats a missing or null field. */
  lemma NumLeCases(a: Numeric, b: Numeric)
    ensures a.Number? && b.Number? ==> (NumLe(a, b) <==> a.n <= b.n)
    ensures a.Absent? || b.Absent? ==> !NumLe(a, b)
    ensures a.NullNumber? && b.Number? ==> (NumLe(a, b) <==> 0 <= b.n)
    ensures a.NullNumber? && b.NullNumber? ==> NumLe(a, b)
  {
  }
}
