/**
 * The string primitives of JavaScript that the application relies on:
 * `includes`, `startsWith`, `lastIndexOf`, `toLowerCase`, `trim`,
 * `split` on one character, a global one-character `replace`, decimal
 * rendering of numbers, `parseInt(s, 10)` and `parseInt(s)` with no radix.
 */
module Text {
  import opened Wrappers

  /** ECMAScript's StrWhiteSpaceChar: white space and line terminators, as `trim` and `parseInt` skip them. */
  predicate IsJsSpace(c: char) {
    c == '\U{9}' || c == '\U{A}' || c == '\U{B}' || c == '\U{C}' || c == '\U{D}' ||
    c == ' ' || c == '\U{A0}' || c == '\U{1680}' || ('\U{2000}' <= c <= '\U{200A}') ||
    c == '\U{2028}' || c == '\U{2029}' || c == '\U{202F}' || c == '\U{205F}' || c == '\U{3000}' ||
    c == '\U{FEFF}'
  }

  predicate IsDigit(c: char) {
    '0' <= c <= '9'
  }

  predicate AllDigits(s: string) {
    forall i :: 0 <= i < |s| ==> IsDigit(s[i])
  }

  /** `toLowerCase` on one character, for the ASCII letters. */
  function LowerChar(c: char): (r: char)
    ensures 'A' <= c <= 'Z' ==> r as int == c as int + 32
    ensures !('A' <= c <= 'Z') ==> r == c
  {
    if 'A' <= c <= 'Z' then (c as int + 32) as char else c
  }

  /** `toLowerCase`, restricted to the ASCII letters. */
  function Lower(s: string): (r: string)
    ensures |r| == |s|
    ensures forall i :: 0 <= i < |s| ==> r[i] == LowerChar(s[i])
  {
    if s == [] then [] else [LowerChar(s[0])] + Lower(s[1..])
  }

  /** `s.startsWith(p)`. */
  predicate IsPrefix(p: string, s: string) {
    |p| <= |s| && s[..|p|] == p
  }

  /** `s.includes(t)`: `t` starts at some position of `s`. */
  predicate Contains(s: string, t: string)
    decreases |s|
  {
    IsPrefix(t, s) || (s != [] && Contains(s[1..], t))
  }

  /** An occurrence of `t` at position `i` of `s` is found by `includes`. */
  lemma {:induction false} ContainsAtIndex(s: string, t: string, i: nat)
    requires i <= |s| && IsPrefix(t, s[i..])
    ensures Contains(s, t)
    decreases i
  {
    if i > 0 {
      assert s[1..][i - 1..] == s[i..];
      ContainsAtIndex(s[1..], t, i - 1);
    }
  }

  /** `s.lastIndexOf(c)`: the last position of `c` in `s`, or -1. */
  function LastIndexOf(s: string, c: char): (k: int)
    ensures -1 <= k < |s|
    ensures k >= 0 ==> s[k] == c
    ensures forall j :: k < j < |s| ==> s[j] != c
  {
    if s == [] then -1
    else if s[|s| - 1] == c then |s| - 1
    else LastIndexOf(s[..|s| - 1], c)
  }

  /** Drops the leading white space of `s`. */
  function TrimStart(s: string): (r: string)
    ensures |r| <= |s| && r == s[|s| - |r|..]
    ensures forall i :: 0 <= i < |s| - |r| ==> IsJsSpace(s[i])
    ensures r != [] ==> !IsJsSpace(r[0])
  {
    if s != [] && IsJsSpace(s[0]) then TrimStart(s[1..]) else s
  }

  /** Drops the trailing white space of `s`. */
  function TrimEnd(s: string): (r: string)
    ensures |r| <= |s| && r == s[..|r|]
    ensures forall i :: |r| <= i < |s| ==> IsJsSpace(s[i])
    ensures r != [] ==> !IsJsSpace(r[|r| - 1])
  {
    if s != [] && IsJsSpace(s[|s| - 1]) then TrimEnd(s[..|s| - 1]) else s
  }

  /** `s[a..b]` is `r`, and everything of `s` outside that slice is white space. */
  predicate FramedBySpace(s: string, r: string, a: int, b: int) {
    && 0 <= a <= b <= |s| && r == s[a..b]
    && (forall i :: 0 <= i < a ==> IsJsSpace(s[i]))
    && (forall i :: b <= i < |s| ==> IsJsSpace(s[i]))
  }

  /** `s.trim()`: `s` is the result framed by white space, and the result neither starts nor ends with white space. */
  function Trim(s: string): (r: string)
    ensures exists a, b :: FramedBySpace(s, r, a, b)
    ensures r != [] ==> !IsJsSpace(r[0]) && !IsJsSpace(r[|r| - 1])
  {
    var t := TrimStart(s);
    var r := TrimEnd(t);
    var a, b := |s| - |t|, |s| - |t| + |r|;
    assert r == s[a..b];
    assert forall i :: b <= i < |s| ==> IsJsSpace(s[i]) by {
      forall i | b <= i < |s| ensures IsJsSpace(s[i]) {
        assert s[i] == t[i - a];
      }
    }
    assert FramedBySpace(s, r, a, b);
    r
  }

  /** `s.split(sep)` for a one-character separator. */
  function Split(s: string, sep: char): (parts: seq<string>)
    ensures |parts| > 0
    ensures forall k :: 0 <= k < |parts| ==> sep !in parts[k]
    decreases |s|
  {
    if s == [] then [""]
    else
      var rest := Split(s[1..], sep);
      if s[0] == sep then [""] + rest
      else [[s[0]] + rest[0]] + rest[1..]
  }

  /** `parts.join(sep)`. */
  function Join(parts: seq<string>, sep: char): string
    requires |parts| > 0
  {
    if |parts| == 1 then parts[0] else parts[0] + [sep] + Join(parts[1..], sep)
  }

  /** Joining the pieces of a split with the separator gives back the original text. */
  lemma {:induction false} JoinSplit(s: string, sep: char)
    ensures Join(Split(s, sep), sep) == s
    decreases |s|
  {
    if s != [] {
      JoinSplit(s[1..], sep);
      var rest := Split(s[1..], sep);
      if s[0] == sep {
        assert Split(s, sep)[1..] == rest;
        assert s == [sep] + s[1..];
      } else {
        var parts := Split(s, sep);
        if |rest| == 1 {
          assert parts == [[s[0]] + rest[0]];
        } else {
          assert parts[1..] == rest[1..];
          assert Join(rest, sep) == rest[0] + [sep] + Join(rest[1..], sep);
        }
      }
    }
  }

  /** `s.replace(/a/g, b)` for one character `a`. */
  function ReplaceChar(s: string, a: char, b: char): (r: string)
    ensures |r| == |s|
    ensures forall i :: 0 <= i < |s| ==> r[i] == if s[i] == a then b else s[i]
  {
    if s == [] then [] else [if s[0] == a then b else s[0]] + ReplaceChar(s[1..], a, b)
  }

  /** Replacing in a concatenation is replacing in each part. */
  lemma {:induction false} ReplaceCharConcat(s: string, t: string, a: char, b: char)
    ensures ReplaceChar(s + t, a, b) == ReplaceChar(s, a, b) + ReplaceChar(t, a, b)
    decreases |s|
  {
    if s == [] {
      assert s + t == t;
    } else {
      assert (s + t)[1..] == s[1..] + t;
      ReplaceCharConcat(s[1..], t, a, b);
    }
  }

  /** Text without the replaced character is left alone. */
  lemma ReplaceCharAbsent(s: string, a: char, b: char)
    requires a !in s
    ensures ReplaceChar(s, a, b) == s
  {
  }

  function DigitChar(d: nat): (c: char)
    requires d < 10
    ensures IsDigit(c)
  {
    ('0' as int + d) as char
  }

  function DigitOf(c: char): (d: nat)
    requires IsDigit(c)
    ensures d < 10 && DigitChar(d) == c
  {
    c as int - '0' as int
  }

  /** `String(n)` for a non-negative integer: its decimal digits with no leading zero. */
  function NatToString(n: nat): (s: string)
    ensures |s| > 0 && AllDigits(s)
    ensures |s| > 1 ==> s[0] != '0'
  {
    if n < 10 then [DigitChar(n)] else NatToString(n / 10) + [DigitChar(n % 10)]
  }

  /** `String(i)` for an integer. */
  function IntToString(i: int): (s: string)
    ensures |s| > 0
    ensures i < 0 <==> s[0] == '-'
  {
    if i < 0 then "-" + NatToString(-i) else NatToString(i)
  }

  /** The value of a run of decimal digits. */
  function DigitsValue(ds: string): nat
    requires AllDigits(ds)
  {
    if ds == [] then 0 else DigitsValue(ds[..|ds| - 1]) * 10 + DigitOf(ds[|ds| - 1])
  }

  /** The longest prefix of `s` made of decimal digits. */
  function LeadingDigits(s: string): (ds: string)
    ensures IsPrefix(ds, s) && AllDigits(ds)
    ensures |ds| < |s| ==> !IsDigit(s[|ds|])
  {
    if s != [] && IsDigit(s[0]) then [s[0]] + LeadingDigits(s[1..]) else []
  }

  /**
   * `parseInt(s, 10)`: after leading white space and one optional sign, the
   * longest run of decimal digits; `None` stands for NaN (no digit there).
   */
  function ParseInt(s: string): (r: Option<int>)
  {
    var t := TrimStart(s);
    var negative := t != [] && t[0] == '-';
    var unsigned := if t != [] && (t[0] == '-' || t[0] == '+') then t[1..] else t;
    var ds := LeadingDigits(unsigned);
    if ds == [] then None
    else if negative then Some(-(DigitsValue(ds) as int))
    else Some(DigitsValue(ds))
  }

  lemma {:induction false} DigitsValueOfNat(n: nat)
    ensures DigitsValue(NatToString(n)) == n
  {
    var s := NatToString(n);
    if n >= 10 {
      DigitsValueOfNat(n / 10);
      assert s[..|s| - 1] == NatToString(n / 10);
    } else {
      assert s[..0] == [];
    }
  }

  lemma {:induction false} LeadingDigitsOfDigits(ds: string, rest: string)
    requires AllDigits(ds)
    requires rest == [] || !IsDigit(rest[0])
    ensures LeadingDigits(ds + rest) == ds
    decreases |ds|
  {
    if ds != [] {
      LeadingDigitsOfDigits(ds[1..], rest);
      assert (ds + rest)[1..] == ds[1..] + rest;
    }
  }

  /**
   * `parseInt` reads back a decimal rendering and stops at the first
   * non-digit: `parseInt("3000x", 10)` is 3000.
   */
  lemma ParseIntOfDecimal(n: nat, rest: string)
    requires rest == [] || !IsDigit(rest[0])
    ensures ParseInt(NatToString(n) + rest) == Some(n)
  {
    var s := NatToString(n) + rest;
    assert s[0] == NatToString(n)[0];
    assert !IsJsSpace(s[0]);
    assert TrimStart(s) == s;
    LeadingDigitsOfDigits(NatToString(n), rest);
    DigitsValueOfNat(n);
  }

  predicate IsHexDigit(c: char) {
    IsDigit(c) || 'a' <= c <= 'f' || 'A' <= c <= 'F'
  }

  predicate AllHexDigits(s: string) {
    forall i :: 0 <= i < |s| ==> IsHexDigit(s[i])
  }

  function HexDigitOf(c: char): (d: nat)
    requires IsHexDigit(c)
    ensures d < 16
    ensures IsDigit(c) ==> d == DigitOf(c)
  {
    if IsDigit(c) then DigitOf(c)
    else if 'a' <= c <= 'f' then c as int - 'a' as int + 10
    else c as int - 'A' as int + 10
  }

  /** The value of a run of hexadecimal digits. */
  function HexValue(hs: string): nat
    requires AllHexDigits(hs)
  {
    if hs == [] then 0 else HexValue(hs[..|hs| - 1]) * 16 + HexDigitOf(hs[|hs| - 1])
  }

  /** The longest prefix of `s` made of hexadecimal digits. */
  function LeadingHexDigits(s: string): (hs: string)
    ensures IsPrefix(hs, s) && AllHexDigits(hs)
    ensures |hs| < |s| ==> !IsHexDigit(s[|hs|])
  {
    if s != [] && IsHexDigit(s[0]) then [s[0]] + LeadingHexDigits(s[1..]) else []
  }

  lemma {:induction false} LeadingHexDigitsOf(hs: string, rest: string)
    requires AllHexDigits(hs)
    requires rest == [] || !IsHexDigit(rest[0])
    ensures LeadingHexDigits(hs + rest) == hs
    decreases |hs|
  {
    if hs != [] {
      LeadingHexDigitsOf(hs[1..], rest);
      assert (hs + rest)[1..] == hs[1..] + rest;
    }
  }

  /** What `parseInt` reads after the leading white space and one optional sign. */
  function Unsigned(s: string): string
  {
    var t := TrimStart(s);
    if t != [] && (t[0] == '-' || t[0] == '+') then t[1..] else t
  }

  /** The text starts with `0x` or `0X`. */
  predicate HexPrefixed(u: string) {
    |u| >= 2 && u[0] == '0' && (u[1] == 'x' || u[1] == 'X')
  }

  /**
   * `parseInt(s)` with no radix: like `parseInt(s, 10)`, except that a `0x`
   * or `0X` after the sign switches to base 16 and reads the longest run of
   * hexadecimal digits after it; `None` stands for NaN.
   */
  function ParseIntAuto(s: string): (r: Option<int>)
    ensures !HexPrefixed(Unsigned(s)) ==> r == ParseInt(s)
  {
    var u := Unsigned(s);
    if !HexPrefixed(u) then ParseInt(s)
    else
      var t := TrimStart(s);
      var hs := LeadingHexDigits(u[2..]);
      if hs == [] then None
      else if t[0] == '-' then Some(-(HexValue(hs) as int))
      else Some(HexValue(hs))
  }

  /**
   * With no radix, `0x` or `0X` and the hexadecimal digits after it read in
   * base 16, where radix 10 stops at the `x`: `parseInt("0x10")` is 16 and
   * `parseInt("0x10", 10)` is 0.
   */
  lemma ParseIntAutoOfHex(x: char, hs: string, rest: string)
    requires x == 'x' || x == 'X'
    requires hs != [] && AllHexDigits(hs)
    requires rest == [] || !IsHexDigit(rest[0])
    ensures ParseIntAuto(['0', x] + hs + rest) == Some(HexValue(hs))
    ensures ParseInt(['0', x] + hs + rest) == Some(0)
  {
    var s := ['0', x] + hs + rest;
    ZeroXUnsigned(x, hs + rest);
    assert s == ['0', x] + (hs + rest);
    assert s[2..] == hs + rest;
    LeadingHexDigitsOf(hs, rest);
    ZeroXDecimal(x, hs + rest);
  }

  lemma ZeroXUnsigned(x: char, t: string)
    requires x == 'x' || x == 'X'
    ensures TrimStart(['0', x] + t) == ['0', x] + t
    ensures Unsigned(['0', x] + t) == ['0', x] + t
    ensures HexPrefixed(['0', x] + t)
  {
    var s := ['0', x] + t;
    assert s[0] == '0';
    assert !IsJsSpace(s[0]);
  }

  lemma ZeroXDecimal(x: char, t: string)
    requires x == 'x' || x == 'X'
    ensures ParseInt(['0', x] + t) == Some(0)
  {
    var s := ['0', x] + t;
    ZeroXUnsigned(x, t);
    assert s[1..][0] == x;
    assert LeadingDigits(s[1..]) == [];
    assert LeadingDigits(s) == "0";
    assert DigitsValue("0") == 0 by {
      assert "0"[..0] == [];
    }
  }

  /**
   * A decimal rendering reads back with no radix as well, unless an `x`
   * follows a lone `0`: `parseInt("3000x")` is 3000.
   */
  lemma ParseIntAutoOfDecimal(n: nat, rest: string)
    requires rest == [] || (!IsDigit(rest[0]) && rest[0] != 'x' && rest[0] != 'X')
    ensures ParseIntAuto(NatToString(n) + rest) == Some(n)
  {
    var d := NatToString(n);
    var s := d + rest;
    ParseIntOfDecimal(n, rest);
    assert s[0] == d[0] && IsDigit(s[0]);
    assert !IsJsSpace(s[0]);
    assert TrimStart(s) == s && Unsigned(s) == s;
    if |s| >= 2 {
      assert s[1] == if |d| > 1 then d[1] else rest[0];
    }
  }

  /** String order by code point, as `ORDER BY name` compares under a binary collation. */
  predicate StrLe(a: string, b: string)
    decreases |a|
  {
    if a == [] then true
    else if b == [] then false
    else if a[0] != b[0] then a[0] < b[0]
    else StrLe(a[1..], b[1..])
  }

  lemma {:induction false} StrLeTotal(a: string, b: string)
    ensures StrLe(a, b) || StrLe(b, a)
    decreases |a|
  {
    if a != [] && b != [] && a[0] == b[0] {
      StrLeTotal(a[1..], b[1..]);
    }
  }

  lemma {:induction false} StrLeTrans(a: string, b: string, c: string)
    requires StrLe(a, b) && StrLe(b, c)
    ensures StrLe(a, c)
    decreases |a|
  {
    if a != [] && b != [] && c != [] && a[0] == b[0] && b[0] == c[0] {
      StrLeTrans(a[1..], b[1..], c[1..]);
    }
  }
}
