/**
 * The JavaScript string primitives the client relies on:
 * `String.prototype.trim`, `parseInt(s, 10)` and `String(n)` for integers,
 * and the truthiness of a string that may be null.
 */
module Strings {
  import opened Wrappers

  /** ECMAScript WhiteSpace and LineTerminator code points, the set `trim` strips. */
  predicate IsWhitespace(c: char) {
    var n := c as int;
    n == 0x09 || n == 0x0A || n == 0x0B || n == 0x0C || n == 0x0D || n == 0x20 ||
    n == 0xA0 || n == 0x1680 || (0x2000 <= n <= 0x200A) || n == 0x2028 || n == 0x2029 ||
    n == 0x202F || n == 0x205F || n == 0x3000 || n == 0xFEFF
  }

  predicate Blank(s: string) {
    forall i :: 0 <= i < |s| ==> IsWhitespace(s[i])
  }

  /** A string that may be null is truthy when it is present and not empty. */
  predicate Truthy(s: Option<string>) {
    s.Some? && s.value != ""
  }

  /** The index of the first character of `s` at or after `i` that is not whitespace, or `|s|`. */
  function SkipWhitespace(s: string, i: nat): (a: nat)
    requires i <= |s|
    ensures i <= a <= |s|
    ensures forall k :: i <= k < a ==> IsWhitespace(s[k])
    ensures a == |s| || !IsWhitespace(s[a])
    decreases |s| - i
  {
    if i < |s| && IsWhitespace(s[i]) then SkipWhitespace(s, i + 1) else i
  }

  /** The end of `s[lo..hi]` once the whitespace before `hi` is dropped. */
  function BackOverWhitespace(s: string, lo: nat, hi: nat): (b: nat)
    requires lo <= hi <= |s|
    ensures lo <= b <= hi
    ensures forall k :: b <= k < hi ==> IsWhitespace(s[k])
    ensures b == lo || !IsWhitespace(s[b - 1])
    decreases hi
  {
    if lo < hi && IsWhitespace(s[hi - 1]) then BackOverWhitespace(s, lo, hi - 1) else hi
  }

  /** Drops leading whitespace (the first step of `parseInt`). */
  function TrimStart(s: string): string {
    s[SkipWhitespace(s, 0)..]
  }

  /**
   * `r` is what `trim` must give for `s`: a slice of `s` with only whitespace
   * around it, and neither starting nor ending with whitespace.
   */
  ghost predicate IsTrimOf(r: string, s: string) {
    exists a, b :: 0 <= a <= b <= |s| && r == s[a..b] && IsTrimCut(s, a, b)
  }

  /** Cutting `s` at `a` and `b` leaves only whitespace outside and none at the ends inside. */
  ghost predicate IsTrimCut(s: string, a: int, b: int)
    requires 0 <= a <= b <= |s|
  {
    && (forall i :: 0 <= i < a ==> IsWhitespace(s[i]))
    && (forall i :: b <= i < |s| ==> IsWhitespace(s[i]))
    && (a < b ==> !IsWhitespace(s[a]) && !IsWhitespace(s[b - 1]))
  }

  /** Where `trim` cuts `s`. */
  function TrimBounds(s: string): (ab: (nat, nat))
    ensures 0 <= ab.0 <= ab.1 <= |s| && IsTrimCut(s, ab.0, ab.1)
  {
    var a := SkipWhitespace(s, 0);
    (a, BackOverWhitespace(s, a, |s|))
  }

  /** `String.prototype.trim`. */
  function Trim(s: string): (r: string)
    ensures IsTrimOf(r, s)
    ensures r == [] <==> Blank(s)
  {
    var (a, b) := TrimBounds(s);
    s[a..b]
  }

  /** `trim` is determined by its specification: two trims of one string agree. */
  lemma TrimOfUnique(r1: string, r2: string, s: string)
    requires IsTrimOf(r1, s) && IsTrimOf(r2, s)
    ensures r1 == r2
  {
    var a1, b1 :| 0 <= a1 <= b1 <= |s| && r1 == s[a1..b1] && IsTrimCut(s, a1, b1);
    var a2, b2 :| 0 <= a2 <= b2 <= |s| && r2 == s[a2..b2] && IsTrimCut(s, a2, b2);
    if a1 < b1 && a2 < b2 {
      assert a1 == a2 && b1 == b2;
    } else {
      assert a1 == b1 && a2 == b2;
    }
  }

  /** A string without surrounding whitespace is its own trim. */
  lemma TrimOfTrimmed(s: string)
    requires s == [] || (!IsWhitespace(s[0]) && !IsWhitespace(s[|s| - 1]))
    ensures Trim(s) == s
  {
    assert s[0..|s|] == s && IsTrimCut(s, 0, |s|);
    TrimOfUnique(Trim(s), s, s);
  }

  /** Trimming twice is trimming once. */
  lemma TrimIdempotent(s: string)
    ensures Trim(Trim(s)) == Trim(s)
  {
    var (a, b) := TrimBounds(s);
    var r := Trim(s);
    assert r == s[a..b];
    if r != [] {
      assert r[0] == s[a] && r[|r| - 1] == s[b - 1];
    }
    TrimOfTrimmed(r);
  }

  predicate IsDigit(c: char) {
    '0' <= c <= '9'
  }

  predicate AllDigits(s: string) {
    forall i :: 0 <= i < |s| ==> IsDigit(s[i])
  }

  /** The longest prefix of `s` made of decimal digits. */
  function DigitPrefix(s: string): (r: string)
    ensures |r| <= |s| && r == s[..|r|] && AllDigits(r)
    ensures |r| == |s| || !IsDigit(s[|r|])
  {
    if |s| > 0 && IsDigit(s[0]) then [s[0]] + DigitPrefix(s[1..]) else []
  }

  /** The number a string of decimal digits denotes. */
  function DigitsValue(d: string): nat
    requires AllDigits(d)
  {
    if d == [] then 0 else DigitsValue(d[..|d| - 1]) * 10 + (d[|d| - 1] as int - '0' as int)
  }

  /** A non-empty run of digits has no leading whitespace, no sign, and is its own digit prefix. */
  lemma DigitsReadWhole(s: string)
    ensures s != [] && AllDigits(s) ==> IsDigit(s[0]) && TrimStart(s) == s && DigitPrefix(s) == s
  {
    if s != [] && AllDigits(s) {
      assert !IsWhitespace(s[0]);
      var p := DigitPrefix(s);
      assert |p| == |s|;
    }
  }

  /** Skipping the whitespace of a blank string leaves nothing. */
  lemma BlankTrimStart(s: string)
    ensures Blank(s) ==> TrimStart(s) == []
  {
  }

  /**
   * `parseInt(s, 10)`, with `None` for NaN: leading whitespace is skipped, one
   * sign is read, and then the longest run of digits; no digits gives NaN.
   */
  function ParseInt(s: string): (r: Option<int>)
    ensures s != [] && AllDigits(s) ==> r == Some(DigitsValue(s))
    ensures Blank(s) ==> r.None?
  {
    DigitsReadWhole(s);
    BlankTrimStart(s);
    var t := TrimStart(s);
    var negative := |t| > 0 && t[0] == '-';
    var unsigned := if |t| > 0 && (t[0] == '-' || t[0] == '+') then t[1..] else t;
    var digits := DigitPrefix(unsigned);
    var magnitude: int := if digits == [] then 0 else DigitsValue(digits);
    if digits == [] then None
    else if negative then Some(-magnitude)
    else Some(magnitude)
  }

  function DigitChar(d: nat): (c: char)
    requires d < 10
    ensures IsDigit(c) && c as int - '0' as int == d
  {
    ('0' as int + d) as char
  }

  /** The decimal spelling of a natural number, as `String(n)` gives it. */
  function NatToString(n: nat): (r: string)
    ensures r != [] && AllDigits(r)
    ensures DigitsValue(r) == n
  {
    if n < 10 then [DigitChar(n)]
    else
      var r := NatToString(n / 10) + [DigitChar(n % 10)];
      assert r[..|r| - 1] == NatToString(n / 10);
      r
  }

  /** `String(n)` for an integer (no exponent form, see the README). */
  function IntToString(n: int): (r: string)
    ensures |r| > 0 && (r[0] == '-' <==> n < 0)
    ensures IsDigit(r[|r| - 1]) && (n >= 0 ==> IsDigit(r[0]))
  {
    if n < 0 then "-" + NatToString(-n) else NatToString(n)
  }

  /** `parseInt` reads back every integer `String` writes. */
  lemma ParseIntToString(n: int)
    ensures ParseInt(IntToString(n)) == Some(n)
  {
    var s := IntToString(n);
    var d := NatToString(if n < 0 then -n else n);
    assert !IsWhitespace(s[0]);
    var t := TrimStart(s);
    assert t == s;
    var unsigned := if n < 0 then s[1..] else s;
    assert unsigned == d;
    var p := DigitPrefix(d);
    assert p == d;
  }

  /** Different integers have different spellings. */
  lemma IntToStringInjective(m: int, n: int)
    requires IntToString(m) == IntToString(n)
    ensures m == n
  {
    ParseIntToString(m);
    ParseIntToString(n);
  }
}
