/** The few JavaScript string and number built-ins that the application's logic relies on,
    written out so that the other modules can state exactly what the code does with them:
    UTF-16 length and code units, `trim`, the `\s` character class, `toLowerCase` (ASCII part),
    `includes`, `startsWith`, the 32-bit conversion behind `<<` and `&`, `parseInt` and
    decimal printing of integers. */
module JsText {
  import opened Wrappers

  // ---------------------------------------------------------------------------------------
  // UTF-16 view of a string

  /** The UTF-16 code units JavaScript stores for one character. */
  function CharCodeUnits(c: char): (r: seq<int>)
    ensures 1 <= |r| <= 2
    ensures forall i :: 0 <= i < |r| ==> 0 <= r[i] < 0x1_0000
    ensures |r| == 1 <==> c as int < 0x1_0000
    ensures |r| == 1 ==> r[0] == c as int
  {
    var v := c as int;
    if v < 0x1_0000 then [v]
    else [0xD800 + (v - 0x1_0000) / 0x400, 0xDC00 + (v - 0x1_0000) % 0x400]
  }

  /** What `charCodeAt(0)`, `charCodeAt(1)`, ... return for a string, in order. */
  function CodeUnits(s: string): (r: seq<int>)
    ensures |r| >= |s|
    ensures forall i :: 0 <= i < |r| ==> 0 <= r[i] < 0x1_0000
  {
    if s == [] then [] else CharCodeUnits(s[0]) + CodeUnits(s[1..])
  }

  /** JavaScript's `length` of a string: the number of UTF-16 code units. */
  function Length(s: string): nat {
    |CodeUnits(s)|
  }

  /** A string whose characters all lie in the Basic Multilingual Plane has one code unit per
      character, equal to the character's code, so `length` is the number of characters. */
  lemma {:induction false} BmpCodeUnits(s: string)
    requires forall i :: 0 <= i < |s| ==> s[i] as int < 0x1_0000
    ensures |CodeUnits(s)| == |s|
    ensures forall i :: 0 <= i < |s| ==> CodeUnits(s)[i] == s[i] as int
  {
    if s != [] {
      BmpCodeUnits(s[1..]);
      assert CodeUnits(s) == [s[0] as int] + CodeUnits(s[1..]);
    }
  }

  // ---------------------------------------------------------------------------------------
  // White space, trimming

  /** The characters JavaScript's `trim` removes and its regular-expression class `\s` matches:
      WhiteSpace and LineTerminator of ECMAScript (section 12.2 and 12.3 of ECMA-262). */
  predicate IsWhiteSpace(c: char) {
    c == '\t' || c == '\n' || c == '\U{000B}' || c == '\U{000C}' || c == '\r' || c == ' '
    || c == '\U{00A0}' || c == '\U{1680}' || ('\U{2000}' <= c <= '\U{200A}')
    || c == '\U{2028}' || c == '\U{2029}' || c == '\U{202F}' || c == '\U{205F}'
    || c == '\U{3000}' || c == '\U{FEFF}'
  }

  /** Every character of `s` is white space (the empty string included). */
  predicate IsBlank(s: string) {
    forall i :: 0 <= i < |s| ==> IsWhiteSpace(s[i])
  }

  /** `s` with its leading white space removed. */
  function TrimStart(s: string): string {
    if s != [] && IsWhiteSpace(s[0]) then TrimStart(s[1..]) else s
  }

  /** `TrimStart` drops a blank prefix and stops at the first character that is not
      white space. */
  lemma {:induction false} TrimStartShape(s: string)
    ensures var r := TrimStart(s);
      |r| <= |s| && r == s[|s| - |r|..] && (r == [] || !IsWhiteSpace(r[0]))
      && IsBlank(s[..|s| - |r|])
  {
    if s != [] && IsWhiteSpace(s[0]) {
      TrimStartShape(s[1..]);
      var r := TrimStart(s);
      assert s[1..][..|s| - 1 - |r|] == s[1..|s| - |r|];
    }
  }

  /** `s` with its trailing white space removed. */
  function TrimEnd(s: string): string {
    if s != [] && IsWhiteSpace(s[|s| - 1]) then TrimEnd(s[..|s| - 1]) else s
  }

  /** `TrimEnd` drops a blank suffix and stops at the last character that is not white
      space. */
  lemma {:induction false} TrimEndShape(s: string)
    ensures var r := TrimEnd(s);
      |r| <= |s| && r == s[..|r|] && (r == [] || !IsWhiteSpace(r[|r| - 1]))
      && IsBlank(s[|r|..])
  {
    if s != [] && IsWhiteSpace(s[|s| - 1]) {
      var init := s[..|s| - 1];
      TrimEndShape(init);
      var r := TrimEnd(s);
      assert r == TrimEnd(init);
      assert init[..|r|] == s[..|r|];
      assert s[|r|..] == init[|r|..] + [s[|s| - 1]];
      forall i | 0 <= i < |s[|r|..]|
        ensures IsWhiteSpace(s[|r|..][i])
      {
        if i < |init[|r|..]| {
          assert s[|r|..][i] == init[|r|..][i];
        }
      }
    }
  }

  /** JavaScript's `s.trim()`. */
  function Trim(s: string): string {
    TrimEnd(TrimStart(s))
  }

  /** `s.trim()` is falsy (the empty string) exactly when `s` consists of white space only. */
  lemma TrimEmptyIffBlank(s: string)
    ensures Trim(s) == [] <==> IsBlank(s)
  {
    var t := TrimStart(s);
    TrimStartShape(s);
    TrimEndShape(t);
    if Trim(s) == [] {
      // `t` is blank, and a non-empty `t` would start with a non-blank character
      assert t[0..] == t;
      assert s[..|s| - |t|] == s;
    } else if t != [] {
      assert t[0] == s[|s| - |t|];
    }
  }

  /** A trimmed string neither starts nor ends with white space, and is a piece of `s`. */
  lemma TrimShape(s: string)
    ensures var r := Trim(s); r == [] || (!IsWhiteSpace(r[0]) && !IsWhiteSpace(r[|r| - 1]))
    ensures |Trim(s)| <= |s|
    ensures IsInfix(Trim(s), s)
  {
    var t := TrimStart(s);
    var r := TrimEnd(t);
    TrimStartShape(s);
    TrimEndShape(t);
    if r != [] {
      assert r[0] == t[0];
    }
    assert MatchesAt(s, r, |s| - |t|) by {
      assert s[|s| - |t|..][..|r|] == r;
    }
  }

  /** Text that neither starts nor ends with white space is its own trim. */
  lemma TrimOfTrimmed(s: string)
    requires s == [] || (!IsWhiteSpace(s[0]) && !IsWhiteSpace(s[|s| - 1]))
    ensures Trim(s) == s
  {
  }

  /** Trimming twice is trimming once. */
  lemma TrimIdempotent(s: string)
    ensures Trim(Trim(s)) == Trim(s)
  {
    TrimShape(s);
    TrimOfTrimmed(Trim(s));
  }

  // ---------------------------------------------------------------------------------------
  // Searching

  /** `s.startsWith(p)`. */
  predicate StartsWith(s: string, p: string) {
    |p| <= |s| && s[..|p|] == p
  }

  /** `q` occurs in `s` at position `i`. */
  predicate MatchesAt(s: string, q: string, i: int) {
    0 <= i <= |s| - |q| && s[i..i + |q|] == q
  }

  /** `s.includes(q)`: `q` occurs somewhere in `s` (the empty string occurs everywhere). */
  predicate IsInfix(q: string, s: string) {
    exists i | 0 <= i <= |s| - |q| :: MatchesAt(s, q, i)
  }

  // ---------------------------------------------------------------------------------------
  // Case

  /** `toLowerCase` of one character; only the ASCII letters are mapped. */
  function LowerChar(c: char): char {
    if 'A' <= c <= 'Z' then (c as int + 32) as char else c
  }

  /** `s.toLowerCase()`, restricted to ASCII letters. */
  function ToLower(s: string): (r: string)
    ensures |r| == |s|
  {
    seq(|s|, i requires 0 <= i < |s| => LowerChar(s[i]))
  }

  /** Lower-casing twice is lower-casing once. */
  lemma ToLowerIdempotent(s: string)
    ensures ToLower(ToLower(s)) == ToLower(s)
  {
    assert forall i | 0 <= i < |s| :: LowerChar(LowerChar(s[i])) == LowerChar(s[i]);
  }

  // ---------------------------------------------------------------------------------------
  // 32-bit integers

  const TwoTo31: int := 0x8000_0000
  const TwoTo32: int := 0x1_0000_0000

  /** ECMAScript's ToInt32: the integer in [-2^31, 2^31) congruent to `x` modulo 2^32. This is
      what `x << n`, `x & y` and every other bitwise operator apply to their operands. */
  function ToInt32(x: int): (r: int)
    ensures -TwoTo31 <= r < TwoTo31
    ensures (r - x) % TwoTo32 == 0
  {
    var m := x % TwoTo32;
    if m >= TwoTo31 then m - TwoTo32 else m
  }

  /** ToInt32 is determined by the residue of its argument modulo 2^32. */
  lemma ToInt32Congruent(x: int, y: int)
    requires (x - y) % TwoTo32 == 0
    ensures ToInt32(x) == ToInt32(y)
  {
    assert x % TwoTo32 == y % TwoTo32 by {
      var k := (x - y) / TwoTo32;
      assert x == y + k * TwoTo32;
      ModShift(y, k);
    }
  }

  lemma ModShift(y: int, k: int)
    ensures (y + k * TwoTo32) % TwoTo32 == y % TwoTo32
  {
  }

  /** ToInt32 leaves a value that is already a 32-bit integer unchanged. */
  lemma ToInt32Identity(x: int)
    requires -TwoTo31 <= x < TwoTo31
    ensures ToInt32(x) == x
  {
  }

  /** `Math.abs`. */
  function Abs(x: int): (r: nat)
    ensures r == x || r == -x
  {
    if x < 0 then -x else x
  }

  // ---------------------------------------------------------------------------------------
  // Decimal numerals

  predicate IsDigit(c: char) {
    '0' <= c <= '9'
  }

  predicate AllDigits(s: string) {
    forall i :: 0 <= i < |s| ==> IsDigit(s[i])
  }

  function DigitChar(d: int): (c: char)
    requires 0 <= d < 10
    ensures IsDigit(c)
  {
    ('0' as int + d) as char
  }

  /** The value of a string of decimal digits, most significant first. */
  function DigitsValue(s: string): nat
    requires AllDigits(s)
  {
    if s == [] then 0 else DigitsValue(s[..|s| - 1]) * 10 + (s[|s| - 1] as int - '0' as int)
  }

  /** The value of a two-digit string. */
  lemma TwoDigitString(s: string)
    requires |s| == 2 && AllDigits(s)
    ensures DigitsValue(s) == (s[0] as int - '0' as int) * 10 + (s[1] as int - '0' as int)
  {
    var h := s[..1];
    assert h[..0] == [];
    assert DigitsValue(h) == h[0] as int - '0' as int;
    assert DigitsValue(s) == DigitsValue(h) * 10 + (s[1] as int - '0' as int);
  }

  /** The value of a four-digit string. */
  lemma FourDigitString(s: string)
    requires |s| == 4 && AllDigits(s)
    ensures DigitsValue(s) == DigitsValue(s[..2]) * 100 + DigitsValue(s[2..])
  {
    TwoDigitString(s[..2]);
    TwoDigitString(s[2..]);
    assert s[..3][..2] == s[..2];
    assert s[..3][..2][..1] == s[..1];
  }

  /** The decimal numeral of a natural number, as template literals print it. */
  function NatToString(n: nat): (r: string)
    ensures |r| >= 1 && AllDigits(r)
  {
    if n < 10 then [DigitChar(n)] else NatToString(n / 10) + [DigitChar(n % 10)]
  }

  /** The decimal numeral of an integer, with a leading `-` for negative values. */
  function IntToString(n: int): (r: string)
    ensures |r| >= 1
    ensures n < 0 <==> r[0] == '-'
  {
    if n < 0 then "-" + NatToString(-n) else NatToString(n)
  }

  /** Reading back a printed natural number gives the number. */
  lemma {:induction false} NatToStringValue(n: nat)
    ensures DigitsValue(NatToString(n)) == n
  {
    if n >= 10 {
      NatToStringValue(n / 10);
      var s := NatToString(n);
      assert s[..|s| - 1] == NatToString(n / 10);
    }
  }

  /** The longest prefix of `s` consisting of decimal digits. */
  function DigitPrefix(s: string): (r: string)
    ensures AllDigits(r) && StartsWith(s, r)
    ensures |r| < |s| ==> !IsDigit(s[|r|])
  {
    if s != [] && IsDigit(s[0]) then [s[0]] + DigitPrefix(s[1..]) else []
  }

  /** JavaScript's `parseInt(s)` for decimal input: leading white space, an optional sign and the
      longest run of digits; `None` is NaN (no digit at all). */
  function ParseInt(s: string): (r: Option<int>)
  {
    var t := TrimStart(s);
    var negative := t != [] && t[0] == '-';
    var body := if t != [] && (t[0] == '-' || t[0] == '+') then t[1..] else t;
    var digits := DigitPrefix(body);
    if digits == [] then None
    else Some(if negative then -(DigitsValue(digits) as int) else DigitsValue(digits))
  }

  /** `parseInt(s) || 0`: NaN (and the falsy result zero) become 0. */
  function ParseIntOrZero(s: string): int {
    ParseInt(s).GetOr(0)
  }

  lemma AllDigitsPrefix(s: string)
    requires AllDigits(s)
    ensures DigitPrefix(s) == s
  {
    if s != [] { AllDigitsPrefix(s[1..]); }
  }

  /** Text that starts with a character other than white space is its own `TrimStart`. */
  lemma TrimStartNoSpace(s: string)
    requires s != [] && !IsWhiteSpace(s[0])
    ensures TrimStart(s) == s
  {
  }

  /** A run of digits, with or without a leading minus, is read as its value. */
  lemma ParseIntOfDigits(d: string)
    requires d != [] && AllDigits(d)
    ensures ParseInt(d) == Some(DigitsValue(d))
    ensures ParseInt("-" + d) == Some(-(DigitsValue(d) as int))
  {
    AllDigitsPrefix(d);
    assert IsDigit(d[0]);
    TrimStartNoSpace(d);
    var m := "-" + d;
    assert m[0] == '-' && m[1..] == d;
    TrimStartNoSpace(m);
  }

  /** The digits at the start of `d + rest` are `d` when `rest` does not start with one. */
  lemma {:induction false} DigitPrefixStops(d: string, rest: string)
    requires AllDigits(d) && rest != [] && !IsDigit(rest[0])
    ensures DigitPrefix(d + rest) == d
    decreases |d|
  {
    if d == [] {
      assert d + rest == rest;
    } else {
      assert (d + rest)[1..] == d[1..] + rest;
      DigitPrefixStops(d[1..], rest);
      assert [d[0]] + d[1..] == d;
    }
  }

  /** `parseInt` reads a run of digits followed by anything that is not a digit as the
      digits' value. */
  lemma ParseIntStopsAtNonDigit(d: string, rest: string)
    requires d != [] && AllDigits(d) && rest != [] && !IsDigit(rest[0])
    ensures ParseInt(d + rest) == Some(DigitsValue(d))
  {
    var s := d + rest;
    DigitPrefixStops(d, rest);
    assert s[0] == d[0] && IsDigit(d[0]);
    TrimStartNoSpace(s);
    assert s[0] != '-' && s[0] != '+';
  }

  /** `parseInt` reads back every integer that template literals print. */
  lemma ParseIntOfIntToString(n: int)
    ensures ParseInt(IntToString(n)) == Some(n)
  {
    var d := NatToString(if n < 0 then -n else n);
    ParseIntOfDigits(d);
    NatToStringValue(if n < 0 then -n else n);
  }
}
