/**
 * The parts of Go's `strconv` package that the binder uses, over ASCII strings:
 * `ParseInt`/`FormatInt` and `ParseUint`/`FormatUint` in base 10 with a 64-bit range,
 * `FormatBool`, and `Quote` (with `Unquote` as its inverse).
 */
module Strconv {
  import opened Wrappers

  const MinInt64: int := -0x8000_0000_0000_0000
  const MaxInt64: int := 0x7FFF_FFFF_FFFF_FFFF
  const MaxUint64: int := 0xFFFF_FFFF_FFFF_FFFF

  /** Go's `int64` and `uint64`. */
  type int64 = x: int | MinInt64 <= x <= MaxInt64
  type uint64 = x: int | 0 <= x <= MaxUint64

  predicate IsDigit(c: char) {
    '0' <= c <= '9'
  }

  predicate AllDigits(s: string) {
    forall i :: 0 <= i < |s| ==> IsDigit(s[i])
  }

  function DigitChar(d: nat): (c: char)
    requires d < 10
    ensures IsDigit(c) && c as int - '0' as int == d
  {
    ('0' as int + d) as char
  }

  /** The number a string of decimal digits denotes, read most significant digit first. */
  function DigitsValue(s: string): nat
    requires AllDigits(s)
  {
    if s == [] then 0 else DigitsValue(s[..|s| - 1]) * 10 + (s[|s| - 1] as int - '0' as int)
  }

  /** The canonical decimal form of `n`: at least one digit and no leading zero. */
  function FormatNat(n: nat): (s: string)
    ensures |s| > 0 && AllDigits(s) && DigitsValue(s) == n
    ensures s[0] == '0' ==> |s| == 1
  {
    if n < 10 then [DigitChar(n)] else FormatNat(n / 10) + [DigitChar(n % 10)]
  }

  /**
   * `strconv.ParseUint(s, 10, 64)`: one or more decimal digits and nothing else (no sign,
   * no white space, no `_`), at most 2^64 - 1. Any error becomes `None`.
   */
  function ParseUint(s: string): (r: Option<uint64>)
    ensures r.Some? <==> s != [] && AllDigits(s) && DigitsValue(s) <= MaxUint64
    ensures r.Some? ==> AllDigits(s) && r.value == DigitsValue(s)
  {
    if s != [] && AllDigits(s) && DigitsValue(s) <= MaxUint64 then Some(DigitsValue(s)) else None
  }

  /** `strconv.FormatUint(n, 10)`. */
  function FormatUint(n: uint64): (s: string)
    ensures |s| > 0 && AllDigits(s) && DigitsValue(s) == n
    ensures s[0] == '0' ==> s == "0"
  {
    FormatNat(n)
  }

  /** Whether `s` starts with a minus sign. */
  predicate IsNegative(s: string) {
    |s| > 0 && s[0] == '-'
  }

  /** `s` without one leading `+` or `-`. */
  function SignlessPart(s: string): string {
    if |s| > 0 && (s[0] == '+' || s[0] == '-') then s[1..] else s
  }

  /**
   * `strconv.ParseInt(s, 10, 64)`: an optional `+` or `-`, then what `ParseUint` accepts,
   * within the range of `int64`. Any error becomes `None`.
   */
  function ParseInt(s: string): (r: Option<int64>)
    ensures var digits := SignlessPart(s);
      r.Some? <==> digits != [] && AllDigits(digits) &&
                   if IsNegative(s) then DigitsValue(digits) <= -MinInt64 else DigitsValue(digits) <= MaxInt64
    ensures var digits := SignlessPart(s);
      r.Some? ==> AllDigits(digits) && r.value == if IsNegative(s) then -(DigitsValue(digits) as int) else DigitsValue(digits)
  {
    var digits := SignlessPart(s);
    if digits == [] || !AllDigits(digits) then None
    else
      var n: int := DigitsValue(digits);
      if IsNegative(s) then
        if -n >= MinInt64 then Some(-n) else None
      else
        if n <= MaxInt64 then Some(n) else None
  }

  /** `strconv.FormatInt(x, 10)`. */
  function FormatInt(x: int64): (s: string)
    ensures |s| > 0 && s[0] != '+' && (IsNegative(s) <==> x < 0)
    ensures var digits := SignlessPart(s);
      |digits| > 0 && AllDigits(digits) && (digits[0] == '0' ==> s == "0")
  {
    if x < 0 then "-" + FormatNat(-(x as int)) else FormatNat(x)
  }

  /** `strconv.FormatBool`. */
  function FormatBool(b: bool): (s: string)
    ensures s == "true" || s == "false"
    ensures s == "true" <==> b
  {
    if b then "true" else "false"
  }

  /** Every `uint64` formats to a string that parses back to it. */
  lemma UintRoundTrip(n: uint64)
    ensures ParseUint(FormatUint(n)) == Some(n)
  {
  }

  /** Every `int64`, `MinInt64` included, formats to a string that parses back to it. */
  lemma IntRoundTrip(x: int64)
    ensures ParseInt(FormatInt(x)) == Some(x)
  {
    var s := FormatInt(x);
    if x < 0 {
      assert s[1..] == FormatNat(-(x as int));
    }
  }

  /** A leading digit `0` is the only way two strings can parse to the same `uint64`. */
  lemma {:induction false} UintCanonical(s: string)
    requires ParseUint(s).Some?
    requires s[0] != '0' || |s| == 1
    ensures FormatUint(ParseUint(s).value) == s
  {
    DigitsCanonical(s);
  }

  lemma {:induction false} DigitsCanonical(s: string)
    requires |s| > 0 && AllDigits(s)
    requires s[0] != '0' || |s| == 1
    ensures FormatNat(DigitsValue(s)) == s
  {
    if |s| > 1 {
      var init := s[..|s| - 1];
      assert init[0] == s[0];
      DigitsPositive(init);
      DigitsCanonical(init);
      var d := s[|s| - 1] as int - '0' as int;
      assert DigitsValue(s) / 10 == DigitsValue(init) && DigitsValue(s) % 10 == d;
      assert DigitChar(d) == s[|s| - 1];
      assert s == init + [s[|s| - 1]];
    } else {
      assert s[..0] == [];
      assert DigitsValue(s) == s[0] as int - '0' as int;
    }
  }

  lemma {:induction false} DigitsPositive(s: string)
    requires |s| > 0 && AllDigits(s) && s[0] != '0'
    ensures DigitsValue(s) > 0
  {
    if |s| > 1 {
      var init := s[..|s| - 1];
      assert init[0] == s[0];
      DigitsPositive(init);
    }
  }

  /** `ParseInt` never trims: white space anywhere in the string makes it fail. */
  lemma IntRejectsSpace(s: string, i: nat)
    requires i < |s| && s[i] == ' '
    ensures ParseInt(s) == None
  {
  }

  /** `ParseUint` allows no sign at all, not even `+`. */
  lemma UintRejectsSign(s: string)
    requires |s| > 0 && (s[0] == '+' || s[0] == '-')
    ensures ParseUint(s) == None
  {
    assert !IsDigit(s[0]);
  }

  /** Underscores, accepted by Go only in base 0, make a base-10 parse fail. */
  lemma IntRejectsUnderscore(s: string, i: nat)
    requires i < |s| && s[i] == '_'
    ensures ParseInt(s) == None && ParseUint(s) == None
  {
    assert !IsDigit(s[i]);
  }

  /** Go also accepts forms `FormatInt` never writes: a `+` sign, leading zeros, "-0". */
  lemma IntNonCanonicalForms()
    ensures ParseInt("+5") == Some(5)
    ensures ParseInt("007") == Some(7)
    ensures ParseInt("-0") == Some(0)
    ensures ParseInt("+") == None && ParseInt("-") == None && ParseInt("") == None
  {
    assert "+5"[1..] == "5";
    assert "-0"[1..] == "0";
    assert DigitsValue("5") == 5 by { assert "5"[..0] == []; }
    assert DigitsValue("0") == 0 by { assert "0"[..0] == []; }
    assert DigitsValue("007") == 7 by {
      assert "007"[..2] == "00" && "00"[..1] == "0" && "0"[..0] == [];
    }
    assert "+"[1..] == [] && "-"[1..] == [];
  }

  /** One past either end of the `int64` range is an error, not a wrap-around. */
  lemma IntRangeLimits()
    ensures ParseInt(FormatNat(MaxInt64 + 1)) == None
    ensures ParseInt("-" + FormatNat(-MinInt64 + 1)) == None
    ensures ParseUint(FormatNat(MaxUint64 + 1)) == None
  {
    var s := "-" + FormatNat(-MinInt64 + 1);
    assert s[1..] == FormatNat(-MinInt64 + 1);
  }

  // Quoting

  function HexDigit(n: nat): (c: char)
    requires n < 16
  {
    "0123456789abcdef"[n]
  }

  /** The value of a hexadecimal digit of either case, if `c` is one. */
  function HexValue(c: char): Option<nat> {
    if '0' <= c <= '9' then Some(c as int - '0' as int)
    else if 'a' <= c <= 'f' then Some(c as int - 'a' as int + 10)
    else if 'A' <= c <= 'F' then Some(c as int - 'A' as int + 10)
    else None
  }

  /** The one-letter escapes of Go string literals, and the control character each stands for. */
  function LetterEscape(e: char): Option<char> {
    if e == 'a' then Some(7 as char)
    else if e == 'b' then Some(8 as char)
    else if e == 'f' then Some(12 as char)
    else if e == 'n' then Some('\n')
    else if e == 'r' then Some('\r')
    else if e == 't' then Some('\t')
    else if e == 'v' then Some(11 as char)
    else None
  }

  /** How `strconv.Quote` writes one ASCII character inside the quotes. */
  function EscapeChar(c: char): (r: string)
    ensures |r| > 0 && (r[0] == '\\' || r == [c]) && r[0] != '"'
  {
    if c == '"' || c == '\\' then ['\\', c]
    else if c == 7 as char then "\\a"
    else if c == 8 as char then "\\b"
    else if c == 12 as char then "\\f"
    else if c == '\n' then "\\n"
    else if c == '\r' then "\\r"
    else if c == '\t' then "\\t"
    else if c == 11 as char then "\\v"
    else if c < ' ' || c == 127 as char then ['\\', 'x', HexDigit(c as int / 16), HexDigit(c as int % 16)]
    else [c]
  }

  function QuoteBody(s: string): string {
    if s == [] then [] else EscapeChar(s[0]) + QuoteBody(s[1..])
  }

  /** `strconv.Quote`: the escaped characters between two double quotes. */
  function Quote(s: string): (q: string)
    ensures |q| >= 2 && q[0] == '"' && q[|q| - 1] == '"'
  {
    "\"" + QuoteBody(s) + "\""
  }

  function Prepend(c: char, r: Option<string>): Option<string> {
    match r
    case Some(t) => Some([c] + t)
    case None => None
  }

  /** Reads the inside of a Go double-quoted literal back: an unescaped `"` is an error. */
  function UnquoteBody(t: string): Option<string>
    decreases |t|
  {
    if t == [] then Some([])
    else if t[0] == '"' then None
    else if t[0] != '\\' then Prepend(t[0], UnquoteBody(t[1..]))
    else if |t| < 2 then None
    else if t[1] == '"' || t[1] == '\\' then Prepend(t[1], UnquoteBody(t[2..]))
    else if LetterEscape(t[1]).Some? then Prepend(LetterEscape(t[1]).value, UnquoteBody(t[2..]))
    else if t[1] == 'x' && |t| >= 4 && HexValue(t[2]).Some? && HexValue(t[3]).Some? then
      Prepend((HexValue(t[2]).value * 16 + HexValue(t[3]).value) as char, UnquoteBody(t[4..]))
    else None
  }

  /** The inverse of `Quote`, in the manner of `strconv.Unquote` for double-quoted literals. */
  function Unquote(q: string): Option<string> {
    if |q| >= 2 && q[0] == '"' && q[|q| - 1] == '"' then UnquoteBody(q[1..|q| - 1]) else None
  }

  lemma UnquoteEscapeChar(c: char, rest: string)
    ensures UnquoteBody(EscapeChar(c) + rest) == Prepend(c, UnquoteBody(rest))
  {
    var n := |EscapeChar(c)|;
    if n == 1 {
      assert (EscapeChar(c) + rest)[1..] == rest;
    } else if n == 2 {
      UnquoteShortEscape(c, rest);
    } else {
      UnquoteHexEscape(c, rest);
    }
  }

  lemma UnquoteShortEscape(c: char, rest: string)
    requires |EscapeChar(c)| == 2
    ensures UnquoteBody(EscapeChar(c) + rest) == Prepend(c, UnquoteBody(rest))
  {
    var t := EscapeChar(c) + rest;
    assert t[2..] == rest;
    assert t[0] == '\\';
  }

  lemma UnquoteHexEscape(c: char, rest: string)
    requires |EscapeChar(c)| !in {1, 2}
    ensures UnquoteBody(EscapeChar(c) + rest) == Prepend(c, UnquoteBody(rest))
  {
    var t := EscapeChar(c) + rest;
    var hi, lo := c as int / 16, c as int % 16;
    assert EscapeChar(c) == ['\\', 'x', HexDigit(hi), HexDigit(lo)];
    assert t[4..] == rest;
    assert HexValue(HexDigit(hi)) == Some(hi);
    assert HexValue(HexDigit(lo)) == Some(lo);
  }

  lemma {:induction false} UnquoteQuoteBody(s: string)
    ensures UnquoteBody(QuoteBody(s)) == Some(s)
  {
    if s != [] {
      UnquoteQuoteBody(s[1..]);
      UnquoteEscapeChar(s[0], QuoteBody(s[1..]));
      assert [s[0]] + s[1..] == s;
    }
  }

  /** `Quote` loses nothing: unquoting its output gives the original string back. */
  lemma QuoteRoundTrip(s: string)
    ensures Unquote(Quote(s)) == Some(s)
  {
    var q := Quote(s);
    assert q[1..|q| - 1] == QuoteBody(s);
    UnquoteQuoteBody(s);
  }
}
