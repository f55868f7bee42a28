/**
 * Decimal and hexadecimal text of integers, as the C++ standard streams write
 * and read them (`os << n`, `os << std::hex << n`, `is >> n`).
 * Used by the vector stream operators, the font cache key and the
 * framebuffer-incomplete message.
 */
module Text {

  /** A character the streams accept as a decimal digit. */
  predicate IsDigit(c: char) {
    '0' <= c <= '9'
  }

  /** Whitespace skipped by a formatted stream extraction: the six characters `isspace` accepts in the C locale. */
  predicate IsSpace(c: char) {
    c == ' ' || c == '\t' || c == '\n' || c == '\U{000B}' || c == '\U{000C}' || c == '\r'
  }

  /** The range of the 32-bit `int` that `is >> n` stores into. */
  const IntMin: int := -0x8000_0000
  const IntMax: int := 0x7FFF_FFFF

  predicate InInt(i: int) {
    IntMin <= i <= IntMax
  }

  /** The lower-case digit of value `d` (std::hex writes lower case). */
  function DigitChar(d: nat): (c: char)
    requires d < 16
    ensures d < 10 ==> IsDigit(c)
  {
    "0123456789abcdef"[d]
  }

  /** The value of a digit character in base `base`, or -1 when it is not one. */
  function DigitValue(c: char, base: nat): (v: int)
    requires 2 <= base <= 16
    ensures -1 <= v < base as int
  {
    if '0' <= c <= '9' && (c as int - '0' as int) < base then c as int - '0' as int
    else if 'a' <= c <= 'f' && (c as int - 'a' as int) + 10 < base then c as int - 'a' as int + 10
    else -1
  }

  /** Digits of `n` in `base`, most significant first, no leading zeros ("0" for zero). */
  function Digits(n: nat, base: nat): (s: string)
    requires 2 <= base <= 16
    ensures |s| >= 1
    decreases n
  {
    if n < base then [DigitChar(n)] else Digits(n / base, base) + [DigitChar(n % base)]
  }

  /** Left-to-right accumulation of the digit values of `s` in `base`. */
  function DigitsValue(s: string, base: nat): int
    requires 2 <= base <= 16
  {
    if s == [] then 0 else DigitsValue(s[..|s| - 1], base) * base + DigitValue(s[|s| - 1], base)
  }

  /** `os << i` for a signed integer: an optional minus sign, then decimal digits. */
  function Decimal(i: int): string {
    if i < 0 then "-" + Digits(-i, 10) else Digits(i, 10)
  }

  /** `os << std::hex << n` for an unsigned value. */
  function Hex(n: nat): string {
    Digits(n, 16)
  }

  lemma {:induction false} DigitsAreDigits(n: nat, base: nat)
    requires 2 <= base <= 16
    ensures forall k :: 0 <= k < |Digits(n, base)| ==> 0 <= DigitValue(Digits(n, base)[k], base)
    decreases n
  {
    if n < base {
      DigitCharValue(n, base);
    } else {
      DigitsAreDigits(n / base, base);
      DigitCharValue(n % base, base);
      var prefix := Digits(n / base, base);
      var s := Digits(n, base);
      assert s == prefix + [DigitChar(n % base)];
      forall k | 0 <= k < |s| ensures 0 <= DigitValue(s[k], base) {
        if k < |prefix| {
          assert s[k] == prefix[k];
        } else {
          assert s[k] == DigitChar(n % base);
        }
      }
    }
  }

  lemma DigitCharValue(d: nat, base: nat)
    requires 2 <= base <= 16 && d < base
    ensures DigitValue(DigitChar(d), base) == d
  {
    var t := "0123456789abcdef";
    if d < 10 {
      assert t[d] as int == '0' as int + d by {
        assert t[0] == '0' && t[1] == '1' && t[2] == '2' && t[3] == '3' && t[4] == '4';
        assert t[5] == '5' && t[6] == '6' && t[7] == '7' && t[8] == '8' && t[9] == '9';
      }
    } else {
      assert t[d] as int == 'a' as int + (d - 10) by {
        assert t[10] == 'a' && t[11] == 'b' && t[12] == 'c' && t[13] == 'd' && t[14] == 'e' && t[15] == 'f';
      }
    }
  }

  lemma DivMod(n: nat, base: nat)
    requires base > 0
    ensures (n / base) * base + n % base == n
  {
  }

  /** Reading back the digits written for `n` gives `n`: the text is a faithful encoding. */
  lemma {:induction false} DigitsRoundTrip(n: nat, base: nat)
    requires 2 <= base <= 16
    ensures DigitsValue(Digits(n, base), base) == n
    decreases n
  {
    if n < base {
      var s := Digits(n, base);
      assert s[..|s| - 1] == [];
      DigitCharValue(n, base);
    } else {
      var q, r := n / base, n % base;
      DigitsRoundTrip(q, base);
      DigitCharValue(r, base);
      DigitsValueSnoc(Digits(q, base), DigitChar(r), base);
      DivMod(n, base);
    }
  }

  lemma DigitsValueSnoc(t: string, c: char, base: nat)
    requires 2 <= base <= 16
    ensures DigitsValue(t + [c], base) == DigitsValue(t, base) * base + DigitValue(c, base)
  {
    assert (t + [c])[..|t + [c]| - 1] == t;
  }

  /** Different values are written as different hexadecimal strings. */
  lemma HexInjective(a: nat, b: nat)
    requires Hex(a) == Hex(b)
    ensures a == b
  {
    DigitsRoundTrip(a, 16);
    DigitsRoundTrip(b, 16);
  }

  /** Different integers are written as different decimal strings. */
  lemma DecimalInjective(a: int, b: int)
    requires Decimal(a) == Decimal(b)
    ensures a == b
  {
    var da := if a < 0 then -a else a;
    var db := if b < 0 then -b else b;
    DecimalSign(a);
    DecimalSign(b);
    assert (a < 0) == (b < 0);
    if a < 0 {
      assert Decimal(a)[1..] == Digits(da, 10);
      assert Decimal(b)[1..] == Digits(db, 10);
    }
    DigitsRoundTrip(da, 10);
    DigitsRoundTrip(db, 10);
  }

  /** The text of `i` starts with a minus sign exactly when `i` is negative. */
  lemma DecimalSign(i: int)
    ensures Decimal(i)[0] == '-' <==> i < 0
  {
    var m := if i < 0 then -i else i;
    DigitsAreDigits(m, 10);
    if i >= 0 {
      assert 0 <= DigitValue(Digits(m, 10)[0], 10);
    }
  }

  // ---------------------------------------------------------------------
  // Formatted extraction of one `int` (`is >> x`)
  // ---------------------------------------------------------------------

  /** Number of leading whitespace characters skipped before a number. */
  function SpacePrefix(s: string): (n: nat)
    ensures n <= |s|
  {
    if s != [] && IsSpace(s[0]) then 1 + SpacePrefix(s[1..]) else 0
  }

  /** Length of the longest prefix of decimal digits. */
  function DigitPrefix(s: string): (n: nat)
    ensures n <= |s|
    ensures forall k :: 0 <= k < n ==> IsDigit(s[k])
    ensures n < |s| ==> !IsDigit(s[n])
  {
    if s != [] && IsDigit(s[0]) then 1 + DigitPrefix(s[1..]) else 0
  }

  /**
   * The outcome of one extraction: the value read and the unread rest; a
   * number outside the range of `int`, which stores the nearest bound and
   * fails the stream; a failure on a character that does not start a number
   * (the target is then set to 0, and the whitespace and any sign before it
   * are consumed); or the end of the input reached while skipping whitespace
   * (the target is left as it was, and nothing is left to read).
   */
  datatype ReadInt = Read(value: int, rest: string) | OutOfRange(value: int, rest: string) | Fail(rest: string) | Eof

  /** The input an extraction left unread. */
  function Unread(r: ReadInt): string {
    if r.Eof? then [] else r.rest
  }

  /** `t` is what is left of `s` once a prefix has been consumed. */
  predicate IsSuffix(t: string, s: string) {
    |t| <= |s| && s[|s| - |t|..] == t
  }

  /** What is left of what is left of `s` is left of `s`. */
  lemma SuffixTransitive(u: string, t: string, s: string)
    requires IsSuffix(u, t) && IsSuffix(t, s)
    ensures IsSuffix(u, s)
  {
    assert s[|s| - |u|..] == s[|s| - |t|..][|t| - |u|..];
  }

  /** The outcome for the number `v` followed by `rest`: read when it fits in `int`, saturated otherwise. */
  function Saturated(v: int, rest: string): (r: ReadInt)
    ensures r.Read? || r.OutOfRange?
    ensures r.rest == rest && InInt(r.value)
    ensures r.Read? <==> InInt(v)
    ensures r.Read? ==> r.value == v
    ensures r.OutOfRange? ==> r.value == (if v < 0 then IntMin else IntMax)
  {
    if v > IntMax then OutOfRange(IntMax, rest)
    else if v < IntMin then OutOfRange(IntMin, rest)
    else Read(v, rest)
  }

  /**
   * `is >> x`: skip whitespace, accept one optional sign, then the longest run
   * of decimal digits (at least one).
   */
  function ExtractInt(s: string): (r: ReadInt)
    ensures (r.Read? || r.OutOfRange?) ==> |r.rest| < |s| && InInt(r.value)
    ensures IsSuffix(Unread(r), s)
    ensures r.Eof? <==> SpacePrefix(s) == |s|
    ensures r.Fail? ==> var t := s[SpacePrefix(s)..];
                        r.rest == if t[0] == '-' || t[0] == '+' then t[1..] else t
  {
    var n := SpacePrefix(s);
    var t := s[n..];
    if t == [] then Eof
    else
      var signed := t[0] == '-' || t[0] == '+';
      var u := if signed then t[1..] else t;
      var r := ReadDigits(u, t[0] == '-');
      assert IsSuffix(u, s) by {
        assert s[|s| - |u|..] == u;
      }
      SuffixTransitive(r.rest, u, s);
      r
  }

  /**
   * The digits after the sign: at least one, read as a magnitude, negated
   * when `neg`; a value outside `int` saturates to the bound on its side.
   */
  function ReadDigits(u: string, neg: bool): (r: ReadInt)
    ensures r.Fail? <==> u == [] || !IsDigit(u[0])
    ensures r.Fail? ==> r.rest == u
    ensures !r.Eof? && IsSuffix(r.rest, u)
    ensures (r.Read? || r.OutOfRange?) ==> |r.rest| < |u| && InInt(r.value)
    ensures r.OutOfRange? ==> r.value == if neg then IntMin else IntMax
  {
    var n := DigitPrefix(u);
    if n == 0 then Fail(u)
    else
      var mag := DigitsValue(u[..n], 10);
      DigitsValueNonNegative(u[..n]);
      Saturated(if neg then -mag else mag, u[n..])
  }

  /** A run of decimal digits has a non-negative value. */
  lemma {:induction false} DigitsValueNonNegative(d: string)
    requires forall k :: 0 <= k < |d| ==> IsDigit(d[k])
    ensures DigitsValue(d, 10) >= 0
    decreases |d|
  {
    if d != [] {
      DigitsValueNonNegative(d[..|d| - 1]);
    }
  }

  lemma {:induction false} DigitPrefixOfDigits(d: string, rest: string)
    requires forall k :: 0 <= k < |d| ==> IsDigit(d[k])
    requires rest == [] || !IsDigit(rest[0])
    ensures DigitPrefix(d + rest) == |d|
    decreases |d|
  {
    if d != [] {
      assert (d + rest)[1..] == d[1..] + rest;
      DigitPrefixOfDigits(d[1..], rest);
    } else {
      assert d + rest == rest;
    }
  }

  lemma DecimalDigitsAreDigits(n: nat)
    ensures forall k :: 0 <= k < |Digits(n, 10)| ==> IsDigit(Digits(n, 10)[k])
  {
    DigitsAreDigits(n, 10);
    var s := Digits(n, 10);
    forall k | 0 <= k < |s| ensures IsDigit(s[k]) {
      assert 0 <= DigitValue(s[k], 10);
    }
  }

  /**
   * Extraction inverts `Decimal` on `int`: writing `i` and reading it back,
   * with a separator that is not a digit after it, yields `i` and leaves the
   * separator. Text of a number outside `int` reads as the nearest bound and
   * fails the stream.
   */
  lemma ExtractDecimal(i: int, rest: string)
    requires rest == [] || !IsDigit(rest[0])
    ensures ExtractInt(Decimal(i) + rest) == Saturated(i, rest)
    ensures InInt(i) ==> ExtractInt(Decimal(i) + rest) == Read(i, rest)
    ensures i > IntMax ==> ExtractInt(Decimal(i) + rest) == OutOfRange(IntMax, rest)
    ensures i < IntMin ==> ExtractInt(Decimal(i) + rest) == OutOfRange(IntMin, rest)
  {
    ExtractDecimalSaturated(i, rest);
  }

  /** Extraction reads a decimal back as its value, saturated to `int`. */
  lemma ExtractDecimalSaturated(i: int, rest: string)
    requires rest == [] || !IsDigit(rest[0])
    ensures ExtractInt(Decimal(i) + rest) == Saturated(i, rest)
  {
    var m := if i < 0 then -i else i;
    var d := Digits(m, 10);
    DecimalDigitsAreDigits(m);
    DigitsRoundTrip(m, 10);
    if i < 0 {
      assert Decimal(i) + rest == "-" + (d + rest);
      ExtractNegative(d, rest);
    } else {
      ExtractUnsigned(d, rest);
    }
  }

  /**
   * A run of digits followed by a non-digit: extraction reads the run's
   * value, saturated to `INT_MAX` when it does not fit, and stops at the
   * non-digit.
   */
  lemma ExtractUnsigned(d: string, rest: string)
    requires d != [] && forall k :: 0 <= k < |d| ==> IsDigit(d[k])
    requires rest == [] || !IsDigit(rest[0])
    ensures ExtractInt(d + rest) == Saturated(DigitsValue(d, 10), rest)
  {
    var u := d + rest;
    assert u[0] == d[0];
    assert SpacePrefix(u) == 0;
    assert u[0..] == u;
    ReadRun(d, rest, false);
  }

  /** The same run behind a minus sign: extraction reads the negated value. */
  lemma ExtractNegative(d: string, rest: string)
    requires d != [] && forall k :: 0 <= k < |d| ==> IsDigit(d[k])
    requires rest == [] || !IsDigit(rest[0])
    ensures ExtractInt("-" + (d + rest)) == Saturated(-DigitsValue(d, 10), rest)
  {
    var s := "-" + (d + rest);
    assert SpacePrefix(s) == 0;
    assert s[0..] == s && s[1..] == d + rest;
    ReadRun(d, rest, true);
  }

  /** Reading digits stops at the first non-digit. */
  lemma ReadRun(d: string, rest: string, neg: bool)
    requires d != [] && forall k :: 0 <= k < |d| ==> IsDigit(d[k])
    requires rest == [] || !IsDigit(rest[0])
    ensures ReadDigits(d + rest, neg) == Saturated(if neg then -DigitsValue(d, 10) else DigitsValue(d, 10), rest)
  {
    var u := d + rest;
    DigitPrefixOfDigits(d, rest);
    assert u[..|d|] == d && u[|d|..] == rest;
    ReadDigitsUnfold(u, neg, d, rest);
  }

  /** `ReadDigits` once its digit run is known to be the non-empty `d`, followed by `rest`. */
  lemma ReadDigitsUnfold(u: string, neg: bool, d: string, rest: string)
    requires DigitPrefix(u) == |d| > 0 && u[..|d|] == d && u[|d|..] == rest
    ensures ReadDigits(u, neg) == Saturated(if neg then -DigitsValue(d, 10) else DigitsValue(d, 10), rest)
  {
  }
}
