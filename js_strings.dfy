/**
 * The string operations of the JavaScript runtime that the console relies on:
 * `trim`, `split` on a one-character separator, `parseInt` without a radix,
 * `Number(string)` and the decimal rendering of integers.
 */
module JsStrings {
  import opened Wrappers

  // ---------------------------------------------------------------------------
  // Whitespace and trim
  // ---------------------------------------------------------------------------

  /** WhiteSpace and LineTerminator code points of ECMA-262 (what `trim` strips). */
  predicate IsSpace(c: char)
  {
    || c == '\t' || c == '\n' || c == '\U{B}' || c == '\U{C}' || c == '\r' || c == ' '
    || c == '\U{A0}' || c == '\U{1680}' || ('\U{2000}' <= c <= '\U{200A}')
    || c == '\U{2028}' || c == '\U{2029}' || c == '\U{202F}' || c == '\U{205F}'
    || c == '\U{3000}' || c == '\U{FEFF}'
  }

  ghost predicate AllSpace(s: string)
  {
    forall i :: 0 <= i < |s| ==> IsSpace(s[i])
  }

  /** The number of whitespace characters `s` starts with. */
  function LeadingSpaces(s: string): (n: nat)
    ensures n <= |s|
    ensures forall i :: 0 <= i < n ==> IsSpace(s[i])
    ensures n == |s| || !IsSpace(s[n])
  {
    if |s| > 0 && IsSpace(s[0]) then
      var n := LeadingSpaces(s[1..]);
      assert forall i :: 1 <= i < 1 + n ==> s[i] == s[1..][i - 1];
      1 + n
    else 0
  }

  /** The length of `s` without the whitespace it ends with. */
  function KeptLength(s: string): (n: nat)
    ensures n <= |s|
    ensures forall i :: n <= i < |s| ==> IsSpace(s[i])
    ensures n == 0 || !IsSpace(s[n - 1])
  {
    if |s| > 0 && IsSpace(s[|s| - 1]) then
      var n := KeptLength(s[..|s| - 1]);
      assert forall i :: n <= i < |s| - 1 ==> s[i] == s[..|s| - 1][i];
      n
    else |s|
  }

  /** `s.trimStart()`: the suffix of `s` left after its leading whitespace. */
  function TrimStart(s: string): string
  {
    s[LeadingSpaces(s)..]
  }

  /** `s.trimEnd()`: the prefix of `s` left after its trailing whitespace. */
  function TrimEnd(s: string): string
  {
    s[..KeptLength(s)]
  }

  /** `s.trim()`. */
  function Trim(s: string): string
  {
    TrimEnd(TrimStart(s))
  }

  /** The guards `if (!x.trim()) return;` reject exactly the all-whitespace strings. */
  lemma TrimEmptyIffAllSpace(s: string)
    ensures Trim(s) == "" <==> AllSpace(s)
  {
    var t := TrimStart(s);
    if Trim(s) == "" {
      assert AllSpace(t[0..]);
      assert s == s[..|s| - |t|] + t;
    }
    if AllSpace(s) {
      assert AllSpace(t) by { assert t == s[|s| - |t|..]; }
    }
  }

  // ---------------------------------------------------------------------------
  // split / join on one separator character
  // ---------------------------------------------------------------------------

  /** `s.split(d)` for a one-character string `d`: never empty, and no part holds `d`. */
  function Split(s: string, d: char): (parts: seq<string>)
    ensures |parts| >= 1
    ensures forall i :: 0 <= i < |parts| ==> d !in parts[i]
  {
    if |s| == 0 then [""]
    else if s[0] == d then [""] + Split(s[1..], d)
    else
      var rest := Split(s[1..], d);
      [[s[0]] + rest[0]] + rest[1..]
  }

  /** `parts.join(d)`. */
  function Join(parts: seq<string>, d: char): string
  {
    if |parts| == 0 then ""
    else if |parts| == 1 then parts[0]
    else parts[0] + [d] + Join(parts[1..], d)
  }

  lemma {:induction false} JoinSplit(s: string, d: char)
    ensures Join(Split(s, d), d) == s
  {
    if |s| == 0 {
    } else if s[0] == d {
      JoinSplit(s[1..], d);
      assert s == [d] + s[1..];
    } else {
      var rest := Split(s[1..], d);
      JoinSplit(s[1..], d);
      if |rest| == 1 {
        assert s == [s[0]] + rest[0];
      } else {
        assert Join(rest, d) == rest[0] + [d] + Join(rest[1..], d);
        assert s == [s[0]] + s[1..];
      }
    }
  }

  /** Splitting a joined list gives the list back when no part holds the separator. */
  lemma {:induction false} SplitJoin(parts: seq<string>, d: char)
    requires |parts| >= 1
    requires forall i :: 0 <= i < |parts| ==> d !in parts[i]
    ensures Split(Join(parts, d), d) == parts
    decreases |parts|, |parts[0]|
  {
    if |parts| == 1 {
      SplitNoSeparator(parts[0], d);
    } else if parts[0] == "" {
      assert Join(parts, d) == [d] + Join(parts[1..], d);
      SplitJoin(parts[1..], d);
      assert [""] + parts[1..] == parts;
    } else {
      var tail := [parts[0][1..]] + parts[1..];
      assert Join(tail, d) == parts[0][1..] + [d] + Join(parts[1..], d);
      assert Join(parts, d) == [parts[0][0]] + Join(tail, d);
      assert parts[0][0] != d by { assert parts[0][0] in parts[0]; }
      assert forall i :: 0 <= i < |tail| ==> d !in tail[i] by {
        forall i | 0 <= i < |tail| ensures d !in tail[i] {
          if i == 0 {
            assert forall c :: c in parts[0][1..] ==> c in parts[0];
          } else {
            assert tail[i] == parts[i];
          }
        }
      }
      SplitJoin(tail, d);
      var j := Join(parts, d);
      assert j[0] == parts[0][0] && j[1..] == Join(tail, d);
      assert Split(j, d) == [[j[0]] + Split(j[1..], d)[0]] + Split(j[1..], d)[1..];
      assert [parts[0][0]] + tail[0] == parts[0];
      assert tail[1..] == parts[1..];
      assert [parts[0]] + parts[1..] == parts;
    }
  }

  lemma {:induction false} SplitNoSeparator(s: string, d: char)
    requires d !in s
    ensures Split(s, d) == [s]
  {
    if |s| > 0 {
      assert s[0] in s;
      assert forall c :: c in s[1..] ==> c in s;
      SplitNoSeparator(s[1..], d);
      assert s == [s[0]] + s[1..];
    }
  }

  /** The parts of `a + d + b` are the parts of `a` followed by the parts of `b`. */
  lemma {:induction false} SplitConcat(a: string, b: string, d: char)
    requires d !in a
    ensures Split(a + [d] + b, d) == [a] + Split(b, d)
  {
    if |a| == 0 {
      assert a + [d] + b == [d] + b;
      assert ([d] + b)[1..] == b;
    } else {
      assert a[0] in a;
      assert forall c :: c in a[1..] ==> c in a;
      SplitConcat(a[1..], b, d);
      assert (a + [d] + b)[1..] == a[1..] + [d] + b;
      assert [a[0]] + a[1..] == a;
    }
  }

  // ---------------------------------------------------------------------------
  // Digits, parseInt and Number
  // ---------------------------------------------------------------------------

  predicate IsDecimalDigit(c: char)
  {
    '0' <= c <= '9'
  }

  /** The value of `c` as a digit of radix up to 36, or 36 for a character that is no digit. */
  function DigitValue(c: char): (v: nat)
    ensures v <= 36
    ensures IsDecimalDigit(c) ==> v < 10
  {
    if '0' <= c <= '9' then c as int - '0' as int
    else if 'a' <= c <= 'z' then c as int - 'a' as int + 10
    else if 'A' <= c <= 'Z' then c as int - 'A' as int + 10
    else 36
  }

  predicate IsDigitIn(c: char, radix: nat)
  {
    DigitValue(c) < radix
  }

  ghost predicate AllDigitsIn(s: string, radix: nat)
  {
    forall i :: 0 <= i < |s| ==> IsDigitIn(s[i], radix)
  }

  /** The number the digit string `ds` denotes in base `radix`, most significant digit first. */
  function ValueIn(ds: string, radix: nat): nat
    requires AllDigitsIn(ds, radix)
  {
    if |ds| == 0 then 0
    else ValueIn(ds[..|ds| - 1], radix) * radix + DigitValue(ds[|ds| - 1])
  }

  /** Length of the longest prefix of `s` made of digits of `radix`. */
  function DigitPrefixLength(s: string, radix: nat): (n: nat)
    ensures n <= |s|
    ensures forall i :: 0 <= i < n ==> IsDigitIn(s[i], radix)
    ensures n == |s| || !IsDigitIn(s[n], radix)
  {
    if |s| > 0 && IsDigitIn(s[0], radix) then
      var n := DigitPrefixLength(s[1..], radix);
      assert forall i :: 1 <= i < n + 1 ==> s[i] == s[1..][i - 1];
      n + 1
    else 0
  }

  predicate IsHexPrefix(u: string)
  {
    |u| >= 2 && u[0] == '0' && (u[1] == 'x' || u[1] == 'X')
  }

  /**
   * `parseInt(s)` with no radix argument: skip leading whitespace, read an
   * optional sign, switch to base 16 after `0x`/`0X`, then read the longest
   * run of digits; no digit at all gives NaN (None).
   */
  function ParseInt(s: string): Option<int>
  {
    var t := TrimStart(s);
    var negative := |t| > 0 && t[0] == '-';
    var u := if |t| > 0 && (t[0] == '-' || t[0] == '+') then t[1..] else t;
    var radix := if IsHexPrefix(u) then 16 else 10;
    var w := if IsHexPrefix(u) then u[2..] else u;
    var n := DigitPrefixLength(w, radix);
    if n == 0 then None
    else
      var v: int := ValueIn(w[..n], radix);
      Some(if negative then -v else v)
  }

  /** Base of a `0x`, `0o` or `0b` prefix of a numeric string, or 0 when there is none. */
  function NonDecimalRadix(t: string): nat
  {
    if |t| < 2 || t[0] != '0' then 0
    else if t[1] == 'x' || t[1] == 'X' then 16
    else if t[1] == 'o' || t[1] == 'O' then 8
    else if t[1] == 'b' || t[1] == 'B' then 2
    else 0
  }

  /**
   * What `Number(s)` gives for a string, as far as integers reach: an
   * integer, a finite value that is not an integer (such as 2.5), an
   * infinity (the literal `Infinity`), each of the last two with its sign,
   * or NaN.
   */
  datatype NumberText = Integer(value: int) | NonInteger(positive: bool) | Infinite(positive: bool) | NotANumber

  /** `n > 0` for the number `n` stands for; NaN is not. */
  predicate IsPositive(n: NumberText)
  {
    match n
    case Integer(v) => v > 0
    case NonInteger(p) => p
    case Infinite(p) => p
    case NotANumber => false
  }

  /** `v` followed by `k` zeros: `v * 10^k`. */
  function Shift(v: nat, k: nat): nat
    decreases k
  {
    if k == 0 then v else Shift(10 * v, k - 1)
  }

  /** The digits `ds` read after the digits worth `v`, most significant first. */
  function FoldDigits(v: nat, ds: string): nat
    decreases |ds|
  {
    if |ds| == 0 then v else FoldDigits(10 * v + DigitValue(ds[0]), ds[1..])
  }

  /** The value `m * 10^k` of a decimal literal's digits `m` and exponent `k`. */
  function ScaledDecimal(m: nat, k: int): (r: NumberText)
    ensures r.Integer? || r.NonInteger?
    decreases if k < 0 then -k else 0
  {
    if k >= 0 then Integer(Shift(m, k))
    else if m % 10 == 0 then ScaledDecimal(m / 10, k + 1)
    else NonInteger(true)
  }

  /**
   * A StrUnsignedDecimalLiteral of ECMA-262: `Infinity`, or digits with an
   * optional `.` and fraction digits (at least one digit in all) and an
   * optional `e`/`E` exponent with an optional sign.
   */
  function UnsignedDecimal(u: string): NumberText
  {
    if u == "Infinity" then Infinite(true)
    else
      var i := DigitPrefixLength(u, 10);
      Mantissa(ValueIn(u[..i], 10), i > 0, u[i..])
  }

  /** What follows the integer digits (worth `intValue`): an optional `.` and fraction digits. */
  function Mantissa(intValue: nat, intDigits: bool, r: string): NumberText
  {
    if |r| > 0 && r[0] == '.' then
      var fr := r[1..];
      var f := DigitPrefixLength(fr, 10);
      if !intDigits && f == 0 then NotANumber
      else Exponent(FoldDigits(intValue, fr[..f]), f, fr[f..])
    else if intDigits then Exponent(intValue, 0, r)
    else NotANumber
  }

  /** What follows the digits `m`, `f` of them after the point: an optional exponent, then the end. */
  function Exponent(m: nat, f: nat, tail: string): NumberText
  {
    if tail == "" then ScaledDecimal(m, -(f as int))
    else if tail[0] == 'e' || tail[0] == 'E' then
      var x := tail[1..];
      var ed := if |x| > 0 && (x[0] == '-' || x[0] == '+') then x[1..] else x;
      if |ed| > 0 && DigitPrefixLength(ed, 10) == |ed| then
        var e: int := ValueIn(ed, 10);
        ScaledDecimal(m, (if x[0] == '-' then -e else e) - f)
      else NotANumber
    else NotANumber
  }

  /**
   * `Number(s)`: the trimmed string is empty (0), an unsigned `0x`/`0o`/`0b`
   * integer literal, or a decimal literal with an optional sign; anything
   * else is NaN.
   */
  function StringToNumber(s: string): NumberText
  {
    var t := Trim(s);
    if t == "" then Integer(0)
    else if NonDecimalRadix(t) != 0 then
      var r := NonDecimalRadix(t);
      var w := t[2..];
      if |w| > 0 && DigitPrefixLength(w, r) == |w| then Integer(ValueIn(w, r)) else NotANumber
    else
      var w := if t[0] == '-' || t[0] == '+' then t[1..] else t;
      Signed(t[0] == '-', UnsignedDecimal(w))
  }

  /** `n`, or `-n` when the literal starts with '-'. */
  function Signed(negative: bool, n: NumberText): (r: NumberText)
    ensures !negative ==> r == n
    ensures r.Integer? <==> n.Integer?
  {
    match n
    case Integer(v) => Integer(if negative then -v else v)
    case NonInteger(p) => NonInteger(p != negative)
    case Infinite(p) => Infinite(p != negative)
    case NotANumber => NotANumber
  }

  // ---------------------------------------------------------------------------
  // Decimal rendering of integers (String(n) for an integer n)
  // ---------------------------------------------------------------------------

  function DigitChar(d: nat): (c: char)
    requires d < 10
    ensures IsDecimalDigit(c) && DigitValue(c) == d
  {
    ('0' as int + d) as char
  }

  /** The decimal digits of `n`, with no leading zero. */
  function NatToDecimal(n: nat): (s: string)
    ensures |s| >= 1 && AllDigitsIn(s, 10)
    ensures |s| == 1 || s[0] != '0'
    ensures forall i :: 0 <= i < |s| ==> IsDecimalDigit(s[i])
  {
    if n < 10 then [DigitChar(n)]
    else NatToDecimal(n / 10) + [DigitChar(n % 10)]
  }

  function IntToString(i: int): string
  {
    if i < 0 then "-" + NatToDecimal(-i) else NatToDecimal(i)
  }

  lemma {:induction false} DecimalRoundTrip(n: nat)
    ensures ValueIn(NatToDecimal(n), 10) == n
  {
    if n >= 10 {
      var s := NatToDecimal(n);
      assert s[..|s| - 1] == NatToDecimal(n / 10);
      DecimalRoundTrip(n / 10);
    }
  }

  lemma {:induction false} DigitPrefixOfAllDigits(s: string, radix: nat)
    requires AllDigitsIn(s, radix)
    ensures DigitPrefixLength(s, radix) == |s|
  {
    if |s| > 0 {
      DigitPrefixOfAllDigits(s[1..], radix);
    }
  }

  /**
   * On a non-empty run of decimal digits `parseInt` (the live-attendance offer)
   * and `Number` (the attendance report) agree, and both give its value.
   */
  lemma ParseIntAgreesWithNumberOnDigits(ds: string)
    requires |ds| > 0
    requires forall i :: 0 <= i < |ds| ==> IsDecimalDigit(ds[i])
    ensures ParseInt(ds) == Some(ValueIn(ds, 10))
    ensures StringToNumber(ds) == Integer(ValueIn(ds, 10))
  {
    assert AllDigitsIn(ds, 10);
    ParseIntOfPlainDigits(ds);
    NumberOfPlainDigits(ds);
  }

  lemma ParseIntOfPlainDigits(ds: string)
    requires |ds| > 0 && AllDigitsIn(ds, 10)
    ensures ParseInt(ds) == Some(ValueIn(ds, 10))
  {
    PlainDigitsFacts(ds);
    assert ds[..|ds|] == ds;
  }

  lemma NumberOfPlainDigits(ds: string)
    requires |ds| > 0 && AllDigitsIn(ds, 10)
    ensures StringToNumber(ds) == Integer(ValueIn(ds, 10))
  {
    PlainDigitsFacts(ds);
    assert IsDigitIn(ds[0], 10) && ds[0] != 'I';
    UnsignedNumber(ds);
    assert ds[..|ds|] == ds && ds[|ds|..] == "";
  }

  lemma PlainDigitsFacts(ds: string)
    requires |ds| > 0 && AllDigitsIn(ds, 10)
    ensures TrimStart(ds) == ds && Trim(ds) == ds
    ensures !IsHexPrefix(ds) && NonDecimalRadix(ds) == 0 && ds[0] != '-' && ds[0] != '+'
    ensures DigitPrefixLength(ds, 10) == |ds|
  {
    DigitsAreNotSpace(ds);
    DigitsHaveNoPrefix(ds);
    DigitPrefixOfAllDigits(ds, 10);
  }

  lemma DigitsAreNotSpace(ds: string)
    requires |ds| > 0 && AllDigitsIn(ds, 10)
    ensures TrimStart(ds) == ds && Trim(ds) == ds
  {
    assert IsDigitIn(ds[0], 10) && IsDigitIn(ds[|ds| - 1], 10);
    TrimOfNonSpaceEnds(ds);
  }

  lemma DigitsHaveNoPrefix(ds: string)
    requires |ds| > 0 && AllDigitsIn(ds, 10)
    ensures !IsHexPrefix(ds) && NonDecimalRadix(ds) == 0 && ds[0] != '-' && ds[0] != '+'
  {
    assert IsDigitIn(ds[0], 10);
    if |ds| >= 2 {
      assert IsDigitIn(ds[1], 10);
    }
  }

  lemma TrimOfNonSpaceEnds(s: string)
    requires |s| > 0 && !IsSpace(s[0]) && !IsSpace(s[|s| - 1])
    ensures TrimStart(s) == s && TrimEnd(s) == s && Trim(s) == s
  {
  }

  /** `parseInt(String(n)) == n` for every natural number `n`. */
  lemma ParseIntOfDecimal(n: nat)
    ensures ParseInt(NatToDecimal(n)) == Some(n)
    ensures StringToNumber(NatToDecimal(n)) == Integer(n)
  {
    ParseIntAgreesWithNumberOnDigits(NatToDecimal(n));
    DecimalRoundTrip(n);
  }

  /**
   * `parseInt` stops at the first non-digit, while `Number` rejects the whole
   * string: the two semester conversions differ on inputs such as "3rd".
   */
  lemma ParseIntStopsWhereNumberFails(ds: string, rest: string)
    requires |ds| > 0 && ds[0] != '0'
    requires forall i :: 0 <= i < |ds| ==> IsDecimalDigit(ds[i])
    requires |rest| > 0 && !IsSpace(rest[0]) && DigitValue(rest[0]) >= 10
    requires rest[0] != '.' && rest[0] != 'e' && rest[0] != 'E'
    ensures ParseInt(ds + rest) == Some(ValueIn(ds, 10))
    ensures StringToNumber(ds + rest) == NotANumber
  {
    assert AllDigitsIn(ds, 10);
    ParseIntStopsAtNonDigit(ds, rest);
    NumberRejectsTrailingText(ds, rest);
  }

  lemma ParseIntStopsAtNonDigit(ds: string, rest: string)
    requires |ds| > 0 && ds[0] != '0' && AllDigitsIn(ds, 10)
    requires |rest| > 0 && DigitValue(rest[0]) >= 10
    ensures ParseInt(ds + rest) == Some(ValueIn(ds, 10))
  {
    var s := ds + rest;
    DigitsHaveNoPrefix(ds);
    assert s[0] == ds[0] && IsDigitIn(s[0], 10);
    assert TrimStart(s) == s;
    PrefixThenStop(ds, rest, 10);
    assert s[..|ds|] == ds;
  }

  lemma NumberRejectsTrailingText(ds: string, rest: string)
    requires |ds| > 0 && ds[0] != '0' && AllDigitsIn(ds, 10)
    requires |rest| > 0 && !IsSpace(rest[0]) && DigitValue(rest[0]) >= 10
    requires rest[0] != '.' && rest[0] != 'e' && rest[0] != 'E'
    ensures StringToNumber(ds + rest) == NotANumber
  {
    var t := Trim(ds + rest);
    TrimOfDigitsThenText(ds, rest);
    UnsignedNumber(t);
    PrefixThenStop(ds, t[|ds|..], 10);
    assert t[..|ds|] == ds;
    MantissaRejects(ValueIn(ds, 10), t[|ds|..]);
  }

  /** Trimming `ds + rest` keeps `ds` and the first character of `rest`. */
  lemma TrimOfDigitsThenText(ds: string, rest: string)
    requires |ds| > 0 && ds[0] != '0' && AllDigitsIn(ds, 10)
    requires |rest| > 0 && !IsSpace(rest[0]) && DigitValue(rest[0]) >= 10
    ensures var t := Trim(ds + rest);
            && |t| > |ds| && t[..|ds|] == ds && t[|ds|] == rest[0] && ds + t[|ds|..] == t
            && t != "" && Trim(t) == t && NonDecimalRadix(t) == 0 && t[0] != '-' && t[0] != '+' && t[0] != 'I'
            && !IsDigitIn(t[|ds|..][0], 10)
  {
    var s := ds + rest;
    DigitsHaveNoPrefix(ds);
    assert s[0] == ds[0] && IsDigitIn(s[0], 10);
    assert TrimStart(s) == s;
    assert s[|ds|] == rest[0];
    TrimEndKeepsNonSpace(s, |ds|);
    var t := Trim(s);
    assert t == TrimEnd(s);
    assert t[..|ds|] == ds && t[|ds|..][0] == rest[0];
    assert ds + t[|ds|..] == t;
    assert t[0] != 'I' && t[0] != '0';
  }

  /** After the integer digits, anything but '.', 'e', 'E' or the end makes the literal NaN. */
  lemma MantissaRejects(v: nat, r: string)
    requires |r| > 0 && r[0] != '.' && r[0] != 'e' && r[0] != 'E'
    ensures Mantissa(v, true, r) == NotANumber
  {
  }

  /** A digit string of zeros only has value 0. */
  lemma {:induction false} ZerosValue(zs: string)
    requires forall i :: 0 <= i < |zs| ==> zs[i] == '0'
    ensures AllDigitsIn(zs, 10) && ValueIn(zs, 10) == 0
  {
    if |zs| > 0 {
      ZerosValue(zs[..|zs| - 1]);
    }
  }

  /** `Number` of a trimmed unsigned decimal literal is that literal's value. */
  lemma UnsignedNumber(t: string)
    requires t != "" && Trim(t) == t && NonDecimalRadix(t) == 0 && t[0] != '-' && t[0] != '+'
    ensures StringToNumber(t) == UnsignedDecimal(t)
  {
  }

  /** A decimal literal `ds + rest` starting with the digits `ds` is read as `ds`, then `rest`. */
  lemma DecimalLiteralStart(ds: string, rest: string)
    requires |ds| > 0 && AllDigitsIn(ds, 10)
    requires |rest| > 0 && !IsSpace(rest[|rest| - 1]) && !IsDigitIn(rest[0], 10)
    requires rest[0] !in "xXoObB"
    ensures StringToNumber(ds + rest) == Mantissa(ValueIn(ds, 10), true, rest)
  {
    var s := ds + rest;
    assert IsDigitIn(s[0], 10) && s[|s| - 1] == rest[|rest| - 1];
    TrimOfNonSpaceEnds(s);
    if |ds| >= 2 {
      assert IsDigitIn(s[1], 10);
    } else {
      assert s[1] == rest[0];
    }
    assert s[0] != 'I';
    UnsignedNumber(s);
    PrefixThenStop(ds, rest, 10);
    assert s[..|ds|] == ds && s[|ds|..] == rest;
  }

  /** A `.` followed by fraction digits only, after the integer digits worth `v`. */
  lemma MantissaOfFraction(v: nat, fr: string)
    requires AllDigitsIn(fr, 10)
    ensures Mantissa(v, true, "." + fr) == ScaledDecimal(FoldDigits(v, fr), -|fr|)
  {
    DigitPrefixOfAllDigits(fr, 10);
    assert ("." + fr)[1..] == fr && fr[..|fr|] == fr && fr[|fr|..] == "";
  }

  lemma {:induction false} ShiftTimesTen(v: nat, k: nat)
    ensures Shift(10 * v, k) == 10 * Shift(v, k)
    decreases k
  {
    if k > 0 {
      ShiftTimesTen(10 * v, k - 1);
    }
  }

  /** Reading `k` zero digits shifts the value by `k` places. */
  lemma {:induction false} FoldZeros(v: nat, zs: string)
    requires forall i :: 0 <= i < |zs| ==> zs[i] == '0'
    ensures FoldDigits(v, zs) == Shift(v, |zs|)
    decreases |zs|
  {
    if |zs| > 0 {
      FoldZeros(10 * v, zs[1..]);
    }
  }

  /** Scaling by `10^k` and back is exact. */
  lemma {:induction false} ScaledExact(v: nat, k: nat)
    ensures ScaledDecimal(Shift(v, k), -(k as int)) == Integer(v)
  {
    if k > 0 {
      var w := Shift(v, k - 1);
      ShiftTimesTen(v, k - 1);
      assert Shift(v, k) == 10 * w;
      TenthOfTenfold(w);
      assert ScaledDecimal(10 * w, -(k as int)) == ScaledDecimal(w, -((k - 1) as int));
      ScaledExact(v, k - 1);
    }
  }

  lemma TenthOfTenfold(w: nat)
    ensures (10 * w) % 10 == 0 && (10 * w) / 10 == w
  {
  }

  /** `zs` is made of the digit zero only. */
  predicate AllZeros(zs: string)
  {
    forall i :: 0 <= i < |zs| ==> zs[i] == '0'
  }

  /** A fraction of zeros only leaves the integer digits' value. */
  lemma MantissaOfZeros(v: nat, zs: string)
    requires AllZeros(zs)
    ensures Mantissa(v, true, "." + zs) == Integer(v)
  {
    ZerosValue(zs);
    MantissaOfFraction(v, zs);
    FoldZeros(v, zs);
    ScaledExact(v, |zs|);
  }

  /** A single non-zero fraction digit gives a value that is no integer. */
  lemma MantissaOfDigit(v: nat, d: char)
    requires IsDecimalDigit(d) && d != '0'
    ensures Mantissa(v, true, "." + [d]) == NonInteger(true)
  {
    assert AllDigitsIn([d], 10);
    MantissaOfFraction(v, [d]);
    assert FoldDigits(v, [d]) == 10 * v + DigitValue(d);
  }

  /** `Number` reads an all-zero fraction as the integer before it: `Number("2.0")` is 2. */
  lemma NumberOfZeroFraction(ds: string, zs: string)
    requires |ds| > 0 && forall i :: 0 <= i < |ds| ==> IsDecimalDigit(ds[i])
    requires AllZeros(zs)
    ensures StringToNumber(ds + ("." + zs)) == Integer(ValueIn(ds, 10))
  {
    DigitsThenDotZeros(ds, zs);
    MantissaOfZeros(ValueIn(ds, 10), zs);
  }

  /** A digit run followed by `.` and zeros is read as those digits, then the fraction. */
  lemma DigitsThenDotZeros(ds: string, zs: string)
    requires |ds| > 0 && forall i :: 0 <= i < |ds| ==> IsDecimalDigit(ds[i])
    requires AllZeros(zs)
    ensures StringToNumber(ds + ("." + zs)) == Mantissa(ValueIn(ds, 10), true, "." + zs)
  {
    assert AllDigitsIn(ds, 10);
    var rest := "." + zs;
    DotZeros(zs);
    assert rest[0] == '.';
    assert !IsDigitIn(rest[0], 10) && rest[0] !in "xXoObB";
    DecimalLiteralStart(ds, rest);
  }

  lemma DotZeros(zs: string)
    requires AllZeros(zs)
    ensures var rest := "." + zs; |rest| > 0 && rest[0] == '.' && !IsSpace(rest[|rest| - 1])
  {
    if |zs| > 0 {
      assert ("." + zs)[|zs|] == zs[|zs| - 1];
    }
  }

  /** `Number` applies a decimal exponent: `Number("1e3")` is 1000. */
  lemma NumberOfExponent(ds: string, k: nat)
    requires |ds| > 0 && forall i :: 0 <= i < |ds| ==> IsDecimalDigit(ds[i])
    ensures StringToNumber(ds + "e" + NatToDecimal(k)) == Integer(Shift(ValueIn(ds, 10), k))
  {
    assert AllDigitsIn(ds, 10);
    var x := NatToDecimal(k);
    var rest := "e" + x;
    assert ds + "e" + x == ds + rest;
    DecimalLiteralStart(ds, rest);
    DecimalRoundTrip(k);
    ExponentOfDigits(ValueIn(ds, 10), x);
  }

  /** An exponent written as unsigned digits scales the integer digits' value up. */
  lemma ExponentOfDigits(m: nat, x: string)
    requires |x| > 0 && AllDigitsIn(x, 10)
    ensures Mantissa(m, true, "e" + x) == Integer(Shift(m, ValueIn(x, 10)))
  {
    DigitPrefixOfAllDigits(x, 10);
    var rest := "e" + x;
    assert rest[0] == 'e' && rest[1..] == x && !(x[0] == '-' || x[0] == '+');
  }

  /** A non-zero fraction digit makes the value a non-integer: `Number("2.5")` is no integer. */
  lemma NumberOfFraction(ds: string, d: char)
    requires |ds| > 0 && forall i :: 0 <= i < |ds| ==> IsDecimalDigit(ds[i])
    requires IsDecimalDigit(d) && d != '0'
    ensures StringToNumber(ds + "." + [d]) == NonInteger(true)
  {
    assert AllDigitsIn(ds, 10);
    var rest := "." + [d];
    assert ds + "." + [d] == ds + rest;
    DecimalLiteralStart(ds, rest);
    MantissaOfDigit(ValueIn(ds, 10), d);
  }

  lemma {:induction false} TrimEndKeepsNonSpace(s: string, k: nat)
    requires k < |s| && !IsSpace(s[k])
    ensures |TrimEnd(s)| > k
  {
    if IsSpace(s[|s| - 1]) {
      TrimEndKeepsNonSpace(s[..|s| - 1], k);
    }
  }

  lemma {:induction false} PrefixThenStop(ds: string, rest: string, radix: nat)
    requires AllDigitsIn(ds, radix)
    requires |rest| > 0 && !IsDigitIn(rest[0], radix)
    ensures DigitPrefixLength(ds + rest, radix) == |ds|
  {
    if |ds| > 0 {
      assert (ds + rest)[1..] == ds[1..] + rest;
      PrefixThenStop(ds[1..], rest, radix);
    } else {
      assert ds + rest == rest;
    }
  }
}
