/** JavaScript's `parseInt(s)` (no radix argument) and the decimal form in
    which a number is written back into a string field. The channel
    subscriber counter is stored as a string and read with `parseInt`. */
module JsNumber {
  import opened Common

  /** The characters `parseInt` skips before the number (ECMAScript
      WhiteSpace and LineTerminator). */
  predicate IsJsWhiteSpace(c: char) {
    c == ' ' || c == '\t' || c == '\n' || c == '\r' || c == '\U{000B}' || c == '\U{000C}'
    || c == '\U{00A0}' || c == '\U{1680}' || ('\U{2000}' <= c <= '\U{200A}')
    || c == '\U{2028}' || c == '\U{2029}' || c == '\U{202F}' || c == '\U{205F}'
    || c == '\U{3000}' || c == '\U{FEFF}'
  }

  /** Drops the leading white space. */
  function TrimStart(s: string): (r: string)
    ensures |r| <= |s| && r == s[|s| - |r|..]
    ensures r == [] || !IsJsWhiteSpace(r[0])
  {
    if s != [] && IsJsWhiteSpace(s[0]) then TrimStart(s[1..]) else s
  }

  /** The value of a digit character in radix 36; 36 for any other character. */
  function DigitValue(c: char): (d: nat)
    ensures d <= 36
  {
    if '0' <= c <= '9' then c as int - '0' as int
    else if 'a' <= c <= 'z' then c as int - 'a' as int + 10
    else if 'A' <= c <= 'Z' then c as int - 'A' as int + 10
    else 36
  }

  /** The longest prefix of `s` made of digits valid in `radix`. */
  function LeadingDigits(s: string, radix: nat): (r: string)
    ensures r <= s
    ensures forall i :: 0 <= i < |r| ==> DigitValue(r[i]) < radix
    ensures |r| < |s| ==> DigitValue(s[|r|]) >= radix
  {
    if s != [] && DigitValue(s[0]) < radix then [s[0]] + LeadingDigits(s[1..], radix) else []
  }

  /** The number a string of digits denotes, most significant digit first. */
  function DigitsValue(ds: string, radix: nat): nat {
    if ds == [] then 0
    else DigitsValue(ds[..|ds| - 1], radix) * radix + DigitValue(ds[|ds| - 1])
  }

  /** `parseInt(s)`: skip white space, read an optional sign, then parse
      the unsigned rest. None stands for NaN. */
  function ParseInt(s: string): Option<int> {
    var t := TrimStart(s);
    if t != [] && t[0] == '-' then
      match ParseUnsigned(t[1..])
      case None => None
      case Some(m) => Some(0 - m)
    else if t != [] && t[0] == '+' then ParseUnsigned(t[1..])
    else ParseUnsigned(t)
  }

  /** A "0x" or "0X" prefix selects radix 16; otherwise the radix is 10. */
  function ParseUnsigned(u: string): Option<int> {
    if |u| >= 2 && u[0] == '0' && (u[1] == 'x' || u[1] == 'X') then DigitRun(u[2..], 16)
    else DigitRun(u, 10)
  }

  /** The value of the longest run of digits at the front; None when there is none. */
  function DigitRun(w: string, radix: nat): Option<int> {
    var ds := LeadingDigits(w, radix);
    if ds == [] then None else Some(DigitsValue(ds, radix))
  }

  /** JavaScript truthiness of `parseInt(s)`: NaN, 0 and -0 are falsy. */
  predicate ParsesTruthy(s: string) {
    ParseInt(s).Some? && ParseInt(s).value != 0
  }

  function DecimalDigit(d: nat): char
    requires d < 10
  {
    "0123456789"[d]
  }

  /** The digit written for d reads back as d. */
  lemma DecimalDigitValue(d: nat)
    requires d < 10
    ensures DigitValue(DecimalDigit(d)) == d
  {
    assert DecimalDigit(d) as int == '0' as int + d;
  }

  /** The decimal numeral of a non-negative integer, without leading zeros. */
  function NatToDecimal(n: nat): string
    decreases n
  {
    if n < 10 then [DecimalDigit(n)] else NatToDecimal(n / 10) + [DecimalDigit(n % 10)]
  }

  /** `String(n)` for an integer-valued number: the form in which a number
      assigned to a string field is stored. */
  function IntToString(n: int): string {
    if n < 0 then "-" + NatToDecimal(-n) else NatToDecimal(n)
  }

  /** A decimal numeral is a non-empty string of decimal digits whose value is the number. */
  lemma {:induction false} NatToDecimalDenotes(n: nat)
    ensures NatToDecimal(n) != []
    ensures forall i :: 0 <= i < |NatToDecimal(n)| ==> DigitValue(NatToDecimal(n)[i]) < 10
    ensures DigitsValue(NatToDecimal(n), 10) == n
    decreases n
  {
    if n < 10 {
      DecimalDigitValue(n);
    } else {
      var q, r := n / 10, n % 10;
      NatToDecimalDenotes(q);
      DecimalDigitValue(r);
      var p := NatToDecimal(q);
      var s := p + [DecimalDigit(r)];
      assert NatToDecimal(n) == s;
      assert s[..|s| - 1] == p;
      assert DigitsValue(s, 10) == DigitsValue(p, 10) * 10 + r;
      assert forall i :: 0 <= i < |s| ==> DigitValue(s[i]) < 10 by {
        forall i | 0 <= i < |s| ensures DigitValue(s[i]) < 10 {
          if i < |p| { assert s[i] == p[i]; }
        }
      }
    }
  }

  /** A string made only of digits of the radix is its own longest digit prefix. */
  lemma {:induction false} LeadingDigitsOfDigits(s: string, radix: nat)
    requires forall i :: 0 <= i < |s| ==> DigitValue(s[i]) < radix
    ensures LeadingDigits(s, radix) == s
    decreases |s|
  {
    if s != [] {
      LeadingDigitsOfDigits(s[1..], radix);
      assert [s[0]] + s[1..] == s;
    }
  }

  /** A non-empty run of decimal digits, unsigned, is read in radix 10 as a whole. */
  lemma ParseUnsignedOfDecimal(d: string)
    requires d != [] && forall i :: 0 <= i < |d| ==> DigitValue(d[i]) < 10
    ensures ParseUnsigned(d) == Some(DigitsValue(d, 10))
  {
    if |d| >= 2 {
      assert DigitValue(d[1]) < 10;
      assert d[1] != 'x' && d[1] != 'X';
    }
    LeadingDigitsOfDigits(d, 10);
    assert DigitRun(d, 10) == Some(DigitsValue(d, 10));
  }

  /** A character of decimal-digit value is one of the ten decimal digits. */
  lemma DecimalDigitRange(c: char)
    requires DigitValue(c) < 10
    ensures '0' <= c <= '9'
  {
  }

  /** Nothing is trimmed from a string that starts with a non-space. */
  lemma TrimStartKeeps(s: string)
    requires s != [] && !IsJsWhiteSpace(s[0])
    ensures TrimStart(s) == s
  {
  }

  /** `parseInt` reads a decimal numeral back. */
  lemma ParseIntOfDigits(d: string)
    requires d != [] && '0' <= d[0] <= '9'
    requires ParseUnsigned(d).Some?
    ensures ParseInt(d) == ParseUnsigned(d)
  {
    TrimStartKeeps(d);
  }

  /** `parseInt` reads a negative decimal numeral back. */
  lemma ParseIntOfMinusDigits(d: string)
    requires d != [] && '0' <= d[0] <= '9'
    requires ParseUnsigned(d).Some?
    ensures ParseInt("-" + d) == Some(0 - ParseUnsigned(d).value)
  {
    var s := "-" + d;
    assert s[0] == '-' && s[1..] == d;
    TrimStartKeeps(s);
  }

  /** Reading back a stored number gives the number: `parseInt(String(n)) == n`. */
  lemma ParseIntRoundTrip(n: int)
    ensures ParseInt(IntToString(n)) == Some(n)
  {
    var m: nat := if n < 0 then -n else n;
    var d := NatToDecimal(m);
    NatToDecimalDenotes(m);
    ParseUnsignedOfDecimal(d);
    DecimalDigitRange(d[0]);
    if n < 0 {
      ParseIntOfMinusDigits(d);
    } else {
      ParseIntOfDigits(d);
    }
  }
}
