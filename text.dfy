/**
 * Decimal text as the web client produces and reads it: rendering a natural
 * number (template literals, `${n}`), joining strings (`Array.prototype.join`)
 * and reading a number back (`parseFloat`).
 */
module Text {
  import opened Wrappers

  predicate IsDigit(c: char) { '0' <= c <= '9' }

  predicate AllDigits(s: string) { forall i :: 0 <= i < |s| ==> IsDigit(s[i]) }

  /**
   * White space that `parseFloat` skips before the number: the white space
   * and line terminators of section 7.1.4.1 of ECMA-262 (StrWhiteSpaceChar),
   * including every space separator of Unicode category Zs.
   */
  predicate IsSpace(c: char)
  {
    || c == '\t' || c == '\n' || c == '\U{000B}' || c == '\U{000C}' || c == '\r' || c == ' '
    || c == '\U{00A0}' || c == '\U{1680}' || ('\U{2000}' <= c <= '\U{200A}')
    || c == '\U{2028}' || c == '\U{2029}' || c == '\U{202F}' || c == '\U{205F}'
    || c == '\U{3000}' || c == '\U{FEFF}'
  }

  function DigitChar(d: nat): (c: char)
    requires d < 10
    ensures IsDigit(c) && c as int - '0' as int == d
  {
    ('0' as int + d) as char
  }

  function DigitValue(c: char): (d: nat)
    requires IsDigit(c)
    ensures d < 10 && DigitChar(d) == c
  {
    c as int - '0' as int
  }

  /** The decimal rendering of `n`, most significant digit first, without leading zeros. */
  function NatToString(n: nat): (s: string)
    ensures |s| > 0 && AllDigits(s)
    ensures |s| > 1 ==> s[0] != '0'
  {
    if n < 10 then [DigitChar(n)] else NatToString(n / 10) + [DigitChar(n % 10)]
  }

  /** The number a string of decimal digits denotes. */
  function DigitsValue(s: string): nat
    requires AllDigits(s)
  {
    if |s| == 0 then 0 else DigitsValue(s[..|s| - 1]) * 10 + DigitValue(s[|s| - 1])
  }

  function Pow10(k: nat): (p: nat)
    ensures p >= 1
  {
    if k == 0 then 1 else 10 * Pow10(k - 1)
  }

  /** The parts joined with `sep` between neighbours, as `parts.join(sep)`. */
  function Join(parts: seq<string>, sep: string): string
  {
    if |parts| == 0 then ""
    else if |parts| == 1 then parts[0]
    else parts[0] + sep + Join(parts[1..], sep)
  }

  /** The length of the longest prefix of `s` made of digits. */
  function LeadingDigits(s: string): (k: nat)
    ensures k <= |s| && AllDigits(s[..k])
    ensures k < |s| ==> !IsDigit(s[k])
  {
    if |s| == 0 || !IsDigit(s[0]) then 0
    else
      var k := 1 + LeadingDigits(s[1..]);
      assert s[..k] == [s[0]] + s[1..][..k - 1];
      k
  }

  /** `s` without its leading white space. */
  function TrimStart(s: string): (t: string)
    ensures |t| <= |s| && t == s[|s| - |t|..]
    ensures |t| > 0 ==> !IsSpace(t[0])
    ensures forall i :: 0 <= i < |s| - |t| ==> IsSpace(s[i])
  {
    if |s| > 0 && IsSpace(s[0]) then TrimStart(s[1..]) else s
  }

  /**
   * Reads an unsigned decimal at the start of `u`: digits, optionally a point
   * and more digits. None when neither side of the point has a digit.
   */
  function UnsignedPrefix(u: string): Option<real>
  {
    var i := LeadingDigits(u);
    var rest := u[i..];
    var frac := if |rest| > 0 && rest[0] == '.' then rest[1..][..LeadingDigits(rest[1..])] else "";
    if i == 0 && |frac| == 0 then None
    else Some(DecimalValue(u[..i], frac))
  }

  /** The value of the decimal `whole.frac`. */
  function DecimalValue(whole: string, frac: string): real
    requires AllDigits(whole) && AllDigits(frac)
  {
    DigitsValue(whole) as real + DigitsValue(frac) as real / Pow10(|frac|) as real
  }

  /** Reads an optionally signed decimal at the very start of `t`. */
  function SignedPrefix(t: string): Option<real>
  {
    var negative := |t| > 0 && t[0] == '-';
    var u := if |t| > 0 && (t[0] == '-' || t[0] == '+') then t[1..] else t;
    match UnsignedPrefix(u)
    case None => None
    case Some(m) => Some(if negative then -m else m)
  }

  /**
   * JavaScript's `parseFloat` on a string: leading white space is skipped, an
   * optional sign is read, then the longest decimal prefix; whatever follows it
   * is ignored. None stands for NaN.
   */
  function ParseFloat(s: string): Option<real>
  {
    SignedPrefix(TrimStart(s))
  }

  lemma {:induction false} NatToStringValue(n: nat)
    ensures DigitsValue(NatToString(n)) == n
  {
    var s := NatToString(n);
    if n < 10 {
      assert s[..0] == "";
    } else {
      assert s[..|s| - 1] == NatToString(n / 10);
      NatToStringValue(n / 10);
    }
  }

  lemma {:induction false} LeadingDigitsOfDigits(s: string, t: string)
    requires AllDigits(s)
    requires |t| == 0 || !IsDigit(t[0])
    ensures LeadingDigits(s + t) == |s|
  {
    if |s| > 0 {
      assert (s + t)[1..] == s[1..] + t;
      LeadingDigitsOfDigits(s[1..], t);
    }
  }

  lemma UnsignedPrefixOfNat(n: nat, t: string)
    requires |t| == 0 || (!IsDigit(t[0]) && t[0] != '.')
    ensures UnsignedPrefix(NatToString(n) + t) == Some(n as real)
  {
    var s := NatToString(n);
    var u := s + t;
    LeadingDigitsOfDigits(s, t);
    assert u[..|s|] == s;
    assert u[|s|..] == t;
    NatToStringValue(n);
  }

  /**
   * Reading back a rendered natural number gives the number, whatever
   * non-numeric text follows it (a unit, a space, nothing).
   */
  lemma NatToStringParses(n: nat, t: string)
    requires |t| == 0 || (!IsDigit(t[0]) && t[0] != '.')
    ensures ParseFloat(NatToString(n) + t) == Some(n as real)
  {
    var u := NatToString(n) + t;
    assert TrimStart(u) == u by {
      assert !IsSpace(u[0]);
    }
    UnsignedPrefixOfNat(n, t);
  }

  /** The fraction digits after the point: all of `d` when `d` is digits. */
  lemma FractionOfDigits(d: string)
    requires AllDigits(d)
    ensures ("." + d)[1..][..LeadingDigits(("." + d)[1..])] == d
  {
    assert ("." + d)[1..] == d;
    LeadingDigitsOfDigits(d, "");
    assert d + "" == d;
  }

  lemma UnsignedPrefixOfDecimal(m: nat, d: string)
    requires |d| > 0 && AllDigits(d)
    ensures UnsignedPrefix(NatToString(m) + ("." + d)) == Some(m as real + DigitsValue(d) as real / Pow10(|d|) as real)
  {
    var s := NatToString(m);
    var r := "." + d;
    var u := s + r;
    LeadingDigitsOfDigits(s, r);
    var i := LeadingDigits(u);
    assert i == |s|;
    assert u[..i] == s;
    assert u[i..] == r;
    FractionOfDigits(d);
    NatToStringValue(m);
    assert UnsignedPrefix(u) == Some(DecimalValue(s, d));
  }

  /** Text that starts with a digit has no white space or sign to skip. */
  lemma DigitFirstIsUnsigned(u: string)
    requires |u| > 0 && IsDigit(u[0])
    ensures ParseFloat(u) == UnsignedPrefix(u)
  {
    assert TrimStart(u) == u by { assert !IsSpace(u[0]); }
  }

  /** A number with a fractional part, as a `step="0.01"` field delivers it, reads back as its value. */
  lemma DecimalParses(m: nat, d: string)
    requires |d| > 0 && AllDigits(d)
    ensures ParseFloat(NatToString(m) + "." + d) == Some(m as real + DigitsValue(d) as real / Pow10(|d|) as real)
  {
    var u := NatToString(m) + ("." + d);
    assert NatToString(m) + "." + d == u;
    assert u[0] == NatToString(m)[0];
    DigitFirstIsUnsigned(u);
    UnsignedPrefixOfDecimal(m, d);
  }

  /** A minus sign in front negates the value read. */
  lemma NegatedNatParses(n: nat)
    ensures ParseFloat("-" + NatToString(n)) == Some(-(n as real))
  {
    var s := NatToString(n);
    var u := "-" + s;
    assert TrimStart(u) == u by { assert !IsSpace(u[0]); }
    assert u[1..] == s + "";
    UnsignedPrefixOfNat(n, "");
  }

  /** White space in front of a number does not change what is read. */
  lemma LeadingSpaceIgnored(c: char, s: string)
    requires IsSpace(c)
    ensures ParseFloat([c] + s) == ParseFloat(s)
  {
    assert ([c] + s)[1..] == s;
    assert TrimStart([c] + s) == TrimStart(s);
  }

  /** Text without any digit reads as NaN. */
  lemma NoDigitNoNumber(s: string)
    requires forall i :: 0 <= i < |s| ==> !IsDigit(s[i])
    ensures ParseFloat(s) == None
  {
    var t := TrimStart(s);
    var u := if |t| > 0 && (t[0] == '-' || t[0] == '+') then t[1..] else t;
    assert forall i :: 0 <= i < |u| ==> !IsDigit(u[i]);
    assert LeadingDigits(u) == 0;
    var rest := u[0..];
    if |rest| > 0 && rest[0] == '.' {
      assert LeadingDigits(rest[1..]) == 0;
    }
  }
}
