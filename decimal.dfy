/**
 * Integers as decimal text: `Number.prototype.toString()` on an integer and
 * `parseInt(text, 10)`, whose NaN result is `None`.
 */
module Decimal {
  import opened Options

  predicate IsDigit(c: char) {
    '0' <= c <= '9'
  }

  function DigitChar(d: nat): (c: char)
    requires d < 10
    ensures IsDigit(c)
  {
    ['0', '1', '2', '3', '4', '5', '6', '7', '8', '9'][d]
  }

  function DigitValue(c: char): (d: nat)
    requires IsDigit(c)
    ensures d < 10 && DigitChar(d) == c
  {
    (c as int - '0' as int) as nat
  }

  /** The decimal digits of `n`, most significant first, without leading zeros. */
  function Digits(n: nat): (r: string)
    ensures 1 <= |r| && forall i :: 0 <= i < |r| ==> IsDigit(r[i])
  {
    if n < 10 then [DigitChar(n)] else Digits(n / 10) + [DigitChar(n % 10)]
  }

  /** `n.toString()` for an integer `n`. */
  function ToDecimal(n: int): string {
    if n < 0 then "-" + Digits(-n) else Digits(n)
  }

  /** The number a run of decimal digits denotes. */
  function Value(ds: string): (v: int)
    requires forall i :: 0 <= i < |ds| ==> IsDigit(ds[i])
    ensures v >= 0
  {
    if ds == [] then 0 else Value(ds[..|ds| - 1]) * 10 + DigitValue(ds[|ds| - 1])
  }

  /**
   * White space that `parseInt` skips before the number: the ASCII spaces, the byte-order
   * mark, the line and paragraph separators and every Unicode space separator.
   */
  predicate IsSpace(c: char) {
    c in {' ', '\t', '\n', '\r', '\U{B}', '\U{C}', '\U{A0}', '\U{1680}', '\U{202F}', '\U{205F}',
          '\U{3000}', '\U{FEFF}', '\U{2028}', '\U{2029}'}
    || '\U{2000}' <= c <= '\U{200A}'
  }

  function TrimStart(s: string): (r: string)
    ensures |r| <= |s| && r == s[|s| - |r|..]
    ensures r != [] ==> !IsSpace(r[0])
  {
    if s != [] && IsSpace(s[0]) then TrimStart(s[1..]) else s
  }

  /** The longest prefix of `s` made of decimal digits. */
  function LeadingDigits(s: string): (r: string)
    ensures |r| <= |s| && r == s[..|r|]
    ensures forall i :: 0 <= i < |r| ==> IsDigit(r[i])
    ensures |r| < |s| ==> !IsDigit(s[|r|])
  {
    if s != [] && IsDigit(s[0]) then [s[0]] + LeadingDigits(s[1..]) else []
  }

  /** `parseInt(s, 10)`: optional white space, an optional sign, then at least one digit; `None` is NaN. */
  function ParseInt(s: string): Option<int> {
    ParseSigned(TrimStart(s))
  }

  function ParseSigned(t: string): Option<int> {
    if t != [] && t[0] == '-' then Negate(ParseUnsigned(t[1..]))
    else if t != [] && t[0] == '+' then ParseUnsigned(t[1..])
    else ParseUnsigned(t)
  }

  function ParseUnsigned(t: string): Option<int> {
    var ds := LeadingDigits(t);
    if ds == [] then None else Some(Value(ds))
  }

  function Negate(v: Option<int>): Option<int> {
    match v
    case None => None
    case Some(x) => Some(-x)
  }

  lemma {:induction false} ValueOfDigits(n: nat)
    ensures Value(Digits(n)) == n
  {
    if n >= 10 {
      ValueOfDigits(n / 10);
      var ds := Digits(n);
      assert ds[..|ds| - 1] == Digits(n / 10);
    }
  }

  lemma LeadingDigitsOfDigits(ds: string)
    requires forall i :: 0 <= i < |ds| ==> IsDigit(ds[i])
    ensures LeadingDigits(ds) == ds
  {
  }

  lemma DigitIsNotSpace(c: char)
    requires IsDigit(c)
    ensures !IsSpace(c) && c != '-' && c != '+'
  {
  }

  lemma ParseDigits(ds: string)
    requires 1 <= |ds| && forall i :: 0 <= i < |ds| ==> IsDigit(ds[i])
    ensures ParseUnsigned(ds) == Some(Value(ds))
    ensures ParseInt(ds) == Some(Value(ds))
  {
    DigitIsNotSpace(ds[0]);
    assert TrimStart(ds) == ds;
    LeadingDigitsOfDigits(ds);
  }

  lemma NegativeText(ds: string, v: Option<int>)
    requires ParseUnsigned(ds) == v
    ensures ParseInt("-" + ds) == Negate(v)
  {
    var neg := "-" + ds;
    assert neg[0] == '-' && !IsSpace('-');
    assert TrimStart(neg) == neg;
    assert neg[1..] == ds;
  }

  /** Decimal text read back with `parseInt` gives the integer it was made from. */
  lemma ParseToDecimal(n: int)
    ensures ParseInt(ToDecimal(n)) == Some(n)
  {
    var m: nat := if n < 0 then -n else n;
    var ds := Digits(m);
    ValueOfDigits(m);
    ParseDigits(ds);
    if n < 0 {
      NegativeText(ds, Some(m));
      assert ToDecimal(n) == "-" + ds;
    }
  }

  /** Different integers have different decimal texts. */
  lemma ToDecimalInjective(a: int, b: int)
    requires a != b
    ensures ToDecimal(a) != ToDecimal(b)
  {
    ParseToDecimal(a);
    ParseToDecimal(b);
  }
}
