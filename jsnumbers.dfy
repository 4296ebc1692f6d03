/** JavaScript's numeric conversions of strings, restricted to decimal
    integers: `Number(s)` and `parseInt(s)`. `None` stands for `NaN`. Decimal
    fractions, exponents, hexadecimal and `Infinity` are not modelled: such
    inputs give `None` here. */
module JsNumbers {

  import opened Wrappers
  import opened Text

  function DigitValue(c: char): nat
    requires IsDigit(c)
  {
    c as int - '0' as int
  }

  /** The value of a string of decimal digits. */
  function DigitsValue(s: string): nat
    requires AllDigits(s)
  {
    if s == [] then 0 else DigitsValue(s[..|s| - 1]) * 10 + DigitValue(s[|s| - 1])
  }

  /** An optional sign followed by at least one digit. */
  function SignedDigits(t: string): Option<int>
  {
    if |t| > 1 && t[0] == '-' && AllDigits(t[1..]) then Some(-(DigitsValue(t[1..]) as int))
    else if |t| > 1 && t[0] == '+' && AllDigits(t[1..]) then Some(DigitsValue(t[1..]))
    else if t != [] && AllDigits(t) then Some(DigitsValue(t))
    else None
  }

  /** `Number(s)`: surrounding white space is ignored, a blank string is 0,
      anything but a signed decimal integer is NaN. */
  function Number(s: string): (r: Option<int>)
    ensures AllWhitespace(s) ==> r == Some(0)
  {
    var t := Trim(s);
    TrimEmptyIff(s);
    if t == "" then Some(0) else SignedDigits(t)
  }

  /** `Number(params.get(k))`: `Number(null)` is 0. */
  function NumberOf(o: Option<string>): (r: Option<int>)
    ensures o.None? ==> r == Some(0)
  {
    match o
    case None => Some(0)
    case Some(s) => Number(s)
  }

  /** `n || 1` on a number: 0 and NaN are falsy and give 1, anything else is kept. */
  function OrOne(n: Option<int>): (r: int)
    ensures r != 0
    ensures n.Some? && n.value != 0 ==> r == n.value
    ensures (n.None? || n == Some(0)) ==> r == 1
  {
    if n.Some? && n.value != 0 then n.value else 1
  }

  /** The longest prefix of `s` made of digits. */
  function LeadingDigits(s: string): (r: string)
    ensures AllDigits(r) && |r| <= |s| && r == s[..|r|]
    ensures |r| < |s| ==> !IsDigit(s[|r|])
  {
    if s != [] && IsDigit(s[0]) then [s[0]] + LeadingDigits(s[1..]) else ""
  }

  /** `parseInt(s)` in base 10: leading white space, an optional sign, then the
      longest run of digits; NaN when there is no digit. */
  function ParseInt(s: string): (r: Option<int>)
  {
    var t := TrimStart(s);
    var negative := t != [] && t[0] == '-';
    var body := if t != [] && (t[0] == '-' || t[0] == '+') then t[1..] else t;
    var digits := LeadingDigits(body);
    if digits == "" then None
    else if negative then Some(-(DigitsValue(digits) as int))
    else Some(DigitsValue(digits))
  }

  lemma {:induction false} DigitsValueOfNatToString(n: nat)
    ensures DigitsValue(NatToString(n)) == n
  {
    var s := NatToString(n);
    if n >= 10 {
      DigitsValueOfNatToString(n / 10);
      assert s[..|s| - 1] == NatToString(n / 10);
    }
  }

  lemma {:induction false} TrimDigits(s: string)
    requires s != [] && AllDigits(s)
    ensures Trim(s) == s
  {
    var first, last := s[0], s[|s| - 1];
    assert IsDigit(first) && IsDigit(last);
    assert !IsWhitespace(first) && !IsWhitespace(last);
    TrimNoEdges(s);
  }

  /** `Number` reads a non-empty string of digits as its decimal value. */
  lemma NumberOfDigits(s: string)
    requires s != [] && AllDigits(s)
    ensures Number(s) == Some(DigitsValue(s))
  {
    TrimDigits(s);
    assert IsDigit(s[0]);
  }

  /** Printing a natural number and reading it back with `Number` is the identity. */
  lemma NumberOfNatToString(n: nat)
    ensures Number(NatToString(n)) == Some(n)
  {
    NumberOfDigits(NatToString(n));
    DigitsValueOfNatToString(n);
  }

  lemma {:induction false} LeadingDigitsAll(s: string)
    requires AllDigits(s)
    ensures LeadingDigits(s) == s
  {
    if s != [] {
      LeadingDigitsAll(s[1..]);
      assert s == [s[0]] + s[1..];
    }
  }

  /** On a non-empty string of digits, `parseInt` and `Number` agree. */
  lemma ParseIntOnDigits(s: string)
    requires s != [] && AllDigits(s)
    ensures ParseInt(s) == Number(s) == Some(DigitsValue(s))
  {
    NumberOfDigits(s);
    assert IsDigit(s[0]) && !IsWhitespace(s[0]);
    assert TrimStart(s) == s;
    assert s[0] != '-' && s[0] != '+';
    LeadingDigitsAll(s);
  }

  /** `n.toString()` for an integer. */
  function IntToString(n: int): (r: string)
    ensures r != ""
  {
    if n < 0 then "-" + NatToString(-n) else NatToString(n)
  }

  /** Printing an integer and reading it back with `Number` is the identity. */
  lemma NumberOfIntToString(n: int)
    ensures Number(IntToString(n)) == Some(n)
  {
    if n < 0 {
      var m: nat := -n;
      var d := NatToString(m);
      assert IntToString(n) == "-" + d;
      DigitsValueOfNatToString(m);
      NumberOfNegative(d, m);
    } else {
      NumberOfNatToString(n);
    }
  }

  /** `Number` reads a minus sign followed by digits as the negated value. */
  lemma NumberOfNegative(d: string, v: nat)
    requires d != [] && AllDigits(d) && DigitsValue(d) == v
    ensures Number("-" + d) == Some(-(v as int))
  {
    var s := "-" + d;
    assert s[0] == '-' && s[1..] == d;
    var last := d[|d| - 1];
    assert s[|s| - 1] == last && IsDigit(last) && !IsWhitespace(last);
    TrimNoEdges(s);
  }
}
