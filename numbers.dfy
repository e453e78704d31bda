/**
 * 32-bit integers as the three implementations read and write them:
 * .NET Int32.Parse / Int32.TryParse (NumberStyles.Integer), C++ std::stoi,
 * and the decimal text of an int (C# string interpolation).
 */
module Numbers {
  import opened Wrappers
  import opened Text

  const Int32Min: int := -0x8000_0000
  const Int32Max: int := 0x7FFF_FFFF

  predicate IsInt32(n: int) {
    Int32Min <= n <= Int32Max
  }

  predicate IsDigit(c: char) {
    '0' <= c <= '9'
  }

  predicate AllDigits(s: string) {
    forall i :: 0 <= i < |s| ==> IsDigit(s[i])
  }

  function DigitValue(c: char): nat
    requires IsDigit(c)
  {
    (c as int) - ('0' as int)
  }

  function DigitChar(d: nat): (c: char)
    requires d < 10
    ensures IsDigit(c) && DigitValue(c) == d
  {
    (('0' as int) + d) as char
  }

  /** The value of a run of decimal digits, most significant first. */
  function DigitsValue(s: string): nat
    requires AllDigits(s)
  {
    if s == [] then 0 else DigitsValue(s[..|s| - 1]) * 10 + DigitValue(s[|s| - 1])
  }

  /** The shortest decimal digits of n. */
  function NatDigits(n: nat): (r: string)
    ensures |r| >= 1 && AllDigits(r)
  {
    if n < 10 then [DigitChar(n)] else NatDigits(n / 10) + [DigitChar(n % 10)]
  }

  /** The decimal text of an integer: a '-' in front of negative values. */
  function IntToString(n: int): (r: string)
    ensures r != [] && (IsDigit(r[0]) || r[0] == '-') && IsDigit(r[|r| - 1])
    ensures '=' !in r
  {
    if n < 0 then "-" + NatDigits(-n) else NatDigits(n)
  }

  lemma {:induction false} NatDigitsValue(n: nat)
    ensures DigitsValue(NatDigits(n)) == n
  {
    if n >= 10 {
      NatDigitsValue(n / 10);
      var s := NatDigits(n);
      assert s[..|s| - 1] == NatDigits(n / 10);
    }
  }

  /** Splits an optional leading sign off. */
  function SignAndRest(t: string): (bool, string) {
    if t != [] && (t[0] == '-' || t[0] == '+') then (t[0] == '-', t[1..]) else (false, t)
  }

  /**
   * Int32.Parse and Int32.TryParse with NumberStyles.Integer: white space
   * around the number, one optional sign, at least one digit, nothing else,
   * and the value in range. None is FormatException / OverflowException,
   * or TryParse answering false.
   */
  function ParseInt32(s: string): (r: Option<int>)
    ensures r.Some? ==> IsInt32(r.value)
  {
    var (neg, digits) := SignAndRest(TrimWith(s, IsAsciiSpace));
    if digits == [] || !AllDigits(digits) then None
    else
      var v: int := if neg then 0 - (DigitsValue(digits) as int) else DigitsValue(digits);
      if IsInt32(v) then Some(v) else None
  }

  /** The longest prefix of decimal digits. */
  function LeadingDigits(s: string): (r: string)
    ensures |r| <= |s| && r == s[..|r|] && AllDigits(r)
    ensures |r| < |s| ==> !IsDigit(s[|r|])
  {
    if s == [] || !IsDigit(s[0]) then ""
    else
      var r := LeadingDigits(s[1..]);
      assert s == [s[0]] + s[1..];
      [s[0]] + r
  }

  /**
   * std::stoi in base 10: leading white space is skipped, then an optional
   * sign and the longest run of digits; anything after it is ignored.
   * None is std::invalid_argument (no digits) or std::out_of_range.
   */
  function Stoi(s: string): (r: Option<int>)
    ensures r.Some? ==> IsInt32(r.value)
  {
    var (neg, rest) := SignAndRest(TrimStart(s, IsAsciiSpace));
    var digits := LeadingDigits(rest);
    if digits == [] then None
    else
      var v: int := if neg then 0 - (DigitsValue(digits) as int) else DigitsValue(digits);
      if IsInt32(v) then Some(v) else None
  }

  /** Writing an int and parsing it back with Int32.Parse gives the same int. */
  lemma {:induction false} ParseInt32OfIntToString(n: int)
    requires IsInt32(n)
    ensures ParseInt32(IntToString(n)) == Some(n)
  {
    var s := IntToString(n);
    assert !IsAsciiSpace(s[0]) && !IsAsciiSpace(s[|s| - 1]);
    TrimWithFixed(s, IsAsciiSpace);
    assert TrimWith(s, IsAsciiSpace) == s;
    var digits := if n < 0 then NatDigits(-n) else NatDigits(n);
    if n < 0 {
      NatDigitsValue(-n);
      assert s[1..] == digits;
      assert SignAndRest(s) == (true, digits);
    } else {
      NatDigitsValue(n);
      assert SignAndRest(s) == (false, digits);
    }
    assert DigitsValue(digits) == if n < 0 then -n else n;
  }

  /** Writing an int and reading it back with std::stoi gives the same int. */
  lemma StoiOfIntToString(n: int)
    requires IsInt32(n)
    ensures Stoi(IntToString(n)) == Some(n)
  {
    var s := IntToString(n);
    assert TrimStart(s, IsAsciiSpace) == s;
    if n < 0 {
      var digits := NatDigits(-n);
      assert s[1..] == digits;
      assert SignAndRest(s) == (true, digits);
      NatDigitsValue(-n);
      StoiOfSignedDigits(s, true, digits);
    } else {
      NatDigitsValue(n);
      StoiOfSignedDigits(s, false, s);
    }
  }

  /** std::stoi on a text whose sign and digits make up all of it after the blanks. */
  lemma StoiOfSignedDigits(s: string, neg: bool, digits: string)
    requires SignAndRest(TrimStart(s, IsAsciiSpace)) == (neg, digits)
    requires digits != [] && AllDigits(digits)
    ensures var v: int := if neg then 0 - (DigitsValue(digits) as int) else DigitsValue(digits);
      Stoi(s) == if IsInt32(v) then Some(v) else None
  {
    AllDigitsLead(digits);
  }

  lemma {:induction false} AllDigitsLead(s: string)
    requires AllDigits(s)
    ensures LeadingDigits(s) == s
  {
    if s != [] {
      AllDigitsLead(s[1..]);
    }
  }

  /** std::stoi skips blanks before the digits and ignores what follows them. */
  lemma StoiLoose(digits: string, rest: string)
    requires digits != [] && AllDigits(digits) && (rest == [] || !IsDigit(rest[0]))
    requires IsInt32(DigitsValue(digits))
    ensures Stoi(" " + digits + rest) == Some(DigitsValue(digits))
  {
    var v := " " + digits + rest;
    SkipOneBlank(digits + rest);
    assert v == " " + (digits + rest);
    assert (digits + rest)[0] == digits[0];
    assert SignAndRest(digits + rest) == (false, digits + rest);
    LeadingDigitsOf(digits, rest);
  }

  /** One blank before a text that starts with something else is all TrimStart removes. */
  lemma SkipOneBlank(t: string)
    requires t != [] && !IsAsciiSpace(t[0])
    ensures TrimStart(" " + t, IsAsciiSpace) == t
  {
    assert (" " + t)[1..] == t;
  }

  lemma {:induction false} LeadingDigitsOf(digits: string, rest: string)
    requires AllDigits(digits) && (rest == [] || !IsDigit(rest[0]))
    ensures LeadingDigits(digits + rest) == digits
  {
    if digits != [] {
      assert (digits + rest)[1..] == digits[1..] + rest;
      LeadingDigitsOf(digits[1..], rest);
    } else {
      assert digits + rest == rest;
    }
  }
}
