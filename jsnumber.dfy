/**
 * The integer-valued part of JavaScript's `Number(string)` conversion
 * (StringToNumber in section 7.1.4.1.1 of ECMA-262): surrounding white space is
 * ignored, the empty string is 0, an optionally signed run of decimal digits is
 * its value, and `0x`, `0o`, `0b` introduce unsigned hexadecimal, octal and
 * binary digits. Every other string is modelled as NaN (`None`).
 */
module JsNumber {
  import opened Wrappers

  /** StrWhiteSpaceChar: ECMAScript WhiteSpace (TAB, VT, FF, ZWNBSP, the Zs separators) and LineTerminator. */
  predicate IsWhiteSpace(c: char) {
    c == '\t' || c == '\n' || c == '\U{000B}' || c == '\U{000C}' || c == '\r' ||
    c == ' ' || c == '\U{00A0}' || c == '\U{1680}' ||
    ('\U{2000}' <= c <= '\U{200A}') ||
    c == '\U{2028}' || c == '\U{2029}' || c == '\U{202F}' || c == '\U{205F}' ||
    c == '\U{3000}' || c == '\U{FEFF}'
  }

  /** Drops leading white space. */
  function TrimStart(s: string): (r: string)
    ensures |r| <= |s|
  {
    if s != [] && IsWhiteSpace(s[0]) then TrimStart(s[1..]) else s
  }

  /** Drops trailing white space. */
  function TrimEnd(s: string): (r: string)
    ensures |r| <= |s|
  {
    if s != [] && IsWhiteSpace(s[|s| - 1]) then TrimEnd(s[..|s| - 1]) else s
  }

  /** `TrimStart` keeps a suffix that does not start with white space and removes only white space. */
  lemma {:induction false} TrimStartShape(s: string)
    ensures var r := TrimStart(s);
            r == s[|s| - |r|..] &&
            (forall i :: 0 <= i < |s| - |r| ==> IsWhiteSpace(s[i])) &&
            (r == [] || !IsWhiteSpace(r[0]))
  {
    if s != [] && IsWhiteSpace(s[0]) {
      TrimStartShape(s[1..]);
      var r := TrimStart(s);
      assert s[1..][|s| - 1 - |r|..] == s[|s| - |r|..];
      forall i | 0 < i < |s| - |r| ensures IsWhiteSpace(s[i]) {
        assert s[i] == s[1..][i - 1];
      }
    }
  }

  /** `TrimEnd` keeps a prefix that does not end with white space and removes only white space. */
  lemma {:induction false} TrimEndShape(s: string)
    ensures var r := TrimEnd(s);
            r == s[..|r|] &&
            (forall i :: |r| <= i < |s| ==> IsWhiteSpace(s[i])) &&
            (r == [] || !IsWhiteSpace(r[|r| - 1]))
  {
    if s != [] && IsWhiteSpace(s[|s| - 1]) {
      var t := s[..|s| - 1];
      TrimEndShape(t);
      var r := TrimEnd(s);
      assert t[..|r|] == s[..|r|];
      forall i | |r| <= i < |s| - 1 ensures IsWhiteSpace(s[i]) {
        assert s[i] == t[i];
      }
    }
  }

  function Trim(s: string): (r: string) {
    TrimEnd(TrimStart(s))
  }

  /** The value of a digit character in bases up to 16; 16 for anything else. */
  function DigitValue(c: char): (d: nat)
    ensures d <= 16
  {
    if '0' <= c <= '9' then c as int - '0' as int
    else if 'a' <= c <= 'f' then c as int - 'a' as int + 10
    else if 'A' <= c <= 'F' then c as int - 'A' as int + 10
    else 16
  }

  predicate AllDigits(s: string, base: nat) {
    forall i :: 0 <= i < |s| ==> DigitValue(s[i]) < base
  }

  /** The number a digit string denotes in `base`, most significant digit first. */
  function DigitsValue(s: string, base: nat): (v: nat)
    requires AllDigits(s, base)
  {
    if s == [] then 0 else DigitsValue(s[..|s| - 1], base) * base + DigitValue(s[|s| - 1])
  }

  /** A non-empty run of digits of `base`, or NaN. */
  function ParseDigits(s: string, base: nat): (v: Option<nat>) {
    if s != [] && AllDigits(s, base) then Some(DigitsValue(s, base)) else None
  }

  /** `Number(s)` for integer literals; `None` stands for NaN. */
  function StringToNumber(s: string): (v: Option<int>) {
    NumericLiteralValue(Trim(s))
  }

  /** The value of an already trimmed string, following the StringNumericLiteral grammar. */
  function NumericLiteralValue(t: string): (v: Option<int>) {
    if t == [] then Some(0)
    else if |t| >= 2 && t[0] == '0' && (t[1] == 'x' || t[1] == 'X') then ParseDigits(t[2..], 16)
    else if |t| >= 2 && t[0] == '0' && (t[1] == 'o' || t[1] == 'O') then ParseDigits(t[2..], 8)
    else if |t| >= 2 && t[0] == '0' && (t[1] == 'b' || t[1] == 'B') then ParseDigits(t[2..], 2)
    else if t[0] == '+' then ParseDigits(t[1..], 10)
    else if t[0] == '-' then
      match ParseDigits(t[1..], 10)
      case Some(n) => var v: int := n; Some(-v)
      case None => None
    else ParseDigits(t, 10)
  }

  function DigitChar(d: nat): (c: char)
    requires d < 10
  {
    ('0' as int + d) as char
  }

  /** The shortest decimal spelling of a natural number. */
  function DecimalDigits(n: nat): (s: string)
    ensures s != []
  {
    if n < 10 then [DigitChar(n)] else DecimalDigits(n / 10) + [DigitChar(n % 10)]
  }

  /** `String(n)` for an integer `n`: a minus sign for negatives, then the decimal digits. */
  function ShowInt(n: int): (s: string) {
    if n < 0 then "-" + DecimalDigits(-n) else DecimalDigits(n)
  }

  /** The decimal spelling consists of decimal digits and denotes `n`. */
  lemma {:induction false} DecimalDigitsValue(n: nat)
    ensures AllDigits(DecimalDigits(n), 10)
    ensures DigitsValue(DecimalDigits(n), 10) == n
    ensures DecimalDigits(n)[0] == '0' ==> n == 0
  {
    if n >= 10 {
      DecimalDigitsValue(n / 10);
      var s := DecimalDigits(n);
      assert s[..|s| - 1] == DecimalDigits(n / 10);
      assert s[0] == DecimalDigits(n / 10)[0];
    }
  }

  /** A string that neither starts nor ends with white space trims to itself. */
  lemma TrimUntouched(s: string)
    requires s != [] && !IsWhiteSpace(s[0]) && !IsWhiteSpace(s[|s| - 1])
    ensures Trim(s) == s
  {
  }

  /** `Number` reads the decimal spelling of a natural number back as that number. */
  lemma NumberOfDecimalDigits(m: nat)
    ensures StringToNumber(DecimalDigits(m)) == Some(m)
  {
    var d := DecimalDigits(m);
    DecimalDigitsValue(m);
    assert '0' <= d[0] <= '9' && '0' <= d[|d| - 1] <= '9';
    TrimUntouched(d);
    UnsignedDecimalLiteral(d);
  }

  /** A digit string without a leading zero is read as a plain decimal number. */
  lemma UnsignedDecimalLiteral(t: string)
    requires t != [] && '0' <= t[0] <= '9'
    requires |t| >= 2 ==> t[0] != '0'
    ensures NumericLiteralValue(t) == ParseDigits(t, 10)
  {
  }

  /** Any run of decimal digits, leading zeros included, is read as a plain decimal number. */
  lemma DecimalLiteral(t: string)
    requires t != [] && forall i :: 0 <= i < |t| ==> '0' <= t[i] <= '9'
    ensures NumericLiteralValue(t) == ParseDigits(t, 10)
  {
    assert |t| >= 2 ==> '0' <= t[1] <= '9';
  }

  /** A run of zeros denotes 0. */
  lemma {:induction false} ZerosValue(zeros: string)
    requires forall i :: 0 <= i < |zeros| ==> zeros[i] == '0'
    ensures AllDigits(zeros, 10) && DigitsValue(zeros, 10) == 0
    decreases |zeros|
  {
    if zeros != [] {
      ZerosValue(zeros[..|zeros| - 1]);
    }
  }

  /** Leading zeros do not change the value of a digit string. */
  lemma {:induction false} LeadingZerosValue(zeros: string, d: string)
    requires forall i :: 0 <= i < |zeros| ==> zeros[i] == '0'
    requires AllDigits(d, 10)
    ensures AllDigits(zeros + d, 10) && DigitsValue(zeros + d, 10) == DigitsValue(d, 10)
    decreases |d|
  {
    if d == [] {
      assert zeros + d == zeros;
      ZerosValue(zeros);
    } else {
      var init := d[..|d| - 1];
      LeadingZerosValue(zeros, init);
      assert (zeros + d)[..|zeros + d| - 1] == zeros + init;
      assert (zeros + d)[|zeros + d| - 1] == d[|d| - 1];
    }
  }

  /** Leading white space is skipped whatever follows it. */
  lemma {:induction false} TrimStartSkipsPad(pad: string, t: string)
    requires forall i :: 0 <= i < |pad| ==> IsWhiteSpace(pad[i])
    ensures TrimStart(pad + t) == TrimStart(t)
    decreases |pad|
  {
    if pad != [] {
      TrimStartSkipsPad(pad[1..], t);
      assert (pad + t)[1..] == pad[1..] + t;
    } else {
      assert pad + t == t;
    }
  }

  /** Trailing white space is skipped whatever precedes it. */
  lemma {:induction false} TrimEndSkipsPad(t: string, pad: string)
    requires forall i :: 0 <= i < |pad| ==> IsWhiteSpace(pad[i])
    ensures TrimEnd(t + pad) == TrimEnd(t)
    decreases |pad|
  {
    if pad != [] {
      var init := pad[..|pad| - 1];
      TrimEndSkipsPad(t, init);
      assert (t + pad)[..|t + pad| - 1] == t + init;
      assert (t + pad)[|t + pad| - 1] == pad[|pad| - 1];
    } else {
      assert t + pad == t;
    }
  }

  /** White space around a literal that neither starts nor ends with white space is trimmed off. */
  lemma TrimPadded(lead: string, t: string, trail: string)
    requires forall i :: 0 <= i < |lead| ==> IsWhiteSpace(lead[i])
    requires forall i :: 0 <= i < |trail| ==> IsWhiteSpace(trail[i])
    requires t != [] && !IsWhiteSpace(t[0]) && !IsWhiteSpace(t[|t| - 1])
    ensures Trim(lead + t + trail) == t
  {
    TrimStartSkipsPad(lead, t + trail);
    assert lead + t + trail == lead + (t + trail);
    assert (t + trail)[0] == t[0];
    assert TrimStart(t + trail) == t + trail;
    TrimEndSkipsPad(t, trail);
    TrimUntouched(t);
  }

  /**
   * `Number` ignores surrounding white space and leading zeros: padding the
   * decimal spelling of `n` with either still reads as `n`.
   */
  lemma NumberOfPaddedDigits(lead: string, zeros: string, n: nat, trail: string)
    requires forall i :: 0 <= i < |lead| ==> IsWhiteSpace(lead[i])
    requires forall i :: 0 <= i < |trail| ==> IsWhiteSpace(trail[i])
    requires forall i :: 0 <= i < |zeros| ==> zeros[i] == '0'
    ensures StringToNumber(lead + zeros + DecimalDigits(n) + trail) == Some(n)
  {
    var d := DecimalDigits(n);
    var t := zeros + d;
    DecimalDigitsValue(n);
    LeadingZerosValue(zeros, d);
    assert forall i :: 0 <= i < |t| ==> '0' <= t[i] <= '9' by {
      forall i | 0 <= i < |t| ensures '0' <= t[i] <= '9' {
        assert DigitValue(t[i]) < 10;
      }
    }
    assert lead + zeros + d + trail == lead + t + trail;
    TrimPadded(lead, t, trail);
    DecimalLiteral(t);
  }

  /** `Number` reads a minus sign followed by a decimal spelling back as the negated number. */
  lemma NumberOfNegatedDigits(m: nat)
    ensures StringToNumber("-" + DecimalDigits(m)) == Some(-(m as int))
  {
    var d := DecimalDigits(m);
    var s := "-" + d;
    DecimalDigitsValue(m);
    assert '0' <= d[|d| - 1] <= '9' && s[|s| - 1] == d[|d| - 1];
    TrimUntouched(s);
    assert s[1..] == d;
    assert ParseDigits(d, 10) == Some(m);
    assert NumericLiteralValue(s) == Some(-(m as int));
  }

  /** `Number(String(n)) === n` for every integer `n`. */
  lemma NumberOfShowInt(n: int)
    ensures StringToNumber(ShowInt(n)) == Some(n)
  {
    if n < 0 {
      NumberOfNegatedDigits(-n);
    } else {
      NumberOfDecimalDigits(n);
    }
  }

  /** Distinct integers have distinct spellings, so a spelling names one number only. */
  lemma ShowIntInjective(a: int, b: int)
    requires ShowInt(a) == ShowInt(b)
    ensures a == b
  {
    NumberOfShowInt(a);
    NumberOfShowInt(b);
  }
}
