/** The two number conversions the posts route relies on: the global
    `parseInt(string)` with no radix argument (ECMAScript section 19.2.5),
    and the decimal spelling of a non-negative integer that a template
    literal produces. Numbers are mathematical integers here. */
module JsNumber {
  import opened Common

  /** The value of `c` as a digit in `radix` (2 to 36), if it is one. */
  function DigitValue(c: char, radix: nat): (d: Option<nat>)
    ensures d.Some? ==> d.value < radix
  {
    var v: int :=
      if '0' <= c <= '9' then c as int - '0' as int
      else if 'a' <= c <= 'z' then c as int - 'a' as int + 10
      else if 'A' <= c <= 'Z' then c as int - 'A' as int + 10
      else radix;
    if v < radix then Some(v) else None
  }

  predicate IsDigitIn(c: char, radix: nat) {
    DigitValue(c, radix).Some?
  }

  /** The longest prefix of `s` made of digits in `radix`. */
  function DigitPrefix(s: string, radix: nat): (r: string)
    ensures |r| <= |s| && r == s[..|r|]
    ensures forall i :: 0 <= i < |r| ==> IsDigitIn(r[i], radix)
    ensures |r| < |s| ==> !IsDigitIn(s[|r|], radix)
  {
    if s != [] && IsDigitIn(s[0], radix) then [s[0]] + DigitPrefix(s[1..], radix) else []
  }

  /** The value of a digit string, most significant digit first. */
  function DigitsValue(s: string, radix: nat): nat
    requires forall i :: 0 <= i < |s| ==> IsDigitIn(s[i], radix)
  {
    if s == [] then 0
    else
      var init := s[..|s| - 1];
      var last := s[|s| - 1];
      assert IsDigitIn(last, radix);
      assert forall i :: 0 <= i < |init| ==> init[i] == s[i];
      var high := DigitsValue(init, radix);
      ProductIsNat(high, radix);
      high * radix + DigitValue(last, radix).value
  }

  lemma ProductIsNat(a: nat, b: nat)
    ensures a * b >= 0
  {
  }

  /** `parseInt(s)`: skip leading white space, take an optional sign, then a
      `0x`/`0X` prefix selects radix 16 and otherwise radix 10; the longest
      run of digits is read, and `None` stands for NaN when there is none.
      The sign of a zero is dropped, since every caller tests the result for
      truthiness, where -0 and 0 agree. */
  function ParseInt(s: string): (r: Option<int>)
    ensures r.None? <==> DigitPrefix(DigitsPart(s).0, DigitsPart(s).1) == []
  {
    var (digits, radix) := DigitsPart(s);
    var d := DigitPrefix(digits, radix);
    if d == [] then None
    else
      var v: int := DigitsValue(d, radix);
      Some(if Negative(s) then -v else v)
  }

  /** The text after white space and sign. */
  function Unsigned(s: string): string {
    var t := TrimStart(s);
    if t != [] && (t[0] == '-' || t[0] == '+') then t[1..] else t
  }

  predicate Negative(s: string) {
    var t := TrimStart(s);
    t != [] && t[0] == '-'
  }

  /** The candidate digits and their radix, after the `0x` prefix if any. */
  function DigitsPart(s: string): (string, nat) {
    var u := Unsigned(s);
    if |u| >= 2 && u[0] == '0' && (u[1] == 'x' || u[1] == 'X') then (u[2..], 16) else (u, 10)
  }

  /** The character of a decimal digit. */
  function DigitChar(d: nat): (c: char)
    requires d < 10
    ensures DigitValue(c, 10) == Some(d)
  {
    ('0' as int + d) as char
  }

  /** `${n}`: the decimal spelling of `n`, without leading zeros. */
  function Decimal(n: nat): (r: string)
    ensures |r| > 0
    ensures forall i :: 0 <= i < |r| ==> IsDigitIn(r[i], 10)
    ensures n > 0 ==> r[0] != '0'
  {
    if n < 10 then [DigitChar(n)] else Decimal(n / 10) + [DigitChar(n % 10)]
  }

  lemma {:induction false} DecimalValue(n: nat)
    ensures DigitsValue(Decimal(n), 10) == n
  {
    if n >= 10 {
      var r := Decimal(n);
      assert r[..|r| - 1] == Decimal(n / 10);
      DecimalValue(n / 10);
    }
  }

  lemma DigitPrefixOfDigits(s: string, radix: nat)
    requires forall i :: 0 <= i < |s| ==> IsDigitIn(s[i], radix)
    ensures DigitPrefix(s, radix) == s
  {
  }

  /** `parseInt` reads back what the decimal spelling writes. */
  lemma ParseIntOfDecimal(n: nat)
    ensures ParseInt(Decimal(n)) == Some(n)
  {
    var s := Decimal(n);
    assert !IsJsWhitespace(s[0]) && s[0] != '-' && s[0] != '+';
    assert TrimStart(s) == s;
    assert Unsigned(s) == s;
    if |s| >= 2 {
      assert s[0] == '0' ==> n == 0;
      assert s[0] != '0';
    }
    assert DigitsPart(s) == (s, 10);
    DigitPrefixOfDigits(s, 10);
    DecimalValue(n);
  }

  /** Leading white space and trailing text are ignored. */
  lemma ParseIntSkipsSpaceAndTail()
    ensures ParseInt(" 12px") == Some(12)
  {
    SpaceTwelvePxParts();
    TwelvePxDigits();
    TwelveValue();
  }

  lemma SpaceTwelvePxParts()
    ensures TrimStart(" 12px") == "12px"
    ensures DigitsPart(" 12px") == ("12px", 10)
  {
    var s := " 12px";
    assert s[0] == ' ' && s[1..] == "12px";
    assert TrimStart("12px") == "12px" by { DigitIsNotSpace('1'); }
  }

  lemma TwelvePxDigits()
    ensures DigitPrefix("12px", 10) == "12"
  {
    assert "12px"[1..] == "2px";
    assert "2px"[1..] == "px";
    assert !IsDigitIn('p', 10);
    assert DigitPrefix("px", 10) == [];
  }

  lemma TwelveValue()
    ensures DigitsValue("12", 10) == 12
  {
    assert "12"[..1] == "1";
    assert "1"[..0] == [];
  }

  /** A decimal digit is not white space. */
  lemma DigitIsNotSpace(c: char)
    requires '0' <= c <= '9'
    ensures !IsJsWhitespace(c)
  {
  }

  lemma ParseIntSign()
    ensures ParseInt("-7") == Some(-7)
  {
    var s := "-7";
    assert !IsJsWhitespace(s[0]);
    assert TrimStart(s) == s;
    assert Negative(s);
    assert Unsigned(s) == "7" by { assert s[1..] == "7"; }
    assert DigitsPart(s) == ("7", 10);
    assert DigitPrefix("7", 10) == "7" by { assert "7"[1..] == []; }
    assert DigitsValue("7", 10) == 7 by { assert "7"[..0] == []; }
  }

  /** `0x` switches to hexadecimal. */
  lemma ParseIntHex()
    ensures ParseInt("0x1A") == Some(26)
  {
    assert TrimStart("0x1A") == "0x1A";
    assert DigitsPart("0x1A") == ("1A", 16);
    assert DigitPrefix("1A", 16) == "1A" by {
      assert "1A"[1..] == "A";
      assert "A"[1..] == [];
    }
    assert "1A"[..1] == "1";
    assert DigitsValue("1A", 16) == 26;
  }

  /** Text without leading digits, and the empty string, give NaN. */
  lemma ParseIntNaN()
    ensures ParseInt("abc") == None
    ensures ParseInt("") == None
  {
    assert TrimStart("abc") == "abc";
    assert DigitsPart("abc") == ("abc", 10);
  }
}
