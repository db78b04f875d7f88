/** JavaScript's global `parseInt`, as `addTask` applies it to a task's points and level.
    The result is NaN or the exact integer the digits denote (its -0 is folded into 0);
    JavaScript would round that integer to a double, which this module does not model. */
module JsNumber {

  datatype Num = NaN | Int(value: int)

  /** The argument handed to `parseInt`: a string, or a number with an integral value. */
  datatype Arg = Text(s: string) | Number(n: int)

  /** The white space and line terminators that `parseInt` skips before the number. */
  predicate IsWhitespace(c: char) {
    || c == '\t' || c == '\n' || c == '\U{000B}' || c == '\U{000C}' || c == '\r' || c == ' '
    || c == '\U{00A0}' || c == '\U{1680}' || ('\U{2000}' <= c <= '\U{200A}')
    || c == '\U{2028}' || c == '\U{2029}' || c == '\U{202F}' || c == '\U{205F}'
    || c == '\U{3000}' || c == '\U{FEFF}'
  }

  function TrimStart(s: string): (r: string)
    ensures |r| <= |s|
    ensures r == [] || !IsWhitespace(r[0])
  {
    if |s| > 0 && IsWhitespace(s[0]) then TrimStart(s[1..]) else s
  }

  /** The value of a digit in radix 36; 36 for a character that is no digit at all. */
  function DigitValue(c: char): (d: nat)
    ensures d <= 36
  {
    if '0' <= c <= '9' then c as int - '0' as int
    else if 'a' <= c <= 'z' then c as int - 'a' as int + 10
    else if 'A' <= c <= 'Z' then c as int - 'A' as int + 10
    else 36
  }

  /** The longest prefix of `s` made of digits of the given radix. */
  function DigitPrefix(s: string, radix: nat): (z: string)
    ensures |z| <= |s| && z == s[..|z|]
    ensures forall i :: 0 <= i < |z| ==> DigitValue(z[i]) < radix
    ensures |z| < |s| ==> DigitValue(s[|z|]) >= radix
  {
    if |s| > 0 && DigitValue(s[0]) < radix then [s[0]] + DigitPrefix(s[1..], radix) else []
  }

  /** The value of a digit string, most significant digit first. */
  function DigitsValue(z: string, radix: nat): nat {
    if z == [] then 0
    else DigitsValue(z[..|z| - 1], radix) * radix + DigitValue(z[|z| - 1])
  }

  /** `parseInt(s)` with no radix: skip leading white space, then read a signed magnitude. */
  function ParseText(s: string): Num {
    ParseSigned(TrimStart(s))
  }

  /** One leading `-` negates the magnitude that follows; one leading `+` is dropped. */
  function ParseSigned(t: string): Num {
    if |t| > 0 && t[0] == '-' then Negate(ParseMagnitude(t[1..]))
    else if |t| > 0 && t[0] == '+' then ParseMagnitude(t[1..])
    else ParseMagnitude(t)
  }

  /** A `0x` or `0X` prefix selects radix 16; otherwise the radix is 10. */
  function ParseMagnitude(u: string): Num {
    if |u| >= 2 && u[0] == '0' && (u[1] == 'x' || u[1] == 'X') then ReadDigits(u[2..], 16)
    else ReadDigits(u, 10)
  }

  /** The value of the longest digit prefix; NaN when there is no digit at all. */
  function ReadDigits(v: string, radix: nat): Num {
    var z := DigitPrefix(v, radix);
    if z == [] then NaN else Int(DigitsValue(z, radix))
  }

  function Negate(x: Num): Num {
    match x
    case NaN => NaN
    case Int(v) => Int(-v)
  }

  function DigitChar(d: nat): (c: char)
    requires d < 10
    ensures DigitValue(c) == d
  {
    ('0' as int + d) as char
  }

  /** The decimal text of a natural number, without leading zeros. */
  function NatDecimal(n: nat): (s: string)
    ensures |s| >= 1
  {
    if n < 10 then [DigitChar(n)] else NatDecimal(n / 10) + [DigitChar(n % 10)]
  }

  /** `String(n)` for an integral number below 10^21 in magnitude. */
  function DecimalString(n: int): string {
    if n < 0 then "-" + NatDecimal(-n) else NatDecimal(n)
  }

  /** `parseInt(a)`: a number is first converted to its decimal text. */
  function ParseInt(a: Arg): (r: Num)
    ensures a.Number? ==> r == Int(a.n)
  {
    match a
    case Text(s) => ParseText(s)
    case Number(n) => DecimalRoundTrip(n); ParseText(DecimalString(n))
  }

  lemma {:induction false} NatDecimalDigits(n: nat)
    ensures forall i :: 0 <= i < |NatDecimal(n)| ==> DigitValue(NatDecimal(n)[i]) < 10
    ensures NatDecimal(n)[0] == '0' ==> n == 0 && |NatDecimal(n)| == 1
    ensures DigitsValue(NatDecimal(n), 10) == n
  {
    if n >= 10 {
      NatDecimalDigits(n / 10);
      var s := NatDecimal(n);
      assert s[..|s| - 1] == NatDecimal(n / 10);
      assert s[0] == NatDecimal(n / 10)[0];
    }
  }

  lemma {:induction false} DigitPrefixOfDigits(s: string, radix: nat)
    requires forall i :: 0 <= i < |s| ==> DigitValue(s[i]) < radix
    ensures DigitPrefix(s, radix) == s
  {
    if |s| > 0 {
      DigitPrefixOfDigits(s[1..], radix);
    }
  }

  /** A decimal digit string without a leading zero is read as its own value. */
  lemma ReadDecimal(s: string)
    requires |s| >= 1 && forall i :: 0 <= i < |s| ==> DigitValue(s[i]) < 10
    requires s[0] == '0' ==> |s| == 1
    ensures ParseMagnitude(s) == Int(DigitsValue(s, 10))
    ensures TrimStart(s) == s && ParseSigned(s) == ParseMagnitude(s)
  {
    DigitPrefixOfDigits(s, 10);
    DecimalDigit(s[0]);
    assert ParseMagnitude(s) == ReadDigits(s, 10);
  }

  /** A decimal digit is neither white space nor a sign. */
  lemma DecimalDigit(c: char)
    requires DigitValue(c) < 10
    ensures '0' <= c <= '9' && !IsWhitespace(c) && c != '-' && c != '+'
  {
  }

  /** Text that starts with a decimal digit has no white space or sign to skip. */
  lemma DigitStart(t: string)
    requires |t| > 0 && DigitValue(t[0]) < 10
    ensures ParseText(t) == ParseMagnitude(t)
  {
    DecimalDigit(t[0]);
  }

  /** parseInt(String(n)) == n: the decimal text of an integer reads back as that integer. */
  lemma {:induction false} DecimalRoundTrip(n: int)
    ensures ParseText(DecimalString(n)) == Int(n)
  {
    var m: nat := if n < 0 then -n else n;
    var d := NatDecimal(m);
    NatDecimalDigits(m);
    ReadDecimal(d);
    if n < 0 {
      assert "-" + d == DecimalString(n);
      SignRead(d);
    } else {
      assert d == DecimalString(n);
    }
  }

  lemma {:induction false} TrimWhitespacePrefix(w: string, s: string)
    requires forall i :: 0 <= i < |w| ==> IsWhitespace(w[i])
    ensures TrimStart(w + s) == TrimStart(s)
  {
    if |w| > 0 {
      assert (w + s)[0] == w[0];
      assert (w + s)[1..] == w[1..] + s;
      TrimWhitespacePrefix(w[1..], s);
    } else {
      assert w + s == s;
    }
  }

  /** Leading white space never changes what `parseInt` reads. */
  lemma LeadingWhitespaceIgnored(w: string, s: string)
    requires forall i :: 0 <= i < |w| ==> IsWhitespace(w[i])
    ensures ParseText(w + s) == ParseText(s)
  {
    TrimWhitespacePrefix(w, s);
  }

  /** Whatever follows the digits is ignored: "25px" reads as 25. */
  lemma {:induction false} TrailingTextIgnored(n: nat, rest: string)
    requires rest == [] || DigitValue(rest[0]) >= 10
    requires n == 0 ==> rest == [] || (rest[0] != 'x' && rest[0] != 'X')
    ensures ParseText(NatDecimal(n) + rest) == Int(n)
  {
    var s := NatDecimal(n);
    var t := s + rest;
    NatDecimalDigits(n);
    assert t[0] == s[0];
    DigitStart(t);
    DigitPrefixAppend(s, rest, 10);
    assert ParseMagnitude(t) == ReadDigits(t, 10);
  }

  lemma {:induction false} DigitPrefixAppend(s: string, rest: string, radix: nat)
    requires forall i :: 0 <= i < |s| ==> DigitValue(s[i]) < radix
    requires rest == [] || DigitValue(rest[0]) >= radix
    ensures DigitPrefix(s + rest, radix) == s
  {
    if |s| > 0 {
      assert (s + rest)[1..] == s[1..] + rest;
      DigitPrefixAppend(s[1..], rest, radix);
    }
  }

  /** What follows the white space and the optional sign. */
  function Unsigned(t: string): (u: string)
    ensures |u| <= |t|
  {
    if |t| > 0 && (t[0] == '-' || t[0] == '+') then t[1..] else t
  }

  /** Text with no decimal digit after the white space and the optional sign reads as NaN:
      "", "-", "+abc" and "  x" alike. */
  lemma NoDigitsIsNaN(s: string)
    requires var u := Unsigned(TrimStart(s)); u == [] || DigitValue(u[0]) >= 10
    ensures ParseText(s) == NaN
  {
    var u := Unsigned(TrimStart(s));
    assert ParseMagnitude(u) == ReadDigits(u, 10);
  }

  /** The empty text, a lone sign, a sign before letters and white space before a letter
      all read as NaN. */
  lemma NaNExamples()
    ensures ParseText("") == NaN && ParseText("-") == NaN
    ensures ParseText("+abc") == NaN && ParseText("  x") == NaN
  {
    NoDigitsIsNaN("-");
    NoDigitsIsNaN("+abc");
    assert TrimStart("  x") == "x" by {
      assert "  x"[1..] == " x" && " x"[1..] == "x";
    }
  }

  /** One leading `-` negates what follows, one leading `+` is dropped. */
  lemma SignRead(u: string)
    ensures ParseText("-" + u) == Negate(ParseMagnitude(u))
    ensures ParseText("+" + u) == ParseMagnitude(u)
  {
    var m, p := "-" + u, "+" + u;
    assert m[0] == '-' && m[1..] == u && TrimStart(m) == m;
    assert p[0] == '+' && p[1..] == u && TrimStart(p) == p;
  }

  /** A `0x` prefix switches to radix 16: the hex digits after it are read, up to the
      first character that is no hex digit. */
  lemma HexRead(z: string, rest: string)
    requires |z| > 0 && forall i :: 0 <= i < |z| ==> DigitValue(z[i]) < 16
    requires rest == [] || DigitValue(rest[0]) >= 16
    ensures ParseText("0x" + z + rest) == Int(DigitsValue(z, 16))
  {
    var w := z + rest;
    var t := "0x" + w;
    assert "0x" + z + rest == t;
    assert t[0] == '0' && t[1] == 'x' && t[2..] == w;
    DecimalDigit(t[0]);
    assert TrimStart(t) == t;
    DigitPrefixAppend(z, rest, 16);
  }

  /** "0x1A" reads as 26. */
  lemma HexExample()
    ensures ParseText("0x1A") == Int(26)
  {
    HexRead("1A", "");
    assert "0x" + "1A" + "" == "0x1A";
    assert DigitsValue("1", 16) == 1;
  }
}
