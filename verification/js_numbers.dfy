/** The conversions between JavaScript numbers and text that the analytics
    code relies on: Number.prototype.toString on integers, the global
    parseInt with no radix, and Number() applied to a string (which is what a
    relational comparison or a division does to a string operand). Only
    integer values are modelled; a None result stands for NaN. */
module JsNumbers {
  import opened Wrappers

  predicate IsDigit(c: char) { '0' <= c <= '9' }

  function DigitValue(c: char): (d: nat)
    requires IsDigit(c)
    ensures d < 10
  {
    c as int - '0' as int
  }

  function DigitChar(d: nat): (c: char)
    requires d < 10
    ensures IsDigit(c) && DigitValue(c) == d
  {
    (d + '0' as int) as char
  }

  predicate IsHexDigit(c: char) { IsDigit(c) || 'a' <= c <= 'f' || 'A' <= c <= 'F' }

  function HexDigitValue(c: char): (d: nat)
    requires IsHexDigit(c)
    ensures d < 16
  {
    if IsDigit(c) then DigitValue(c)
    else if 'a' <= c <= 'f' then c as int - 'a' as int + 10
    else c as int - 'A' as int + 10
  }

  /** A lower-case hexadecimal digit, the form JSON.stringify writes. */
  function HexChar(d: nat): (c: char)
    requires d < 16
    ensures IsHexDigit(c) && HexDigitValue(c) == d
  {
    if d < 10 then DigitChar(d) else (d - 10 + 'a' as int) as char
  }

  predicate AllDigits(s: string) { forall i | 0 <= i < |s| :: IsDigit(s[i]) }

  predicate AllHexDigits(s: string) { forall i | 0 <= i < |s| :: IsHexDigit(s[i]) }

  /** The value of a run of decimal digits, most significant first. */
  function DigitsValue(s: string): nat
    requires AllDigits(s)
    decreases |s|
  {
    if s == [] then 0 else 10 * DigitsValue(s[..|s| - 1]) + DigitValue(s[|s| - 1])
  }

  /** The value of a run of hexadecimal digits, most significant first. */
  function HexValue(s: string): nat
    requires AllHexDigits(s)
    decreases |s|
  {
    if s == [] then 0 else 16 * HexValue(s[..|s| - 1]) + HexDigitValue(s[|s| - 1])
  }

  /** The length of the longest prefix of s made of decimal digits. */
  function DigitCount(s: string): (n: nat)
    ensures n <= |s| && AllDigits(s[..n])
    ensures n < |s| ==> !IsDigit(s[n])
  {
    if s == [] || !IsDigit(s[0]) then 0
    else
      var n := 1 + DigitCount(s[1..]);
      assert forall i | 1 <= i < n :: s[..n][i] == s[1..][..n - 1][i - 1];
      n
  }

  /** The length of the longest prefix of s made of hexadecimal digits. */
  function HexDigitCount(s: string): (n: nat)
    ensures n <= |s| && AllHexDigits(s[..n])
    ensures n < |s| ==> !IsHexDigit(s[n])
  {
    if s == [] || !IsHexDigit(s[0]) then 0
    else
      var n := 1 + HexDigitCount(s[1..]);
      assert forall i | 1 <= i < n :: s[..n][i] == s[1..][..n - 1][i - 1];
      n
  }

  /** Number.prototype.toString() on a non-negative integer: its decimal
      digits, with no leading zero. */
  function NatToString(n: nat): (s: string)
    ensures |s| > 0 && AllDigits(s) && DigitsValue(s) == n
    ensures s[0] == '0' ==> s == "0"
  {
    if n < 10 then [DigitChar(n)]
    else
      var prefix := NatToString(n / 10);
      var s := prefix + [DigitChar(n % 10)];
      assert s[..|s| - 1] == prefix;
      s
  }

  /** Number.prototype.toString() on an integer. */
  function IntToString(i: int): (s: string)
    ensures |s| > 0 && (s[0] == '-' <==> i < 0)
    ensures i < 0 ==> AllDigits(s[1..]) && DigitsValue(s[1..]) == -i
    ensures i >= 0 ==> AllDigits(s) && DigitsValue(s) == i
  {
    if i < 0 then "-" + NatToString(-i) else NatToString(i)
  }

  /** The WhiteSpace and LineTerminator code points of ECMAScript, which
      parseInt and Number() skip. */
  predicate IsJsSpace(c: char)
  {
    || c == '\t' || c == '\n' || c == '\U{B}' || c == '\U{C}' || c == '\r' || c == ' '
    || c == '\U{A0}' || c == '\U{1680}' || '\U{2000}' <= c <= '\U{200A}'
    || c == '\U{2028}' || c == '\U{2029}' || c == '\U{202F}' || c == '\U{205F}'
    || c == '\U{3000}' || c == '\U{FEFF}'
  }

  /** s without its leading white space. */
  function TrimStart(s: string): (r: string)
    ensures |r| <= |s| && r == s[|s| - |r|..]
    ensures r == [] || !IsJsSpace(r[0])
  {
    if s != [] && IsJsSpace(s[0]) then TrimStart(s[1..]) else s
  }

  /** s without its trailing white space. */
  function TrimEnd(s: string): (r: string)
    ensures |r| <= |s| && r == s[..|r|]
    ensures r == [] || !IsJsSpace(r[|r| - 1])
  {
    if s != [] && IsJsSpace(s[|s| - 1]) then TrimEnd(s[..|s| - 1]) else s
  }

  /** The value of the decimal digits that s starts with; NaN when there are none. */
  function DecimalPrefix(s: string): (r: Option<nat>)
    ensures r.None? <==> (s == [] || !IsDigit(s[0]))
  {
    var n := DigitCount(s);
    if n == 0 then None else Some(DigitsValue(s[..n]))
  }

  /** The value of the hexadecimal digits that s starts with; NaN when there are none. */
  function HexPrefix(s: string): (r: Option<nat>)
    ensures r.None? <==> (s == [] || !IsHexDigit(s[0]))
  {
    var n := HexDigitCount(s);
    if n == 0 then None else Some(HexValue(s[..n]))
  }

  /** The global parseInt(text) called without a radix: leading white space
      is skipped, one '+' or '-' is accepted, a "0x" or "0X" prefix selects
      base 16, and the longest run of digits of that base which follows is
      read. When there is no such digit the result is NaN (None). */
  function ParseInt(text: string): (r: Option<int>)
    ensures TrimStart(text) == [] ==> r.None?
    ensures (forall i | 0 <= i < |text| :: !IsDigit(text[i])) ==> r.None?
  {
    var s := TrimStart(text);
    if s != [] && s[0] == '-' then Negated(ParseMagnitude(s[1..]))
    else if s != [] && s[0] == '+' then ParseMagnitude(s[1..])
    else ParseMagnitude(s)
  }

  /** The unsigned part of parseInt: base 16 after a "0x" prefix, else base 10. */
  function ParseMagnitude(u: string): Option<int>
  {
    var m := if |u| >= 2 && u[0] == '0' && (u[1] == 'x' || u[1] == 'X') then HexPrefix(u[2..])
             else DecimalPrefix(u);
    match m
    case None => None
    case Some(n) => Some(n)
  }

  function Negated(m: Option<int>): Option<int>
  {
    match m
    case None => None
    case Some(n) => Some(-n)
  }

  /** Number(text) for a string (ECMAScript StringToNumber), restricted to
      integers: white space is trimmed at both ends, the empty text is 0, and
      an optional sign followed only by decimal digits is that integer. Every
      other text is read as NaN (None). */
  function ToNumber(text: string): (r: Option<int>)
    ensures TrimEnd(TrimStart(text)) == [] ==> r == Some(0)
    ensures (forall i | 0 <= i < |text| :: !IsDigit(text[i])) && TrimEnd(TrimStart(text)) != [] ==> r.None?
  {
    var s := TrimEnd(TrimStart(text));
    if s == [] then Some(0)
    else if s[0] == '-' then Negated(WholeDecimal(s[1..]))
    else if s[0] == '+' then WholeDecimal(s[1..])
    else WholeDecimal(s)
  }

  /** The value of u when it is a non-empty run of decimal digits. */
  function WholeDecimal(u: string): Option<int>
  {
    if u != [] && AllDigits(u) then Some(DigitsValue(u)) else None
  }

  /** A run of digits followed by anything that is not a digit is read up to
      its end and no further. */
  lemma {:induction false} DigitCountOfDigits(a: string, b: string)
    requires AllDigits(a) && (b == [] || !IsDigit(b[0]))
    ensures DigitCount(a + b) == |a|
  {
    if a == [] {
      assert a + b == b;
    } else {
      assert (a + b)[1..] == a[1..] + b;
      DigitCountOfDigits(a[1..], b);
    }
  }

  /** Text that begins and ends with a digit carries no surrounding white
      space and no leading sign. */
  lemma DigitTextIsBare(d: string)
    requires |d| > 0 && IsDigit(d[0]) && IsDigit(d[|d| - 1])
    ensures TrimStart(d) == d && TrimEnd(d) == d
    ensures d[0] != '-' && d[0] != '+'
  {
    assert !IsJsSpace(d[0]) && !IsJsSpace(d[|d| - 1]);
  }

  /** A run of decimal digits with no leading zero is read back whole by
      both parsers. */
  lemma DigitTextReadsBack(d: string)
    requires |d| > 0 && AllDigits(d) && (d[0] == '0' ==> |d| == 1)
    ensures ParseMagnitude(d) == Some(DigitsValue(d))
    ensures WholeDecimal(d) == Some(DigitsValue(d))
  {
    DigitCountOfDigits(d, []);
    assert d + [] == d && d[..|d|] == d;
    assert DecimalPrefix(d) == Some(DigitsValue(d));
  }

  /** The same digits behind a minus sign. */
  lemma SignedDigitText(d: string)
    requires |d| > 0 && IsDigit(d[|d| - 1])
    ensures ("-" + d)[1..] == d
    ensures TrimStart("-" + d) == "-" + d && TrimEnd("-" + d) == "-" + d
  {
    var t := "-" + d;
    assert t[0] == '-' && t[|t| - 1] == d[|d| - 1];
    assert !IsJsSpace(t[0]) && !IsJsSpace(t[|t| - 1]);
  }

  lemma NatToStringReadsBack(n: nat)
    ensures TrimStart(NatToString(n)) == NatToString(n)
    ensures TrimEnd(NatToString(n)) == NatToString(n)
    ensures NatToString(n)[0] != '-' && NatToString(n)[0] != '+'
    ensures ParseMagnitude(NatToString(n)) == Some(n)
    ensures WholeDecimal(NatToString(n)) == Some(n)
  {
    DigitTextIsBare(NatToString(n));
    DigitTextReadsBack(NatToString(n));
  }

  /** A minus sign before a run of digits that both parsers read as n is
      read as -n. */
  lemma NegativeDigits(d: string, n: nat)
    requires |d| > 0 && IsDigit(d[|d| - 1])
    requires ParseMagnitude(d) == Some(n) && WholeDecimal(d) == Some(n)
    ensures ParseInt("-" + d) == Some(-(n as int)) && ToNumber("-" + d) == Some(-(n as int))
  {
    SignedDigitText(d);
  }

  /** The text toString writes for a negative integer is a minus sign before
      the digits of its magnitude. */
  lemma NegativeText(i: int)
    requires i < 0
    ensures ParseInt(IntToString(i)) == Some(i) && ToNumber(IntToString(i)) == Some(i)
  {
    var d := NatToString(-i);
    assert IntToString(i) == "-" + d;
    NatToStringReadsBack(-i);
    assert IsDigit(d[|d| - 1]);
    NegativeDigits(d, -i);
  }

  /** parseInt reads back every integer that toString writes. */
  lemma ParseIntOfIntToString(i: int)
    ensures ParseInt(IntToString(i)) == Some(i)
  {
    if i < 0 {
      NegativeText(i);
    } else {
      NatToStringReadsBack(i);
    }
  }

  /** Number() reads back every integer that toString writes. */
  lemma ToNumberOfIntToString(i: int)
    ensures ToNumber(IntToString(i)) == Some(i)
  {
    if i < 0 {
      NegativeText(i);
    } else {
      NatToStringReadsBack(i);
    }
  }

  /** The text "0" reads as 0 under both parsers. */
  lemma ZeroText()
    ensures ParseInt("0") == Some(0) && ToNumber("0") == Some(0)
  {
    assert IntToString(0) == "0";
    ParseIntOfIntToString(0);
    ToNumberOfIntToString(0);
  }

  /** The text JavaScript writes for NaN is itself read as NaN by both parsers. */
  lemma NaNTextIsNaN()
    ensures ParseInt("NaN") == None && ToNumber("NaN") == None
  {
    assert !IsJsSpace('N') && !IsDigit('N') && !IsHexDigit('N');
    assert "NaN"[0] == 'N';
  }
}
