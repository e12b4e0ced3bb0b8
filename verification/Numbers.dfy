/** ASCII numbers: integers, decimal literals with their real value, and the leftmost-longest
    scan for number literals inside a text. */
module Numbers {
  import opened Positions
  import opened Text

  predicate IsDigit(c: char) {
    '0' <= c <= '9'
  }

  predicate AllDigits(s: string) {
    forall i :: 0 <= i < |s| ==> IsDigit(s[i])
  }

  function DigitValue(c: char): nat
    requires IsDigit(c)
  {
    c as int - '0' as int
  }

  function DigitChar(d: nat): (c: char)
    requires d < 10
    ensures IsDigit(c) && DigitValue(c) == d
  {
    ('0' as int + d) as char
  }

  function DigitsValue(s: string): nat
    requires AllDigits(s)
  {
    if s == "" then 0 else 10 * DigitsValue(s[..|s| - 1]) + DigitValue(s[|s| - 1])
  }

  predicate IsHexDigit(c: char) {
    IsDigit(c) || 'a' <= LowerChar(c) <= 'f'
  }

  function HexDigitValue(c: char): nat
    requires IsHexDigit(c)
  {
    if IsDigit(c) then DigitValue(c) else LowerChar(c) as int - 'a' as int + 10
  }

  predicate AllHexDigits(s: string) {
    forall i :: 0 <= i < |s| ==> IsHexDigit(s[i])
  }

  function HexValue(s: string): nat
    requires AllHexDigits(s)
  {
    if s == "" then 0
    else
      16 * HexValue(s[..|s| - 1]) + HexDigitValue(s[|s| - 1])
  }

  predicate IsSign(c: char) {
    c == '+' || c == '-'
  }

  /** Text without its optional leading sign. */
  function Unsigned(text: string): string {
    if text != "" && IsSign(text[0]) then text[1..] else text
  }

  function ParseInt(value: string): Option<int> {
    var text := Strip(value);
    if text == "" then None
    else if |text| >= 2 && Lower(text[..2]) == "0x" then
      if text[2..] != "" && AllHexDigits(text[2..]) then Some(HexValue(text[2..])) else None
    else
      var body := Unsigned(text);
      if body == "" || !AllDigits(body) then None
      else
        var n: int := DigitsValue(body);
        Some(if text[0] == '-' then -n else n)
  }

  function PrintNat(n: nat): (s: string)
    ensures s != "" && AllDigits(s)
  {
    if n < 10 then [DigitChar(n)] else PrintNat(n / 10) + [DigitChar(n % 10)]
  }

  function PrintInt(n: int): string {
    if n < 0 then "-" + PrintNat(-n) else PrintNat(n)
  }

  lemma {:induction false} PrintNatValue(n: nat)
    ensures DigitsValue(PrintNat(n)) == n
  {
    if n >= 10 {
      PrintNatValue(n / 10);
      assert PrintNat(n)[..|PrintNat(n)| - 1] == PrintNat(n / 10);
    } else {
      assert PrintNat(n)[..0] == "";
    }
  }

  lemma PrintIntShape(n: int)
    ensures PrintInt(n) != "" && Trimmed(PrintInt(n))
    ensures forall i :: 0 <= i < |PrintInt(n)| ==> IsDigit(PrintInt(n)[i]) || (i == 0 && PrintInt(n)[i] == '-')
  {
  }

  /** Every integer survives printing and parsing. */
  lemma IntRoundTrip(n: int)
    ensures ParseInt(PrintInt(n)) == Some(n)
  {
    PrintIntShape(n);
    var text := PrintInt(n);
    StripKeepsTrimmed(text);
    PrintNatValue(if n < 0 then -n else n);
    if |text| >= 2 {
      assert Lower(text[..2])[1] == text[1];
    }
    assert Unsigned(text) == PrintNat(if n < 0 then -n else n);
  }

  // Which texts are integers, and which.

  function Pow10(n: nat): (p: nat)
    ensures p > 0
  {
    if n == 0 then 1 else 10 * Pow10(n - 1)
  }

  /** Writing digits behind digits shifts the value of the former. */
  lemma {:induction false} DigitsAppend(w: string, f: string)
    requires AllDigits(w) && AllDigits(f)
    ensures DigitsValue(w + f) == DigitsValue(w) * Pow10(|f|) + DigitsValue(f)
  {
    if f == "" {
      assert w + f == w;
    } else {
      var n := |f| - 1;
      DigitsAppend(w, f[..n]);
      assert (w + f)[..|w + f| - 1] == w + f[..n];
      TenfoldSum(DigitsValue(w), Pow10(n), DigitsValue(f[..n]), DigitValue(f[n]));
    }
  }

  lemma TenfoldSum(w: nat, p: nat, f: nat, d: nat)
    ensures 10 * (w * p + f) + d == w * (10 * p) + (10 * f + d)
  {
  }

  predicate Sign(s: string) {
    s == "" || s == "+" || s == "-"
  }

  /** Digits with an optional sign, with white space around, are read as the number they write. */
  lemma IntIs(a: string, sign: string, digits: string, b: string)
    requires Blank(a) && Blank(b) && Sign(sign) && digits != "" && AllDigits(digits)
    ensures var n: int := DigitsValue(digits); ParseInt(a + (sign + digits) + b) == Some(if sign == "-" then -n else n)
  {
    var text := sign + digits;
    assert text[|text| - 1] == digits[|digits| - 1];
    StripOfPadded(a, text, b);
    assert Unsigned(text) == digits by {
      if sign == "" { assert text == digits; }
    }
    if |text| >= 2 {
      assert Lower(text[..2])[1] == LowerChar(text[1]);
    }
  }

  const HEX_DIGITS := "0123456789abcdef"

  function PrintHex(n: nat): (s: string)
    ensures s != ""
  {
    if n < 16 then [HEX_DIGITS[n]] else PrintHex(n / 16) + [HEX_DIGITS[n % 16]]
  }

  lemma HexDigitSpelling(c: char, d: nat)
    requires d < 16 && (c == HEX_DIGITS[d] || ('A' <= c <= 'Z' && c as int + 32 == HEX_DIGITS[d] as int))
    ensures IsHexDigit(c) && HexDigitValue(c) == d
  {
  }

  lemma PrintHexParts(n: nat)
    ensures PrintHex(n)[|PrintHex(n)| - 1] == HEX_DIGITS[n % 16]
    ensures PrintHex(n)[..|PrintHex(n)| - 1] == if n < 16 then "" else PrintHex(n / 16)
  {
  }

  lemma HexValueOfMore(s: string, c: char)
    requires AllHexDigits(s) && IsHexDigit(c)
    ensures AllHexDigits(s + [c]) && HexValue(s + [c]) == 16 * HexValue(s) + HexDigitValue(c)
  {
    assert (s + [c])[..|s|] == s;
  }

  lemma SpellsPrefix(s: string, word: string)
    requires Spells(s, word) && s != ""
    ensures Spells(s[..|s| - 1], word[..|word| - 1])
  {
  }

  lemma HexLast(s: string, n: nat)
    requires Spells(s, PrintHex(n))
    ensures s != "" && IsHexDigit(s[|s| - 1]) && HexDigitValue(s[|s| - 1]) == n % 16
    ensures if n < 16 then |s| == 1 else Spells(s[..|s| - 1], PrintHex(n / 16))
  {
    PrintHexParts(n);
    SpellsPrefix(s, PrintHex(n));
    var word := PrintHex(n);
    assert word[|s| - 1] == HEX_DIGITS[n % 16];
    HexDigitSpelling(s[|s| - 1], n % 16);
  }

  lemma HexDone(s: string, q: nat, d: nat)
    requires s != "" && IsHexDigit(s[|s| - 1]) && HexDigitValue(s[|s| - 1]) == d
    requires AllHexDigits(s[..|s| - 1]) && HexValue(s[..|s| - 1]) == q
    ensures AllHexDigits(s) && HexValue(s) == 16 * q + d
  {
    HexValueOfMore(s[..|s| - 1], s[|s| - 1]);
    assert s == s[..|s| - 1] + [s[|s| - 1]];
  }

  lemma {:induction false} HexSpelling(s: string, n: nat)
    requires Spells(s, PrintHex(n))
    ensures AllHexDigits(s) && HexValue(s) == n
  {
    HexLast(s, n);
    if n >= 16 {
      HexSpelling(s[..|s| - 1], n / 16);
    } else {
      assert s[..|s| - 1] == "";
    }
    HexDone(s, n / 16, n % 16);
  }

  /** A number written in base sixteen behind `0x`, in letters of either case. */
  lemma HexRoundTrip(a: string, x: char, digits: string, b: string, n: nat)
    requires Blank(a) && Blank(b) && (x == 'x' || x == 'X') && Spells(digits, PrintHex(n))
    ensures ParseInt(a + (['0', x] + digits) + b) == Some(n)
  {
    var text := ['0', x] + digits;
    HexSpelling(digits, n);
    assert IsHexDigit(digits[|digits| - 1]);
    assert text[|text| - 1] == digits[|digits| - 1];
    StripOfPadded(a, text, b);
    assert text[..2] == ['0', x] && text[2..] == digits;
    assert Lower(text[..2]) == "0x";
  }

  /** No other text is an integer. */
  lemma IntForm(value: string) returns (a: string, sign: string, digits: string, b: string)
    requires ParseInt(value).Some?
    ensures Blank(a) && Blank(b) && digits != "" && value == a + (sign + digits) + b
    ensures (Sign(sign) && AllDigits(digits)) || ((sign == "0x" || sign == "0X") && AllHexDigits(digits))
  {
    a, b := Padding(value);
    var text := Strip(value);
    if |text| >= 2 && Lower(text[..2]) == "0x" {
      sign, digits := text[..2], text[2..];
      assert Lower(text[..2])[0] == '0' && Lower(text[..2])[1] == 'x';
    } else {
      digits := Unsigned(text);
      sign := text[..|text| - |digits|];
    }
    assert text == sign + digits;
  }

  // Decimal literals.

  /** A number literal: optional sign, digits, and optionally a point with more digits. */
  datatype Literal = Literal(sign: string, whole: string, frac: Option<string>)

  predicate Proper(l: Literal) {
    && (l.sign == "" || l.sign == "+" || l.sign == "-")
    && l.whole != "" && AllDigits(l.whole)
    && (l.frac.Some? ==> l.frac.value != "" && AllDigits(l.frac.value))
  }

  function Tail(frac: Option<string>): string {
    if frac.Some? then "." + frac.value else ""
  }

  function Write(l: Literal): string {
    l.sign + l.whole + Tail(l.frac)
  }

  /** A number with its point moved `n` places to the left. */
  function Unshifted(x: real, n: nat): real {
    if n == 0 then x else Unshifted(x, n - 1) / 10.0
  }

  function Decimal(whole: string, frac: string): real
    requires AllDigits(whole) && AllDigits(frac)
  {
    DigitsValue(whole) as real + Unshifted(DigitsValue(frac) as real, |frac|)
  }

  function Negate(minus: bool, x: real): real {
    if minus then -x else x
  }

  function Value(l: Literal): real
    requires Proper(l)
  {
    Negate(l.sign == "-", Decimal(l.whole, if l.frac.Some? then l.frac.value else ""))
  }

  function ParseFloat(value: string): Option<real> {
    var text := Strip(value);
    var body := Unsigned(text);
    var (whole, frac) := if '.' in body then Cut(body, '.') else (body, "");
    if (whole == "" && frac == "") || !AllDigits(whole) || !AllDigits(frac) then None
    else Some(Negate(text[0] == '-', Decimal(whole, frac)))
  }

  /** The unsigned part of a written literal, between a first and a last digit. */
  function Body(l: Literal): string {
    l.whole + Tail(l.frac)
  }

  lemma BodyShape(l: Literal)
    requires Proper(l)
    ensures Body(l) != "" && IsDigit(Body(l)[0]) && IsDigit(Body(l)[|Body(l)| - 1])
    ensures forall i :: 0 <= i < |Body(l)| ==> IsDigit(Body(l)[i]) || Body(l)[i] == '.'
  {
    var body := Body(l);
    if l.frac.Some? {
      assert body[|body| - 1] == l.frac.value[|l.frac.value| - 1];
    }
  }

  lemma SignedShape(sign: string, body: string)
    requires sign == "" || sign == "+" || sign == "-"
    requires body != "" && IsDigit(body[0]) && IsDigit(body[|body| - 1])
    ensures Trimmed(sign + body) && Unsigned(sign + body) == body && ((sign + body)[0] == '-') == (sign == "-")
  {
    var text := sign + body;
    assert text[|text| - 1] == body[|body| - 1];
    if sign == "" {
      assert text == body;
    } else {
      assert text[0] == sign[0] && text[1..] == body;
    }
  }

  lemma WriteIsSigned(l: Literal)
    ensures Write(l) == l.sign + Body(l)
  {
  }

  lemma WriteShape(l: Literal)
    requires Proper(l)
    ensures Write(l) != "" && Trimmed(Write(l)) && Unsigned(Write(l)) == Body(l)
    ensures (Write(l)[0] == '-') == (l.sign == "-")
  {
    WriteIsSigned(l);
    BodyShape(l);
    SignedShape(l.sign, Body(l));
  }

  lemma WriteChars(l: Literal)
    requires Proper(l)
    ensures forall c :: c in Write(l) ==> IsDigit(c) || IsSign(c) || c == '.'
  {
  }

  /** Every literal is read back as its value. */
  lemma FloatRoundTrip(l: Literal)
    requires Proper(l)
    ensures ParseFloat(Write(l)) == Some(Value(l))
  {
    var frac := if l.frac.Some? then l.frac.value else "";
    DecimalReads("", l.sign, l.whole, l.frac.Some?, frac, "");
    LiteralText(l);
  }

  lemma LiteralText(l: Literal)
    requires Proper(l)
    ensures "" + DecimalText(l.sign, l.whole, l.frac.Some?, if l.frac.Some? then l.frac.value else "") + "" == Write(l)
  {
  }

  lemma {:induction false} CutMeaning(s: string, sep: char)
    requires sep in s
    ensures Cut(s, sep).0 + [sep] + Cut(s, sep).1 == s && Free(Cut(s, sep).0, sep)
  {
    if s[0] == sep {
      assert s == [s[0]] + s[1..];
    } else {
      CutMeaning(s[1..], sep);
      assert s == [s[0]] + s[1..];
    }
  }

  lemma ZeroDigits()
    ensures AllDigits("0") && DigitsValue("0") == 0 && Decimal("", "") == 0.0 && Decimal("0", "") == 0.0
  {
    assert "0"[..0] == "";
  }

  /** Whatever text is read as a number, some literal has the same value. */
  lemma FloatHasLiteral(value: string) returns (l: Literal)
    requires ParseFloat(value).Some?
    ensures Proper(l) && Value(l) == ParseFloat(value).value
  {
    var text := Strip(value);
    var body := Unsigned(text);
    var (whole, frac) := if '.' in body then Cut(body, '.') else (body, "");
    ZeroDigits();
    l := Literal(if text[0] == '-' then "-" else "", if whole == "" then "0" else whole, if frac == "" then None else Some(frac));
  }

  // Which texts are decimals, and which.

  function DecimalBody(whole: string, point: bool, frac: string): string {
    whole + if point then "." + frac else ""
  }

  /** Digits, perhaps a point, and digits behind it. */
  function DecimalText(sign: string, whole: string, point: bool, frac: string): string {
    sign + DecimalBody(whole, point, frac)
  }

  predicate DecimalParts(sign: string, whole: string, point: bool, frac: string) {
    Sign(sign) && AllDigits(whole) && AllDigits(frac) && whole + frac != "" && (point || frac == "")
  }

  lemma DecimalBodyEnds(whole: string, point: bool, frac: string)
    requires AllDigits(whole) && AllDigits(frac) && whole + frac != "" && (point || frac == "")
    ensures var body := DecimalBody(whole, point, frac);
            && body != "" && (IsDigit(body[0]) || body[0] == '.') && (IsDigit(body[|body| - 1]) || body[|body| - 1] == '.')
  {
    var body := DecimalBody(whole, point, frac);
    assert body[|body| - 1] == if frac != "" then frac[|frac| - 1] else if point then '.' else whole[|whole| - 1];
  }

  lemma SignedEnds(sign: string, body: string)
    requires Sign(sign) && body != ""
    requires (IsDigit(body[0]) || body[0] == '.') && (IsDigit(body[|body| - 1]) || body[|body| - 1] == '.')
    ensures Tight(sign + body) && ((sign + body)[0] == '-' <==> sign == "-") && Unsigned(sign + body) == body
  {
    var text := sign + body;
    assert text[|text| - 1] == body[|body| - 1];
    if sign == "" { assert text == body; } else { assert text[1..] == body; }
  }

  lemma DecimalEnds(sign: string, whole: string, point: bool, frac: string)
    requires DecimalParts(sign, whole, point, frac)
    ensures var text := DecimalText(sign, whole, point, frac);
            && text != "" && Tight(text) && (text[0] == '-' <==> sign == "-") && Unsigned(text) == DecimalBody(whole, point, frac)
  {
    DecimalBodyEnds(whole, point, frac);
    SignedEnds(sign, DecimalBody(whole, point, frac));
  }

  lemma DecimalReads(a: string, sign: string, whole: string, point: bool, frac: string, b: string)
    requires Blank(a) && Blank(b) && DecimalParts(sign, whole, point, frac)
    ensures ParseFloat(a + DecimalText(sign, whole, point, frac) + b) == Some(Negate(sign == "-", Decimal(whole, frac)))
  {
    var text := DecimalText(sign, whole, point, frac);
    DecimalEnds(sign, whole, point, frac);
    StripOfPadded(a, text, b);
    if point {
      assert Free(whole, '.');
      CutAfter(whole, '.', frac);
      assert Unsigned(text) == whole + ['.'] + frac;
    } else {
      assert Unsigned(text) == whole;
    }
  }

  /** A number with its point moved `n` places to the right. */
  function Shifted(x: real, n: nat): real {
    if n == 0 then x else 10.0 * Shifted(x, n - 1)
  }

  lemma {:induction false} ShiftedSum(x: real, y: real, n: nat)
    ensures Shifted(x + y, n) == Shifted(x, n) + Shifted(y, n)
  {
    if n > 0 { ShiftedSum(x, y, n - 1); }
  }

  lemma {:induction false} ShiftedTenth(x: real, n: nat)
    ensures Shifted(x / 10.0, n) == Shifted(x, n) / 10.0
  {
    if n > 0 { ShiftedTenth(x, n - 1); }
  }

  lemma {:induction false} ShiftedBack(x: real, n: nat)
    ensures Shifted(Unshifted(x, n), n) == x
  {
    if n > 0 {
      ShiftedTenth(Unshifted(x, n - 1), n - 1);
      ShiftedBack(x, n - 1);
    }
  }

  lemma TenTimes(k: nat, p: nat)
    ensures 10 * (k * p) == k * (10 * p)
  {
  }

  lemma {:induction false} ShiftedInteger(k: nat, n: nat)
    ensures Shifted(k as real, n) == (k * Pow10(n)) as real
  {
    if n > 0 {
      ShiftedInteger(k, n - 1);
      TenTimes(k, Pow10(n - 1));
    }
  }

  lemma PartsShifted(x: real, w: nat, f: nat, n: nat, total: nat)
    requires x == w as real + Unshifted(f as real, n) && total == w * Pow10(n) + f
    ensures Shifted(x, n) == total as real
  {
    ShiftedSum(w as real, Unshifted(f as real, n), n);
    ShiftedInteger(w, n);
    ShiftedBack(f as real, n);
  }

  /** The digits of a decimal, read as one integer, are the decimal with its point moved behind them. */
  lemma DecimalShifted(whole: string, frac: string)
    requires AllDigits(whole) && AllDigits(frac)
    ensures Shifted(Decimal(whole, frac), |frac|) == DigitsValue(whole + frac) as real
  {
    DigitsAppend(whole, frac);
    PartsShifted(Decimal(whole, frac), DigitsValue(whole), DigitsValue(frac), |frac|, DigitsValue(whole + frac));
  }

  lemma {:induction false} ShiftedNegative(x: real, n: nat)
    ensures Shifted(-x, n) == -Shifted(x, n)
  {
    if n > 0 { ShiftedNegative(x, n - 1); }
  }

  lemma NegatedShifted(minus: bool, x: real, n: nat, k: real)
    requires Shifted(x, n) == k
    ensures Shifted(Negate(minus, x), n) == if minus then -k else k
  {
    ShiftedNegative(x, n);
  }

  lemma ValueShifted(sign: string, whole: string, frac: string)
    requires AllDigits(whole) && AllDigits(frac)
    ensures var n := DigitsValue(whole + frac) as real;
            Shifted(Negate(sign == "-", Decimal(whole, frac)), |frac|) == if sign == "-" then -n else n
  {
    DecimalShifted(whole, frac);
    NegatedShifted(sign == "-", Decimal(whole, frac), |frac|, DigitsValue(whole + frac) as real);
  }

  /** A decimal, with white space around, is read as the number whose point, moved behind all its
      digits, makes it the integer of these digits, with the sign in front. */
  lemma FloatIs(a: string, sign: string, whole: string, point: bool, frac: string, b: string)
    requires Blank(a) && Blank(b) && DecimalParts(sign, whole, point, frac)
    ensures var v, n := ParseFloat(a + DecimalText(sign, whole, point, frac) + b), DigitsValue(whole + frac) as real;
            v.Some? && Shifted(v.value, |frac|) == if sign == "-" then -n else n
  {
    DecimalReads(a, sign, whole, point, frac, b);
    ValueShifted(sign, whole, frac);
  }

  /** The part of a text before what `Unsigned` leaves of it is a sign. */
  lemma SignOf(text: string) returns (sign: string)
    ensures Sign(sign) && text == sign + Unsigned(text)
  {
    sign := text[..|text| - |Unsigned(text)|];
  }

  lemma BodyParts(body: string) returns (whole: string, point: bool, frac: string)
    ensures body == DecimalBody(whole, point, frac) && (point || frac == "")
    ensures (whole, frac) == if '.' in body then Cut(body, '.') else (body, "")
  {
    point := '.' in body;
    if point {
      CutMeaning(body, '.');
      whole, frac := Cut(body, '.').0, Cut(body, '.').1;
      assert whole + ("." + frac) == body;
    } else {
      whole, frac := body, "";
      assert body + "" == body;
    }
  }

  /** No other text is a decimal. */
  lemma FloatForm(value: string) returns (a: string, sign: string, whole: string, point: bool, frac: string, b: string)
    requires ParseFloat(value).Some?
    ensures Blank(a) && Blank(b) && DecimalParts(sign, whole, point, frac)
    ensures value == a + DecimalText(sign, whole, point, frac) + b
  {
    a, b := Padding(value);
    sign := SignOf(Strip(value));
    whole, point, frac := BodyParts(Unsigned(Strip(value)));
  }

  /** So is a literal. */
  lemma LiteralIs(l: Literal)
    requires Proper(l)
    ensures var f := if l.frac.Some? then l.frac.value else "";
            var n := DigitsValue(l.whole + f) as real;
            ParseFloat(Write(l)) == Some(Value(l)) && Shifted(Value(l), |f|) == if l.sign == "-" then -n else n
  {
    FloatRoundTrip(l);
    ValueShifted(l.sign, l.whole, if l.frac.Some? then l.frac.value else "");
  }

  lemma DigitsOfMore(s: string, c: char, n: nat)
    requires AllDigits(s) && DigitsValue(s) == n && IsDigit(c)
    ensures AllDigits(s + [c]) && DigitsValue(s + [c]) == 10 * n + DigitValue(c)
  {
    assert (s + [c])[..|s|] == s;
  }

  lemma DigitTriple(a: char, b: char, c: char)
    requires IsDigit(a) && IsDigit(b) && IsDigit(c)
    ensures AllDigits([a] + [b, c]) && DigitsValue([a] + [b, c]) == 100 * DigitValue(a) + 10 * DigitValue(b) + DigitValue(c)
  {
    DigitsOfMore("", a, 0);
    assert "" + [a] == [a];
    DigitsOfMore([a], b, DigitValue(a));
    DigitsOfMore([a] + [b], c, 10 * DigitValue(a) + DigitValue(b));
    assert [a] + [b] + [c] == [a] + [b, c];
  }

  lemma TwoPlaces(x: real, n: int)
    requires Shifted(x, 2) == n as real
    ensures x == n as real / 100.0
  {
    assert Shifted(x, 2) == 10.0 * Shifted(x, 1) == 100.0 * x;
  }

  /** For instance, one digit, a point and two digits. */
  lemma ThreeDigitDecimal(a: char, b: char, c: char)
    requires '0' <= a <= '9' && '0' <= b <= '9' && '0' <= c <= '9'
    ensures ParseFloat([a, '.', b, c])
            == Some((100 * (a - '0') as int + 10 * (b - '0') as int + (c - '0') as int) as real / 100.0)
  {
    DigitTriple(a, b, c);
    FloatIs("", "", [a], true, [b, c], "");
    assert "" + DecimalText("", [a], true, [b, c]) + "" == [a, '.', b, c];
    TwoPlaces(ParseFloat([a, '.', b, c]).value, DigitsValue([a] + [b, c]));
  }

  // The coordinate scan.

  function DigitRun(s: string): (n: nat)
    ensures n <= |s|
  {
    if s == "" || !IsDigit(s[0]) then 0 else 1 + DigitRun(s[1..])
  }

  /** How many leading characters of `s` the pattern [-+]?\d+(?:\.\d+)? takes, or 0. */
  function MatchLength(s: string): (n: nat)
    ensures n <= |s|
  {
    var sign := if s != "" && IsSign(s[0]) then 1 else 0;
    var whole := DigitRun(s[sign..]);
    var end := sign + whole;
    if whole == 0 then 0
    else if end < |s| && s[end] == '.' && DigitRun(s[end + 1..]) > 0 then end + 1 + DigitRun(s[end + 1..])
    else end
  }

  // What the scan means, independently of how it proceeds.

  ghost predicate IsLiteral(w: string) {
    exists l :: Proper(l) && Write(l) == w
  }

  /** The longest literal that is a prefix of `s` has length `n`; 0 if there is none. */
  ghost predicate LongestLiteral(s: string, n: nat) {
    && n <= |s|
    && (n > 0 ==> IsLiteral(s[..n]))
    && forall m {:trigger IsLiteral(s[..m])} :: n < m <= |s| ==> !IsLiteral(s[..m])
  }

  lemma {:induction false} DigitRunMeaning(s: string)
    ensures AllDigits(s[..DigitRun(s)])
    ensures DigitRun(s) < |s| ==> !IsDigit(s[DigitRun(s)])
  {
    if s != "" && IsDigit(s[0]) {
      DigitRunMeaning(s[1..]);
      assert s[..DigitRun(s)] == [s[0]] + s[1..][..DigitRun(s[1..])];
    }
  }

  lemma {:induction false} DigitRunOf(digits: string, rest: string)
    requires AllDigits(digits) && (rest == "" || !IsDigit(rest[0]))
    ensures DigitRun(digits + rest) == |digits|
  {
    if digits == "" {
      assert digits + rest == rest;
    } else {
      assert (digits + rest)[1..] == digits[1..] + rest;
      DigitRunOf(digits[1..], rest);
    }
  }

  lemma {:induction false} DigitRunAtLeast(s: string, n: nat)
    requires n <= |s| && AllDigits(s[..n])
    ensures DigitRun(s) >= n
  {
    if n > 0 {
      assert s[..n][0] == s[0];
      assert s[1..][..n - 1] == s[..n][1..];
      DigitRunAtLeast(s[1..], n - 1);
    }
  }

  lemma DigitRunTaken(s: string, from: nat)
    requires from <= |s|
    ensures AllDigits(s[from..from + DigitRun(s[from..])])
  {
    DigitRunMeaning(s[from..]);
    assert s[from..from + DigitRun(s[from..])] == s[from..][..DigitRun(s[from..])];
  }

  /** The match is itself a literal. */
  lemma MatchIsLiteral(s: string) returns (l: Literal)
    requires MatchLength(s) > 0
    ensures Proper(l) && Write(l) == s[..MatchLength(s)]
  {
    var sign := if IsSign(s[0]) then 1 else 0;
    var end := sign + DigitRun(s[sign..]);
    DigitRunTaken(s, sign);
    var n := MatchLength(s);
    if n == end {
      l := Literal(s[..sign], s[sign..end], None);
      assert Write(l) == s[..n];
    } else {
      DigitRunTaken(s, end + 1);
      l := Literal(s[..sign], s[sign..end], Some(s[end + 1..n]));
      assert s[end..n] == "." + s[end + 1..n];
      assert Write(l) == s[..n];
    }
  }

  /** The pattern takes the sign, the digits and the fraction that the text is made of. */
  lemma MatchOfParts(sign: string, whole: string, after: string)
    requires sign == "" || (|sign| == 1 && IsSign(sign[0]))
    requires whole != "" && AllDigits(whole) && (after == "" || !IsDigit(after[0]))
    ensures MatchLength(sign + whole + after)
            == |sign| + |whole| + if after != "" && after[0] == '.' && DigitRun(after[1..]) > 0 then 1 + DigitRun(after[1..]) else 0
  {
    var s := sign + whole + after;
    var end := |sign| + |whole|;
    assert s[0] == if sign == "" then whole[0] else sign[0];
    assert s[|sign|..] == whole + after;
    DigitRunOf(whole, after);
    assert s[end..] == after;
    if after != "" {
      assert s[end] == after[0] && s[end + 1..] == after[1..];
    }
  }

  lemma MatchAtLeast(sign: string, whole: string, after: string)
    requires sign == "" || (|sign| == 1 && IsSign(sign[0]))
    requires whole != "" && AllDigits(whole)
    ensures MatchLength(sign + whole + after) >= |sign| + |whole|
  {
    var s := sign + whole + after;
    assert s[0] == if sign == "" then whole[0] else sign[0];
    assert s[|sign|..] == whole + after && (whole + after)[..|whole|] == whole;
    DigitRunAtLeast(whole + after, |whole|);
  }

  /** No literal that starts a text is longer than the match. */
  lemma LiteralWithinMatch(l: Literal, rest: string)
    requires Proper(l)
    ensures |Write(l)| <= MatchLength(Write(l) + rest)
  {
    if l.frac.Some? {
      var after := Tail(l.frac) + rest;
      assert Write(l) + rest == l.sign + l.whole + after;
      assert after[0] == '.' && after[1..] == l.frac.value + rest && (l.frac.value + rest)[..|l.frac.value|] == l.frac.value;
      DigitRunAtLeast(l.frac.value + rest, |l.frac.value|);
      MatchOfParts(l.sign, l.whole, after);
    } else {
      assert Write(l) + rest == l.sign + l.whole + rest;
      MatchAtLeast(l.sign, l.whole, rest);
    }
  }

  /** The pattern matches the longest literal there is, or nothing when there is none. */
  lemma MatchIsLongest(s: string)
    ensures LongestLiteral(s, MatchLength(s))
  {
    if MatchLength(s) > 0 {
      var l := MatchIsLiteral(s);
    }
    forall m | MatchLength(s) < m <= |s| ensures !IsLiteral(s[..m]) {
      if IsLiteral(s[..m]) {
        var l :| Proper(l) && Write(l) == s[..m];
        assert s == s[..m] + s[m..];
        LiteralWithinMatch(l, s[m..]);
      }
    }
  }
}
