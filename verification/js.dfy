/** The JavaScript conversions the routes rely on: `parseInt(s, 10)` and
    `parseInt(s)`, `String(n)` of an integral number and `Number(v)` of a JSON value, over
    exact integers. */
module Js {
  import opened Base

  /** ECMAScript StrWhiteSpaceChar: the WhiteSpace and LineTerminator code points. */
  predicate IsSpace(c: char) {
    c == '\t' || c == '\n' || c == '\U{B}' || c == '\U{C}' || c == '\r' || c == ' '
    || c == '\U{A0}' || c == '\U{1680}' || ('\U{2000}' <= c <= '\U{200A}')
    || c == '\U{2028}' || c == '\U{2029}' || c == '\U{202F}' || c == '\U{205F}'
    || c == '\U{3000}' || c == '\U{FEFF}'
  }

  predicate IsDigit(c: char) {
    '0' <= c <= '9'
  }

  predicate AllDigits(s: string) {
    forall i :: 0 <= i < |s| ==> IsDigit(s[i])
  }

  function DigitChar(d: nat): (c: char)
    requires d < 10
    ensures IsDigit(c) && (c == '0' <==> d == 0)
  {
    ('0' as int + d) as char
  }

  /** `s` with its leading white space removed. */
  function TrimStart(s: string): (r: string)
    ensures |r| <= |s|
    ensures r == [] || !IsSpace(r[0])
    ensures forall i :: 0 <= i < |s| - |r| ==> IsSpace(s[i])
  {
    if |s| > 0 && IsSpace(s[0]) then TrimStart(s[1..]) else s
  }

  /** `s` with its trailing white space removed. */
  function TrimEnd(s: string): (r: string)
    ensures |r| <= |s|
    ensures r == [] || !IsSpace(r[|r| - 1])
    ensures forall i :: |r| <= i < |s| ==> IsSpace(s[i])
  {
    if |s| > 0 && IsSpace(s[|s| - 1]) then TrimEnd(s[..|s| - 1]) else s
  }

  /** `s.length`: the number of UTF-16 code units of `s`, where a character
      beyond the Basic Multilingual Plane takes two (a surrogate pair). */
  function Utf16Length(s: string): (n: nat)
    ensures |s| <= n <= 2 * |s|
  {
    if s == [] then 0 else (if s[0] as int >= 0x1_0000 then 2 else 1) + Utf16Length(s[1..])
  }

  /** A string within the Basic Multilingual Plane has one code unit per character. */
  lemma {:induction false} Utf16LengthOfBmp(s: string)
    requires forall i :: 0 <= i < |s| ==> s[i] as int < 0x1_0000
    ensures Utf16Length(s) == |s|
  {
    if s != [] {
      Utf16LengthOfBmp(s[1..]);
    }
  }

  /** A character beyond the Basic Multilingual Plane counts twice. */
  lemma Utf16LengthOfAstral(c: char)
    requires c as int >= 0x1_0000
    ensures Utf16Length([c]) == 2
  {
    assert [c][1..] == [];
  }

  /** Length of the longest prefix of `s` made of decimal digits. */
  function LeadingDigits(s: string): (n: nat)
    ensures n <= |s|
    ensures forall i :: 0 <= i < n ==> IsDigit(s[i])
    ensures n < |s| ==> !IsDigit(s[n])
  {
    if |s| > 0 && IsDigit(s[0]) then 1 + LeadingDigits(s[1..]) else 0
  }

  /** Value of a string of decimal digits, most significant digit first. */
  function DigitsValue(s: string): nat
    requires AllDigits(s)
  {
    if s == [] then 0 else DigitsValue(s[..|s| - 1]) * 10 + ((s[|s| - 1] as int) - ('0' as int))
  }

  /** The decimal digits of `n`, without leading zeros. */
  function NatToDigits(n: nat): (s: string)
    ensures |s| > 0 && AllDigits(s)
    ensures s[0] == '0' <==> n == 0
  {
    if n < 10 then [DigitChar(n)] else NatToDigits(n / 10) + [DigitChar(n % 10)]
  }

  /** `String(n)` of an integral number. */
  function IntToString(n: int): (s: string)
    ensures |s| > 0 && (s[0] == '-' || IsDigit(s[0]))
  {
    if n < 0 then "-" + NatToDigits(-n) else NatToDigits(n)
  }

  /** `t` starts with a minus sign. */
  predicate IsNegative(t: string) {
    |t| > 0 && t[0] == '-'
  }

  /** `t` without its leading sign, if it has one. */
  function Unsigned(t: string): string {
    if |t| > 0 && (t[0] == '-' || t[0] == '+') then t[1..] else t
  }

  /** `parseInt(s, 10)`: skip leading white space and an optional sign, then read
      the longest run of decimal digits; `NaN` (here `None`) when that run is empty.
      A negative zero is the integer 0. */
  function ParseInt(s: string): (r: Option<int>)
    ensures var u := Unsigned(TrimStart(s)); r.Some? <==> |u| > 0 && IsDigit(u[0])
    ensures r.Some? && r.value < 0 ==> IsNegative(TrimStart(s))
  {
    var t := TrimStart(s);
    var u := Unsigned(t);
    var n := LeadingDigits(u);
    if n == 0 then None
    else
      var magnitude: int := DigitsValue(u[..n]);
      Some(if IsNegative(t) then -magnitude else magnitude)
  }

  /** `u` starts with the prefix `0x` or `0X`. */
  predicate HexPrefixed(u: string) {
    |u| >= 2 && u[0] == '0' && (u[1] == 'x' || u[1] == 'X')
  }

  /** Length of the longest prefix of `s` made of hexadecimal digits. */
  function LeadingHexDigits(s: string): (n: nat)
    ensures n <= |s|
    ensures forall i :: 0 <= i < n ==> RadixDigit(s[i]) < 16
    ensures n < |s| ==> RadixDigit(s[n]) >= 16
  {
    if |s| > 0 && RadixDigit(s[0]) < 16 then 1 + LeadingHexDigits(s[1..]) else 0
  }

  /** `parseInt(s)` with no radix: as `parseInt(s, 10)`, except that after the
      white space and the sign a `0x` or `0X` prefix switches to the longest
      run of hexadecimal digits that follows it; `NaN` (here `None`) when that
      run is empty. */
  function ParseIntAuto(s: string): (r: Option<int>)
    ensures !HexPrefixed(Unsigned(TrimStart(s))) ==> r == ParseInt(s)
    ensures var u := Unsigned(TrimStart(s));
            HexPrefixed(u) ==> (r.Some? <==> |u| > 2 && RadixDigit(u[2]) < 16)
    ensures r.Some? && r.value < 0 ==> IsNegative(TrimStart(s))
  {
    var t := TrimStart(s);
    var u := Unsigned(t);
    if HexPrefixed(u) then
      var h := u[2..];
      var n := LeadingHexDigits(h);
      if n == 0 then None
      else
        var magnitude: int := RadixValue(h[..n], 16);
        Some(if IsNegative(t) then -magnitude else magnitude)
    else ParseInt(s)
  }

  lemma {:induction false} NatToDigitsValue(n: nat)
    ensures DigitsValue(NatToDigits(n)) == n
    decreases n
  {
    if n >= 10 {
      var s := NatToDigits(n);
      assert s[..|s| - 1] == NatToDigits(n / 10);
      NatToDigitsValue(n / 10);
    }
  }

  /** A string of digits is read whole by `LeadingDigits`, whatever follows it
      as long as that does not start with a digit. */
  lemma {:induction false} DigitRun(d: string, tail: string)
    requires AllDigits(d)
    requires tail == [] || !IsDigit(tail[0])
    ensures LeadingDigits(d + tail) == |d|
    ensures (d + tail)[..|d|] == d
  {
    if d != [] {
      assert (d + tail)[1..] == d[1..] + tail;
      DigitRun(d[1..], tail);
    }
  }

  /** What `TrimStart` keeps is a suffix of its input: trimming removes
      characters and changes none. */
  lemma {:induction false} TrimStartSuffix(s: string)
    ensures TrimStart(s) == s[|s| - |TrimStart(s)|..]
  {
    if |s| > 0 && IsSpace(s[0]) {
      TrimStartSuffix(s[1..]);
      var r := TrimStart(s);
      assert s[1..][|s| - 1 - |r|..] == s[|s| - |r|..];
    }
  }

  /** What `TrimEnd` keeps is a prefix of its input. */
  lemma {:induction false} TrimEndPrefix(s: string)
    ensures TrimEnd(s) == s[..|TrimEnd(s)|]
  {
    if |s| > 0 && IsSpace(s[|s| - 1]) {
      TrimEndPrefix(s[..|s| - 1]);
      var r := TrimEnd(s);
      assert s[..|s| - 1][..|r|] == s[..|r|];
    }
  }

  lemma {:induction false} TrimStartKeeps(s: string)
    requires s == [] || !IsSpace(s[0])
    ensures TrimStart(s) == s
  {
  }

  /** `parseInt` of a string that starts with a digit. */
  lemma {:induction false} ParseIntOfDigitStart(s: string)
    requires |s| > 0 && IsDigit(s[0])
    ensures ParseInt(s) == Some(DigitsValue(s[..LeadingDigits(s)]))
  {
    TrimStartKeeps(s);
    var n := LeadingDigits(s);
    assert n > 0 && Unsigned(s) == s && !IsNegative(s);
    assert ParseInt(s) == (var magnitude: int := DigitsValue(s[..n]); Some(magnitude));
  }

  /** `parseInt` of a minus sign followed by a digit. */
  lemma {:induction false} ParseIntOfMinusDigitStart(t: string)
    requires |t| > 1 && t[0] == '-' && IsDigit(t[1])
    ensures var v: int := DigitsValue(t[1..][..LeadingDigits(t[1..])]); ParseInt(t) == Some(-v)
  {
    TrimStartKeeps(t);
    assert Unsigned(t) == t[1..] && IsNegative(t);
    assert LeadingDigits(t[1..]) > 0;
  }

  /** `parseInt` reads back what `String` wrote: for every integer n,
      `parseInt(String(n), 10) === n`. */
  lemma {:induction false} ParseIntOfString(n: int)
    ensures ParseInt(IntToString(n)) == Some(n)
  {
    var m: nat := if n < 0 then -n else n;
    var d := NatToDigits(m);
    NatToDigitsValue(m);
    DigitRun(d, []);
    assert d + [] == d;
    if n < 0 {
      var t := IntToString(n);
      assert t[0] == '-' && t[1..] == d;
      ParseIntOfMinusDigitStart(t);
    } else {
      ParseIntOfDigitStart(d);
    }
  }

  /** The fallback text "0" reads as 0, with or without a radix. */
  lemma {:induction false} ParseIntOfZeroText(s: string)
    requires s == "0"
    ensures ParseInt(s) == Some(0) && ParseIntAuto(s) == Some(0)
  {
    TrimStartKeeps(s);
    assert Unsigned(s) == s && !HexPrefixed(s);
    assert LeadingDigits(s) == 1 && s[..1] == s && s[..0] == [];
    assert DigitsValue(s) == DigitsValue(s[..0]) * 10 + 0;
    ParseIntOfDigitStart(s);
    assert !HexPrefixed(Unsigned(TrimStart(s)));
  }

  /** Without a radix too, `parseInt` reads back what `String` wrote:
      `parseInt(String(n)) === n`, since no integer's text starts with `0x`. */
  lemma {:induction false} ParseIntAutoOfString(n: int)
    ensures ParseIntAuto(IntToString(n)) == Some(n)
  {
    ParseIntOfString(n);
    var t := IntToString(n);
    TrimStartKeeps(t);
    var m: nat := if n < 0 then -n else n;
    if n < 0 {
      assert t[1..] == NatToDigits(m);
    }
    assert AllDigits(Unsigned(t));
  }

  /** The two readings differ on a hexadecimal literal: `parseInt("0x10")` is
      16, while `parseInt("0x10", 10)` stops at the `x` and is 0. */
  lemma {:induction false} HexReadings(s: string)
    requires s == "0x10"
    ensures ParseIntAuto(s) == Some(16)
    ensures ParseInt(s) == Some(0)
  {
    TrimStartKeeps(s);
    assert Unsigned(s) == s && !IsNegative(s) && HexPrefixed(s);
    var h := s[2..];
    assert h == "10" && LeadingHexDigits(h) == 2 && h[..2] == h;
    assert h[..1] == "1" && "1"[..0] == [];
    assert RadixValue(h, 16) == 16;
    assert LeadingDigits(s) == 1 && s[..1] == "0" && "0"[..0] == [];
  }

  /** `parseInt` stops at the first character that is not a digit: a string
      that starts with digits reads as those digits alone. */
  lemma {:induction false} ParseIntStopsAtNonDigit(d: string, tail: string)
    requires |d| > 0 && AllDigits(d)
    requires tail == [] || !IsDigit(tail[0])
    ensures ParseInt(d + tail) == Some(DigitsValue(d))
  {
    DigitRun(d, tail);
    assert (d + tail)[0] == d[0];
    ParseIntOfDigitStart(d + tail);
  }

  /** What the routes need to know of a JavaScript number: whether it is `NaN`,
      an integer (and which), or any other number (a fraction or an infinity). */
  datatype JsNumber = NaN | Integral(value: int) | NonIntegral

  function Pow10(e: nat): (p: nat)
    ensures p > 0
  {
    if e == 0 then 1 else 10 * Pow10(e - 1)
  }

  /** The number (-1)^negative × m × 10^e. */
  function Scaled(negative: bool, m: nat, e: int): JsNumber {
    if e >= 0 then Integral(if negative then -(m * Pow10(e)) else m * Pow10(e))
    else if m % Pow10(-e) != 0 then NonIntegral
    else Integral(if negative then -(m / Pow10(-e)) else m / Pow10(-e))
  }

  /** The exponent part of a decimal literal (`e`/`E`, optional sign, digits);
      the empty string is exponent 0; anything else does not match. */
  function Exponent(tail: string): Option<int> {
    if tail == [] then Some(0)
    else if tail[0] == 'e' || tail[0] == 'E' then
      var v := tail[1..];
      var w := if |v| > 0 && (v[0] == '+' || v[0] == '-') then v[1..] else v;
      if |w| > 0 && LeadingDigits(w) == |w| then
        var magnitude: int := DigitsValue(w);
        Some(if v[0] == '-' then -magnitude else magnitude)
      else None
    else None
  }

  /** The mantissa at the start of `u`: its digits (integer part then
      fraction, the point dropped), how many of them follow the point, and
      the text after it. */
  function Mantissa(u: string): (m: (string, nat, string))
    ensures AllDigits(m.0) && m.1 <= |m.0|
  {
    var i := LeadingDigits(u);
    var rest := u[i..];
    if |rest| > 0 && rest[0] == '.' then
      var afterPoint := rest[1..];
      var f := LeadingDigits(afterPoint);
      var digits := u[..i] + afterPoint[..f];
      assert AllDigits(digits) by {
        forall k | 0 <= k < |digits| ensures IsDigit(digits[k]) {
          if k >= i { assert digits[k] == afterPoint[k - i]; }
        }
      }
      (digits, f, afterPoint[f..])
    else (u[..i], 0, rest)
  }

  /** An unsigned decimal literal that must make up all of `u`: a mantissa of
      at least one digit and an optional exponent. */
  function UnsignedDecimal(negative: bool, u: string): JsNumber {
    var m := Mantissa(u);
    if m.0 == [] then NaN
    else
      match Exponent(m.2)
      case None => NaN
      case Some(e) => Scaled(negative, DigitsValue(m.0), e - m.1)
  }

  /** A signed decimal literal that must make up all of `t`, or `Infinity`. */
  function DecimalLiteral(t: string): JsNumber {
    var u := Unsigned(t);
    if u == "Infinity" then NonIntegral else UnsignedDecimal(IsNegative(t), u)
  }

  /** Value of a hexadecimal, decimal, octal or binary digit; 16 for any other character. */
  function RadixDigit(c: char): nat {
    if '0' <= c <= '9' then c as int - '0' as int
    else if 'a' <= c <= 'f' then c as int - 'a' as int + 10
    else if 'A' <= c <= 'F' then c as int - 'A' as int + 10
    else 16
  }

  function RadixValue(s: string, radix: nat): nat {
    if s == [] then 0 else RadixValue(s[..|s| - 1], radix) * radix + RadixDigit(s[|s| - 1])
  }

  /** The digits after `0x`, `0o` or `0b`: at least one, all valid in the radix. */
  function RadixLiteral(s: string, radix: nat): JsNumber {
    if s != [] && forall i :: 0 <= i < |s| ==> RadixDigit(s[i]) < radix then Integral(RadixValue(s, radix))
    else NaN
  }

  /** `Number(s)` of a string: white space around the literal is ignored, and
      the empty string is 0. */
  function StringToNumber(s: string): (r: JsNumber)
    ensures (forall i :: 0 <= i < |s| ==> IsSpace(s[i])) ==> r == Integral(0)
  {
    TrimStartSuffix(s);
    var t := TrimEnd(TrimStart(s));
    if t == [] then Integral(0) else NumericLiteral(t)
  }

  /** A trimmed, non-empty numeric literal; `0x`/`0o`/`0b` literals carry no sign. */
  function NumericLiteral(t: string): JsNumber {
    if |t| >= 2 && t[0] == '0' && (t[1] == 'x' || t[1] == 'X') then RadixLiteral(t[2..], 16)
    else if |t| >= 2 && t[0] == '0' && (t[1] == 'o' || t[1] == 'O') then RadixLiteral(t[2..], 8)
    else if |t| >= 2 && t[0] == '0' && (t[1] == 'b' || t[1] == 'B') then RadixLiteral(t[2..], 2)
    else DecimalLiteral(t)
  }

  /** A value read from a JSON request body (arrays and objects are not modelled). */
  datatype Json =
    | Undefined                 // the field is absent
    | Null
    | Bool(b: bool)
    | Int(n: int)               // a JSON number with an integral value
    | NonIntegralNumber         // a JSON number with a fractional part
    | Str(s: string)

  /** `Number(v)`: `null` and `false` are 0, `true` is 1, an absent field is
      `NaN`, and a string is read as a numeric literal. */
  function ToNumber(v: Json): (r: JsNumber)
    ensures v.Undefined? || v.NonIntegralNumber? ==> !r.Integral?
    ensures v.Int? ==> r == Integral(v.n)
    ensures v.Null? || v == Bool(false) ==> r == Integral(0)
    ensures v.Str? ==> r == StringToNumber(v.s)
  {
    match v
    case Undefined => NaN
    case Null => Integral(0)
    case Bool(b) => Integral(if b then 1 else 0)
    case Int(n) => Integral(n)
    case NonIntegralNumber => NonIntegral
    case Str(s) => StringToNumber(s)
  }

  /** `String(v)` of a number or string value. */
  function ToText(v: Json): string
    requires v.Int? || v.Str?
  {
    if v.Int? then IntToString(v.n) else v.s
  }

  lemma {:induction false} TrimEndKeeps(s: string)
    requires s == [] || !IsSpace(s[|s| - 1])
    ensures TrimEnd(s) == s
  {
  }

  /** Digits followed by neither a digit nor a point form the whole mantissa. */
  lemma {:induction false} MantissaOfDigits(d: string, tail: string)
    requires AllDigits(d)
    requires tail == [] || (!IsDigit(tail[0]) && tail[0] != '.')
    ensures Mantissa(d + tail) == (d, 0, tail)
  {
    DigitRun(d, tail);
    assert (d + tail)[|d|..] == tail;
  }

  lemma {:induction false} UnsignedDecimalOfDigits(negative: bool, d: string)
    requires |d| > 0 && AllDigits(d)
    ensures UnsignedDecimal(negative, d) == Scaled(negative, DigitsValue(d), 0)
  {
    MantissaOfDigits(d, []);
    assert d + [] == d;
  }

  /** A literal whose unsigned part starts with a digit is not `Infinity`. */
  lemma {:induction false} DecimalLiteralOfDigitStart(t: string)
    requires |Unsigned(t)| > 0 && IsDigit(Unsigned(t)[0])
    ensures DecimalLiteral(t) == UnsignedDecimal(IsNegative(t), Unsigned(t))
  {
    assert Unsigned(t)[0] != "Infinity"[0];
  }

  /** A plain run of digits is a decimal literal of that value. */
  lemma {:induction false} DecimalLiteralOfDigits(d: string)
    requires |d| > 0 && AllDigits(d)
    ensures DecimalLiteral(d) == Integral(DigitsValue(d))
  {
    assert IsDigit(d[0]) && Unsigned(d) == d && !IsNegative(d);
    DecimalLiteralOfDigitStart(d);
    UnsignedDecimalOfDigits(false, d);
  }

  /** A minus sign and a run of digits is a decimal literal of the negated value. */
  lemma {:induction false} DecimalLiteralOfMinusDigits(t: string)
    requires |t| > 1 && t[0] == '-' && AllDigits(t[1..])
    ensures var v: int := DigitsValue(t[1..]); DecimalLiteral(t) == Integral(-v)
  {
    assert Unsigned(t) == t[1..] && IsNegative(t);
    assert IsDigit(t[1..][0]);
    DecimalLiteralOfDigitStart(t);
    UnsignedDecimalOfDigits(true, t[1..]);
  }

  /** Digits followed by an exponent part: the digits scaled by the exponent. */
  lemma {:induction false} DecimalLiteralWithExponent(d: string, tail: string)
    requires |d| > 0 && AllDigits(d)
    requires |tail| > 0 && (tail[0] == 'e' || tail[0] == 'E')
    ensures Exponent(tail).Some? ==> DecimalLiteral(d + tail) == Scaled(false, DigitsValue(d), Exponent(tail).value)
    ensures Exponent(tail).None? ==> DecimalLiteral(d + tail) == NaN
  {
    var u := d + tail;
    assert u[0] == d[0] && IsDigit(u[0]) && Unsigned(u) == u && !IsNegative(u);
    DecimalLiteralOfDigitStart(u);
    MantissaOfDigits(d, tail);
  }

  /** A string with no white space around it and no radix prefix is read as a decimal literal. */
  lemma {:induction false} StringToNumberIsDecimal(s: string)
    requires |s| > 0 && !IsSpace(s[0]) && !IsSpace(s[|s| - 1])
    requires |s| >= 2 && s[0] == '0' ==> IsDigit(s[1])
    ensures StringToNumber(s) == DecimalLiteral(s)
  {
    TrimStartKeeps(s);
    TrimEndKeeps(s);
    NumericLiteralIsDecimal(s);
  }

  lemma {:induction false} NumericLiteralIsDecimal(t: string)
    requires |t| >= 2 && t[0] == '0' ==> IsDigit(t[1])
    ensures NumericLiteral(t) == DecimalLiteral(t)
  {
    if |t| >= 2 && t[0] == '0' {
      var c := t[1];
      assert '0' <= c <= '9';
      assert c != 'x' && c != 'X' && c != 'o' && c != 'O' && c != 'b' && c != 'B';
    }
  }

  /** The text of a natural number: digits of its value, with no leading zero. */
  lemma NaturalText(n: nat)
    ensures var s := IntToString(n);
            && |s| > 0 && AllDigits(s) && DigitsValue(s) == n
            && !IsSpace(s[0]) && !IsSpace(s[|s| - 1])
            && (|s| >= 2 && s[0] == '0' ==> IsDigit(s[1]))
  {
    NatToDigitsValue(n);
  }

  lemma {:induction false} StringToNumberOfNatural(n: nat)
    ensures StringToNumber(IntToString(n)) == Integral(n)
  {
    NaturalText(n);
    var s := IntToString(n);
    DecimalLiteralOfDigits(s);
    StringToNumberIsDecimal(s);
  }

  /** The text of a negative integer: a minus sign, then digits of its magnitude ending in a digit. */
  lemma NegativeText(n: int)
    requires n < 0
    ensures var s := IntToString(n);
            && |s| > 1 && s[0] == '-' && AllDigits(s[1..]) && DigitsValue(s[1..]) == -n
            && !IsSpace(s[|s| - 1])
  {
    var d := NatToDigits(-n);
    NatToDigitsValue(-n);
    var s := IntToString(n);
    assert s[1..] == d;
    assert s[|s| - 1] == d[|d| - 1];
  }

  lemma {:induction false} StringToNumberOfNegative(n: int)
    requires n < 0
    ensures StringToNumber(IntToString(n)) == Integral(n)
  {
    NegativeText(n);
    var s := IntToString(n);
    DecimalLiteralOfMinusDigits(s);
    StringToNumberIsDecimal(s);
  }

  /** `Number` reads back what `String` wrote: for every integer n,
      `Number(String(n)) === n`. */
  lemma {:induction false} StringToNumberOfString(n: int)
    ensures StringToNumber(IntToString(n)) == Integral(n)
  {
    if n < 0 {
      StringToNumberOfNegative(n);
    } else {
      StringToNumberOfNatural(n);
    }
  }
}
