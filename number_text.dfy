/**
 * Text and numbers as JavaScript's string built-ins treat them: how a
 * problem's operands are rendered into its text (a template literal), and how
 * a typed answer is trimmed (`String.prototype.trim`), checked (`isNaN`, which
 * converts with `Number`) and read (`parseInt(..., 10)`).
 */
module NumberText {
  import opened Wrappers

  /** ECMAScript `WhiteSpace` and `LineTerminator`: what `trim`, `Number` and `parseInt` skip. */
  predicate IsWhitespace(c: char) {
    c == '\t' || c == '\n' || c == '\U{B}' || c == '\U{C}' || c == '\r' || c == ' '
    || c == '\U{A0}' || c == '\U{1680}' || ('\U{2000}' <= c <= '\U{200A}')
    || c == '\U{2028}' || c == '\U{2029}' || c == '\U{202F}' || c == '\U{205F}'
    || c == '\U{3000}' || c == '\U{FEFF}'
  }

  predicate IsDigit(c: char) {
    '0' <= c <= '9'
  }

  predicate IsSign(c: char) {
    c == '+' || c == '-'
  }

  /** A non-empty run of decimal digits. */
  predicate IsDigits(s: string) {
    |s| > 0 && forall i :: 0 <= i < |s| ==> IsDigit(s[i])
  }

  /** The text holds nothing but white space. */
  predicate IsBlank(s: string) {
    forall i :: 0 <= i < |s| ==> IsWhitespace(s[i])
  }

  /** `s` without its leading white space: a suffix of `s`, all of whose dropped characters are white space. */
  function TrimStart(s: string): (r: string)
    ensures |r| <= |s|
    ensures forall i :: 0 <= i < |r| ==> r[i] == s[|s| - |r| + i]
    ensures forall i :: 0 <= i < |s| - |r| ==> IsWhitespace(s[i])
    ensures |r| > 0 ==> !IsWhitespace(r[0])
  {
    if |s| > 0 && IsWhitespace(s[0]) then TrimStart(s[1..]) else s
  }

  /** `s` without its trailing white space: a prefix of `s`, all of whose dropped characters are white space. */
  function TrimEnd(s: string): (r: string)
    ensures |r| <= |s|
    ensures forall i :: 0 <= i < |r| ==> r[i] == s[i]
    ensures forall i :: |r| <= i < |s| ==> IsWhitespace(s[i])
    ensures |r| > 0 ==> !IsWhitespace(r[|r| - 1])
  {
    if |s| > 0 && IsWhitespace(s[|s| - 1]) then TrimEnd(s[..|s| - 1]) else s
  }

  /** `s.trim()`. */
  function Trim(s: string): (r: string)
    ensures |r| > 0 ==> !IsWhitespace(r[0]) && !IsWhitespace(r[|r| - 1])
  {
    TrimEnd(TrimStart(s))
  }

  /** `s.trim() === ''` holds exactly for blank text. */
  lemma TrimEmptyIffBlank(s: string)
    ensures Trim(s) == [] <==> IsBlank(s)
  {
    var t := TrimStart(s);
    if t != [] {
      assert !IsWhitespace(s[|s| - |t|]) by {
        assert t[0] == s[|s| - |t|];
      }
    }
  }

  /** A text that neither starts nor ends with white space is its own trim. */
  lemma TrimUntouched(s: string)
    requires |s| > 0 && !IsWhitespace(s[0]) && !IsWhitespace(s[|s| - 1])
    ensures Trim(s) == s
  {
  }

  /**
   * The states of a left-to-right scan of `Number`'s `StringNumericLiteral`
   * grammar: surrounding white space, an optional sign, then `Infinity`, a
   * decimal with optional fraction and exponent, or an unsigned `0x`, `0o` or
   * `0b` integer.
   */
  datatype ScanState =
    | Start                  // only white space so far
    | Signed                 // a sign
    | Zero                   // an unsigned `0`, which may open a `0x`, `0o` or `0b` literal
    | Whole                  // whole-number digits
    | BarePoint              // a point with no digits before it
    | WholePoint             // digits and a point
    | Fraction               // fraction digits
    | ExponentMark           // `e` or `E`
    | ExponentSign           // the exponent's sign
    | Exponent               // exponent digits
    | BaseMark(base: nat)    // `0x`, `0o` or `0b`
    | Based(base: nat)       // digits of that base
    | Infinity(matched: nat) // a prefix of `Infinity`
    | Trailing               // white space after a complete literal
    | Failed                 // not a numeric literal

  predicate IsExponentMark(c: char) {
    c == 'e' || c == 'E'
  }

  predicate IsBaseDigit(base: nat, c: char) {
    if base == 16 then IsDigit(c) || 'a' <= c <= 'f' || 'A' <= c <= 'F'
    else if base == 8 then '0' <= c <= '7'
    else c == '0' || c == '1'
  }

  const InfinityText: string := "Infinity"

  /** The state after reading one more character. */
  function Step(q: ScanState, c: char): ScanState
  {
    match q
    case Start =>
      if IsWhitespace(c) then Start
      else if IsSign(c) then Signed
      else if c == '0' then Zero
      else if IsDigit(c) then Whole
      else if c == '.' then BarePoint
      else if c == 'I' then Infinity(1)
      else Failed
    case Signed =>
      if IsDigit(c) then Whole
      else if c == '.' then BarePoint
      else if c == 'I' then Infinity(1)
      else Failed
    case Zero =>
      if IsDigit(c) then Whole
      else if c == '.' then WholePoint
      else if IsExponentMark(c) then ExponentMark
      else if c == 'x' || c == 'X' then BaseMark(16)
      else if c == 'o' || c == 'O' then BaseMark(8)
      else if c == 'b' || c == 'B' then BaseMark(2)
      else if IsWhitespace(c) then Trailing
      else Failed
    case Whole =>
      if IsDigit(c) then Whole
      else if c == '.' then WholePoint
      else if IsExponentMark(c) then ExponentMark
      else if IsWhitespace(c) then Trailing
      else Failed
    case BarePoint =>
      if IsDigit(c) then Fraction else Failed
    case WholePoint =>
      if IsDigit(c) then Fraction
      else if IsExponentMark(c) then ExponentMark
      else if IsWhitespace(c) then Trailing
      else Failed
    case Fraction =>
      if IsDigit(c) then Fraction
      else if IsExponentMark(c) then ExponentMark
      else if IsWhitespace(c) then Trailing
      else Failed
    case ExponentMark =>
      if IsSign(c) then ExponentSign
      else if IsDigit(c) then Exponent
      else Failed
    case ExponentSign =>
      if IsDigit(c) then Exponent else Failed
    case Exponent =>
      if IsDigit(c) then Exponent
      else if IsWhitespace(c) then Trailing
      else Failed
    case BaseMark(base) =>
      if IsBaseDigit(base, c) then Based(base) else Failed
    case Based(base) =>
      if IsBaseDigit(base, c) then Based(base)
      else if IsWhitespace(c) then Trailing
      else Failed
    case Infinity(matched) =>
      if matched < |InfinityText| && c == InfinityText[matched] then Infinity(matched + 1)
      else if matched == |InfinityText| && IsWhitespace(c) then Trailing
      else Failed
    case Trailing =>
      if IsWhitespace(c) then Trailing else Failed
    case Failed => Failed
  }

  /** The state after reading all of `s` from state `q`. */
  function Scan(q: ScanState, s: string): ScanState
    decreases |s|
  {
    if s == [] then q else Scan(Step(q, s[0]), s[1..])
  }

  /** The scan ends on a whole literal (or on nothing but white space, which `Number` reads as 0). */
  predicate Complete(q: ScanState) {
    q == Start || q == Zero || q == Whole || q == WholePoint || q == Fraction || q == Exponent
    || q.Based? || q == Infinity(|InfinityText|) || q == Trailing
  }

  /** Scanning a concatenation scans its parts one after the other. */
  lemma {:induction false} ScanAppend(q: ScanState, a: string, b: string)
    ensures Scan(q, a + b) == Scan(Scan(q, a), b)
    decreases |a|
  {
    if a != [] {
      ScanAppend(Step(q, a[0]), a[1..], b);
      var ab := a + b;
      assert ab != [] && ab[0] == a[0] && ab[1..] == a[1..] + b;
      assert Scan(q, ab) == Scan(Step(q, a[0]), a[1..] + b);
    } else {
      assert a + b == b;
    }
  }

  /** Once the scan has failed, nothing read later rescues it. */
  lemma {:induction false} ScanFailedStays(s: string)
    ensures Scan(Failed, s) == Failed
  {
    if s != [] {
      ScanFailedStays(s[1..]);
    }
  }

  /** White space read at the start changes nothing. */
  lemma {:induction false} ScanBlank(s: string)
    requires IsBlank(s)
    ensures Scan(Start, s) == Start
  {
    if s != [] {
      ScanBlank(s[1..]);
    }
  }

  /** Whole-number digits read at the start, after a sign, or inside a whole number end in a whole number. */
  lemma {:induction false} ScanWholeDigits(q: ScanState, d: string)
    requires q == Start || q == Signed || q == Zero || q == Whole
    requires forall i :: 0 <= i < |d| ==> IsDigit(d[i])
    ensures d != [] ==> Scan(q, d) == Zero || Scan(q, d) == Whole
    ensures d != [] && q != Start ==> Scan(q, d) == Whole
    decreases |d|
  {
    if d != [] {
      ScanWholeDigits(Step(q, d[0]), d[1..]);
    }
  }

  /** Digits read inside a fraction or an exponent stay there. */
  lemma {:induction false} ScanDigitsStay(q: ScanState, d: string)
    requires q == Fraction || q == Exponent
    requires forall i :: 0 <= i < |d| ==> IsDigit(d[i])
    ensures Scan(q, d) == q
  {
    if d != [] {
      ScanDigitsStay(q, d[1..]);
    }
  }

  /** A point followed by digits, read after whole-number digits, after a sign or at the start, ends in a fraction. */
  lemma ScanPointFraction(q: ScanState, fraction: string)
    requires q == Zero || q == Whole || q == Start || q == Signed
    requires IsDigits(fraction)
    ensures Scan(q, "." + fraction) == Fraction
  {
    var s := "." + fraction;
    assert s[1..] == fraction;
    var p := Step(q, '.');
    assert Scan(q, s) == Scan(p, fraction);
    ScanDigitsStay(Fraction, fraction[1..]);
  }

  /** An exponent mark followed by digits, read after whole-number digits, ends in an exponent. */
  lemma ScanExponent(q: ScanState, exponent: string)
    requires q == Zero || q == Whole
    requires IsDigits(exponent)
    ensures Scan(q, "e" + exponent) == Exponent
  {
    var s := "e" + exponent;
    assert s[1..] == exponent;
    assert Scan(q, s) == Scan(ExponentMark, exponent);
    ScanDigitsStay(Exponent, exponent[1..]);
  }

  /**
   * `!isNaN(s)`: `Number(s)` is a number, which is the case exactly when the
   * whole text scans as a literal. Blank text is one (`Number` reads it as 0),
   * and so is a run of digits.
   */
  predicate IsNumeric(s: string): (r: bool)
    ensures IsBlank(s) ==> r
    ensures IsDigits(s) ==> r
  {
    assert IsBlank(s) ==> Scan(Start, s) == Start by {
      if IsBlank(s) {
        ScanBlank(s);
      }
    }
    assert IsDigits(s) ==> Complete(Scan(Start, s)) by {
      if IsDigits(s) {
        ScanWholeDigits(Start, s);
      }
    }
    Complete(Scan(Start, s))
  }

  /** Digits, a point and more digits (`1.5`) are a number. */
  lemma FractionIsNumeric(whole: string, fraction: string)
    requires IsDigits(whole) && IsDigits(fraction)
    ensures IsNumeric(whole + ("." + fraction))
  {
    ScanAppend(Start, whole, "." + fraction);
    ScanWholeDigits(Start, whole);
    ScanPointFraction(Scan(Start, whole), fraction);
  }

  /** A point and digits with no whole part (`.5`) are a number. */
  lemma PointFractionIsNumeric(fraction: string)
    requires IsDigits(fraction)
    ensures IsNumeric("." + fraction)
  {
    ScanPointFraction(Start, fraction);
  }

  /** Digits, `e` and digits (`1e1`) are a number. */
  lemma ExponentIsNumeric(mantissa: string, exponent: string)
    requires IsDigits(mantissa) && IsDigits(exponent)
    ensures IsNumeric(mantissa + ("e" + exponent))
  {
    ScanAppend(Start, mantissa, "e" + exponent);
    ScanWholeDigits(Start, mantissa);
    ScanExponent(Scan(Start, mantissa), exponent);
  }

  /** A sign before a decimal fraction (`-0.5`) still gives a number. */
  lemma SignedFractionIsNumeric(sign: char, whole: string, fraction: string)
    requires IsSign(sign) && IsDigits(whole) && IsDigits(fraction)
    ensures IsNumeric([sign] + (whole + ("." + fraction)))
  {
    var u := whole + ("." + fraction);
    assert ([sign] + u)[1..] == u;
    assert Scan(Start, [sign] + u) == Scan(Signed, u);
    ScanAppend(Signed, whole, "." + fraction);
    ScanWholeDigits(Signed, whole);
    ScanPointFraction(Whole, fraction);
  }

  /** A second point (`1.2.3`) is never part of a number. */
  lemma SecondPointIsNotNumeric(whole: string, fraction: string, rest: string)
    requires IsDigits(whole) && IsDigits(fraction)
    ensures !IsNumeric(whole + ("." + fraction) + ("." + rest))
  {
    ScanAppend(Start, whole + ("." + fraction), "." + rest);
    FractionIsNumeric(whole, fraction);
    ScanAppend(Start, whole, "." + fraction);
    ScanWholeDigits(Start, whole);
    ScanPointFraction(Scan(Start, whole), fraction);
    assert ("." + rest)[1..] == rest;
    ScanFailedStays(rest);
  }

  function DigitValue(c: char): nat
    requires IsDigit(c)
  {
    (c as int - '0' as int) as nat
  }

  function DigitChar(d: nat): (c: char)
    requires d < 10
    ensures IsDigit(c) && DigitValue(c) == d
  {
    ('0' as int + d) as char
  }

  /** The value of a run of digits, most significant first. */
  function DigitsValue(s: string): nat
    requires forall i :: 0 <= i < |s| ==> IsDigit(s[i])
  {
    if s == [] then 0 else DigitsValue(s[..|s| - 1]) * 10 + DigitValue(s[|s| - 1])
  }

  /** The decimal text of `n`, as a template literal renders a whole number. */
  function DecimalText(n: nat): string
  {
    if n < 10 then [DigitChar(n)] else DecimalText(n / 10) + [DigitChar(n % 10)]
  }

  /** Rendering then reading back gives the number: the text is digits and denotes `n`. */
  lemma {:induction false} DecimalTextRoundTrip(n: nat)
    ensures IsDigits(DecimalText(n))
    ensures DigitsValue(DecimalText(n)) == n
  {
    if n >= 10 {
      DecimalTextRoundTrip(n / 10);
      var s := DecimalText(n);
      assert s[..|s| - 1] == DecimalText(n / 10);
    }
  }

  /** The length of the run of decimal digits that `s` starts with. */
  function DigitRun(s: string): (n: nat)
    ensures n <= |s|
    ensures forall i :: 0 <= i < n ==> IsDigit(s[i])
    ensures n < |s| ==> !IsDigit(s[n])
  {
    if |s| > 0 && IsDigit(s[0]) then 1 + DigitRun(s[1..]) else 0
  }

  /** A run of digits followed by a non-digit (or nothing) has exactly that run as its digit run. */
  lemma {:induction false} DigitRunPrefix(digits: string, tail: string)
    requires forall i :: 0 <= i < |digits| ==> IsDigit(digits[i])
    requires tail == [] || !IsDigit(tail[0])
    ensures DigitRun(digits + tail) == |digits|
  {
    if digits != [] {
      DigitRunPrefix(digits[1..], tail);
      assert (digits + tail)[1..] == digits[1..] + tail;
    }
  }

  /** The value of the run of decimal digits `u` starts with; `None` when it starts with no digit. */
  function LeadingInteger(u: string): (r: Option<nat>)
    ensures r.None? <==> u == [] || !IsDigit(u[0])
  {
    var k := DigitRun(u);
    if k == 0 then None else Some(DigitsValue(u[..k]))
  }

  /** A run of digits followed by a non-digit (or nothing) is read as the run's value. */
  lemma LeadingIntegerOfDigits(digits: string, tail: string)
    requires IsDigits(digits)
    requires tail == [] || !IsDigit(tail[0])
    ensures LeadingInteger(digits + tail) == Some(DigitsValue(digits))
  {
    DigitRunPrefix(digits, tail);
    assert (digits + tail)[..|digits|] == digits;
  }

  /**
   * `parseInt(s, 10)`: past the leading white space and an optional sign, the
   * value of the longest run of decimal digits; `None` (NaN) when there is none.
   */
  function ParseInteger(s: string): (r: Option<int>)
    ensures IsBlank(s) ==> r == None
  {
    if |s| > 0 && IsWhitespace(s[0]) then ParseInteger(s[1..])
    else if |s| > 0 && IsSign(s[0]) then
      match LeadingInteger(s[1..])
      case None => None
      case Some(v) => Some(if s[0] == '-' then 0 - v as int else v)
    else
      match LeadingInteger(s)
      case None => None
      case Some(v) => Some(v)
  }

  /** `parseInt` skips leading white space. */
  lemma {:induction false} ParseIntegerSkipsBlank(w: string, s: string)
    requires IsBlank(w)
    ensures ParseInteger(w + s) == ParseInteger(s)
  {
    if w != [] {
      ParseIntegerSkipsBlank(w[1..], s);
      assert (w + s)[0] == w[0] && IsWhitespace(w[0]);
      assert (w + s)[1..] == w[1..] + s;
    } else {
      assert w + s == s;
    }
  }

  /**
   * `parseInt` reads the integer at the head of the text and ignores whatever
   * follows the digits: a fraction, an exponent or any other text.
   */
  lemma ParseIntegerReadsLeadingDigits(digits: string, tail: string)
    requires IsDigits(digits)
    requires tail == [] || !IsDigit(tail[0])
    ensures ParseInteger(digits + tail) == Some(DigitsValue(digits) as int)
  {
    LeadingIntegerOfDigits(digits, tail);
  }

  /** With a sign in front, `parseInt` reads the same digits, negated for `-`. */
  lemma ParseIntegerReadsSignedDigits(sign: char, digits: string, tail: string)
    requires IsSign(sign)
    requires IsDigits(digits)
    requires tail == [] || !IsDigit(tail[0])
    ensures ParseInteger([sign] + (digits + tail))
            == Some(if sign == '-' then 0 - DigitsValue(digits) as int else DigitsValue(digits))
  {
    LeadingIntegerOfDigits(digits, tail);
    assert ([sign] + (digits + tail))[1..] == digits + tail;
  }

  /** A run of digits is not blank, is a number, and `parseInt` reads its value. */
  lemma DigitsParse(s: string)
    requires IsDigits(s)
    ensures !IsBlank(s) && IsNumeric(s)
    ensures ParseInteger(s) == Some(DigitsValue(s) as int)
  {
    assert !IsWhitespace(s[0]);
    ParseIntegerReadsLeadingDigits(s, "");
    assert s + "" == s;
  }

  /** Typing the decimal text of a whole number passes both tests and is read as that number. */
  lemma DecimalTextParses(n: nat)
    ensures !IsBlank(DecimalText(n)) && IsNumeric(DecimalText(n))
    ensures ParseInteger(DecimalText(n)) == Some(n)
  {
    DecimalTextRoundTrip(n);
    DigitsParse(DecimalText(n));
  }
}
