/** Amounts as text: the digit-only filter every amount field applies to its
    input, the vi-VN rendering of whole numbers with '.' between groups of
    three digits, the parse that strips those dots and reads the number back,
    and the subset of JavaScript's `Number(string)` the program relies on. */
module NumberText {
  import opened Types
  import opened Text

  predicate IsDigit(c: char) {
    '0' <= c <= '9'
  }

  predicate IsDigits(s: string) {
    forall i :: 0 <= i < |s| ==> IsDigit(s[i])
  }

  function DigitValue(c: char): (d: nat)
    requires IsDigit(c)
    ensures d < 10
  {
    (c - '0') as nat
  }

  function DigitChar(d: nat): (c: char)
    requires d < 10
    ensures IsDigit(c) && DigitValue(c) == d
  {
    ('0' as int + d) as char
  }

  /** The value of a string of decimal digits, read left to right. */
  function DigitsValue(s: string): nat
    requires IsDigits(s)
  {
    if s == [] then 0 else DigitsValue(s[..|s| - 1]) * 10 + DigitValue(s[|s| - 1])
  }

  function Pow10(k: nat): (p: nat)
    ensures p >= 1
  {
    if k == 0 then 1 else 10 * Pow10(k - 1)
  }

  /** Digit strings concatenate to a digit string. */
  lemma {:induction false} DigitsConcat(a: string, b: string)
    requires IsDigits(a) && IsDigits(b)
    ensures IsDigits(a + b)
  {
    var ab := a + b;
    forall i | 0 <= i < |ab| ensures IsDigit(ab[i]) {
      if i < |a| { assert ab[i] == a[i]; } else { assert ab[i] == b[i - |a|]; }
    }
  }

  /** The value of a concatenation: the left part shifted by the right part's
      length. */
  lemma {:induction false} DigitsValueConcat(a: string, b: string)
    requires IsDigits(a) && IsDigits(b)
    ensures IsDigits(a + b)
    ensures DigitsValue(a + b) == DigitsValue(a) * Pow10(|b|) + DigitsValue(b)
  {
    DigitsConcat(a, b);
    if b == [] {
      assert a + b == a;
    } else {
      var b' := b[..|b| - 1];
      var ab := a + b;
      DigitsConcat(a, b');
      assert ab[..|ab| - 1] == a + b';
      assert ab[|ab| - 1] == b[|b| - 1];
      DigitsValueConcat(a, b');
      ShiftStep(DigitsValue(ab), DigitsValue(a + b'), DigitsValue(a), Pow10(|b'|), DigitsValue(b'),
                DigitValue(b[|b| - 1]), DigitsValue(b), Pow10(|b|));
    }
  }

  /** Appending a digit on both sides of `ab' == x * p + v`. */
  lemma {:induction false} ShiftStep(ab: int, ab': int, x: int, p: int, v: int, d: int, vb: int, pb: int)
    requires ab == ab' * 10 + d && ab' == x * p + v
    requires vb == v * 10 + d && pb == 10 * p
    ensures ab == x * pb + vb
  {
    calc {
      ab;
      (x * p + v) * 10 + d;
      x * p * 10 + v * 10 + d;
      x * (10 * p) + (v * 10 + d);
    }
  }

  /** The decimal text of a whole number, without leading zeros (JavaScript's
      `String(n)`). */
  function NatToString(n: nat): (s: string)
    ensures |s| >= 1 && IsDigits(s)
    ensures DigitsValue(s) == n
    ensures |s| > 1 ==> s[0] != '0'
  {
    if n < 10 then [DigitChar(n)]
    else
      var p := NatToString(n / 10);
      var s := p + [DigitChar(n % 10)];
      assert s[..|s| - 1] == p;
      s
  }

  /** Appending a digit to a number's text appends it to the number. */
  lemma {:induction false} NatToStringAppend(n: nat, d: nat)
    requires n >= 1 && d < 10
    ensures NatToString(10 * n + d) == NatToString(n) + [DigitChar(d)]
  {
    var m := 10 * n + d;
    assert m / 10 == n && m % 10 == d;
  }

  /** `String(n)` for a whole number: a minus sign before the digits of a
      negative one. */
  function IntToString(n: int): (s: string)
    ensures |s| >= 1
    ensures forall i :: 0 <= i < |s| ==> IsDigit(s[i]) || s[i] == '-'
  {
    if n < 0 then ['-'] + NatToString(-n) else NatToString(n)
  }

  /** The three-digit, zero-padded text of a group below 1000. */
  function Pad3(m: nat): (s: string)
    requires m < 1000
    ensures |s| == 3 && IsDigits(s) && DigitsValue(s) == m
  {
    var h, t, u := m / 100, m / 10 % 10, m % 10;
    var s := [DigitChar(h), DigitChar(t), DigitChar(u)];
    assert s[..2][..1] == s[..1] && s[..1][..0] == [];
    assert DigitsValue(s[..1]) == h;
    assert DigitsValue(s[..2]) == h * 10 + t;
    assert m / 10 == h * 10 + t;
    assert m == (h * 10 + t) * 10 + u;
    s
  }

  /** `new Intl.NumberFormat('vi-VN').format(n)` on a whole number: groups of
      three digits separated by '.'. */
  function FormatGrouped(n: nat): (s: string)
    ensures |s| >= 1 && IsDigit(s[0])
    ensures forall i :: 0 <= i < |s| ==> IsDigit(s[i]) || s[i] == '.'
    decreases n
  {
    if n < 1000 then NatToString(n)
    else FormatGrouped(n / 1000) + "." + Pad3(n % 1000)
  }

  /** Leading and trailing characters of a digit string are not whitespace. */
  lemma {:induction false} DigitsNotBlank(s: string)
    requires IsDigits(s)
    ensures Trim(s) == s
  {
    if s != [] {
      assert IsDigit(s[0]) && IsDigit(s[|s| - 1]);
      TrimOfTrimmed(s);
    }
  }

  /** `Number(s)` on the inputs this program feeds it: surrounding whitespace
      is ignored, an empty (or blank) string reads as 0, an optional sign is
      allowed before the digits, and anything else is NaN (`None`). */
  function JsNumber(s: string): (r: Option<int>)
  {
    ReadSigned(Trim(s))
  }

  /** The number written by text without surrounding whitespace. */
  function ReadSigned(t: string): (r: Option<int>)
  {
    if t == [] then Some(0)
    else if t[0] == '-' && |t| > 1 && IsDigits(t[1..]) then Some(-(DigitsValue(t[1..]) as int))
    else if t[0] == '+' && |t| > 1 && IsDigits(t[1..]) then Some(DigitsValue(t[1..]))
    else if IsDigits(t) then Some(DigitsValue(t))
    else None
  }

  /** A non-empty digit string reads as its decimal value; the empty string
      reads as 0. */
  lemma {:induction false} JsNumberOfDigits(s: string)
    requires IsDigits(s)
    ensures JsNumber(s) == Some(DigitsValue(s))
  {
    DigitsNotBlank(s);
    if s != [] {
      assert IsDigit(s[0]);
    }
  }

  /** `Number(value.replace(/\./g, ''))`: the parse shared by the
      household-business wizard, the corporate-tax page and the quick
      calculators. */
  function ParseGrouped(s: string): (r: Option<int>)
    ensures IsDigits(RemoveAll(s, '.')) ==> r == Some(DigitsValue(RemoveAll(s, '.')))
  {
    var digits := RemoveAll(s, '.');
    if IsDigits(digits) then (JsNumberOfDigits(digits); JsNumber(digits)) else JsNumber(digits)
  }

  /** Dropping the dots of a rendered amount leaves its decimal digits. */
  lemma {:induction false} UngroupedDigits(n: nat)
    ensures IsDigits(RemoveAll(FormatGrouped(n), '.'))
    ensures DigitsValue(RemoveAll(FormatGrouped(n), '.')) == n
    decreases n
  {
    if n < 1000 {
      RemoveAllAbsent(NatToString(n), '.');
    } else {
      var hi := FormatGrouped(n / 1000);
      var lo := Pad3(n % 1000);
      UngroupedDigits(n / 1000);
      RemoveAllConcat(hi + ".", lo, '.');
      RemoveAllConcat(hi, ".", '.');
      RemoveAllAbsent(lo, '.');
      assert RemoveAll(".", '.') == "";
      var d := RemoveAll(hi, '.');
      assert RemoveAll(FormatGrouped(n), '.') == d + lo;
      DigitsValueConcat(d, lo);
      assert Pow10(3) == 1000;
    }
  }

  /** Parsing a rendered amount gives the amount back. */
  lemma {:induction false} ParseFormatRoundTrip(n: nat)
    ensures ParseGrouped(FormatGrouped(n)) == Some(n)
  {
    UngroupedDigits(n);
  }

  /** `value.replace(/[^0-9]/g, '')`: every non-digit removed. */
  function KeepDigits(s: string): (r: string)
    ensures IsDigits(r) && |r| <= |s|
    ensures r == [] <==> forall i :: 0 <= i < |s| ==> !IsDigit(s[i])
  {
    if s == [] then []
    else if IsDigit(s[0]) then [s[0]] + KeepDigits(s[1..])
    else
      var r := KeepDigits(s[1..]);
      assert forall i :: 1 <= i < |s| ==> s[i] == s[1..][i - 1];
      r
  }

  /** What an amount field shows after each keystroke: the typed digits,
      re-rendered with '.' grouping, or "" when no digit was typed. */
  function NormaliseAmountInput(raw: string): (shown: string)
  {
    var digits := KeepDigits(raw);
    if digits == [] then "" else FormatGrouped(DigitsValue(digits))
  }

  /** The amount field is empty exactly when the keystrokes held no digit;
      otherwise it parses back to the value of the digits typed, and holds
      nothing but digits and dots. */
  lemma {:induction false} NormalisedInputParses(raw: string)
    ensures NormaliseAmountInput(raw) == "" <==> forall i :: 0 <= i < |raw| ==> !IsDigit(raw[i])
    ensures NormaliseAmountInput(raw) != "" ==>
              ParseGrouped(NormaliseAmountInput(raw)) == Some(DigitsValue(KeepDigits(raw)))
    ensures forall i :: 0 <= i < |NormaliseAmountInput(raw)| ==>
              IsDigit(NormaliseAmountInput(raw)[i]) || NormaliseAmountInput(raw)[i] == '.'
  {
    var digits := KeepDigits(raw);
    if digits != [] {
      ParseFormatRoundTrip(DigitsValue(digits));
    }
  }

  /** An amount field reads as the value of the digits typed into it (an
      emptied field as 0, as `Number("")` does). */
  lemma {:induction false} TypedAmountValue(raw: string, shown: string)
    requires shown == NormaliseAmountInput(raw)
    ensures ParseGrouped(shown) == Some(DigitsValue(KeepDigits(raw)))
  {
    if shown == "" {
      assert RemoveAll(shown, '.') == [];
    } else {
      ParseFormatRoundTrip(DigitsValue(KeepDigits(raw)));
    }
  }

  /** Normalising an already normalised field changes nothing. */
  lemma {:induction false} NormaliseIdempotent(raw: string)
    ensures NormaliseAmountInput(NormaliseAmountInput(raw)) == NormaliseAmountInput(raw)
  {
    var shown := NormaliseAmountInput(raw);
    if shown != "" {
      var n := DigitsValue(KeepDigits(raw));
      UngroupedDigits(n);
      KeepDigitsOfGrouped(shown);
    }
  }

  /** On text made only of digits and dots, keeping the digits is removing
      the dots. */
  lemma {:induction false} KeepDigitsOfGrouped(s: string)
    requires forall i :: 0 <= i < |s| ==> IsDigit(s[i]) || s[i] == '.'
    ensures KeepDigits(s) == RemoveAll(s, '.')
  {
    if s != [] {
      KeepDigitsOfGrouped(s[1..]);
    }
  }
}
