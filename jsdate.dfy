/**
 * The part of the JavaScript `Date` runtime that the booking controller relies on.
 *
 * Parsing a date string and the calendar arithmetic that turns a time value into
 * UTC calendar fields are done by the runtime; the model receives their outcome as
 * an `Instant`. What is modelled here is how `Date.prototype.toISOString` writes
 * those fields: `YYYY-MM-DDTHH:mm:ss.sssZ`, with a signed six-digit year outside
 * the years 0 to 9999.
 */
module JsDate {

  /** The UTC calendar breakdown of a valid time value. */
  datatype UtcFields = UtcFields(
    year: int, month: int, day: int,
    hour: int, minute: int, second: int, millisecond: int)

  /** Years reachable by a valid time value (plus or minus 8.64e15 ms around 1970). */
  const MinYear: int := -271821
  const MaxYear: int := 275760

  predicate InRange(t: UtcFields) {
    MinYear <= t.year <= MaxYear &&
    1 <= t.month <= 12 && 1 <= t.day <= 31 &&
    0 <= t.hour <= 23 && 0 <= t.minute <= 59 && 0 <= t.second <= 59 &&
    0 <= t.millisecond <= 999
  }

  /** A date whose time value is not NaN. */
  type Instant = t: UtcFields | InRange(t) witness UtcFields(1970, 1, 1, 0, 0, 0, 0)

  function Pow10(width: nat): (p: nat)
    ensures p >= 1
  {
    if width == 0 then 1 else 10 * Pow10(width - 1)
  }

  /** A character from '0' to '9'. */
  predicate IsDigit(c: char) {
    48 <= c as int <= 57
  }

  function DigitChar(d: nat): (c: char)
    requires d < 10
    ensures IsDigit(c)
  {
    (48 + d) as char
  }

  /** `n` written in decimal, left-padded with zeros to exactly `width` digits. */
  function Digits(n: nat, width: nat): (s: string)
    requires n < Pow10(width)
    ensures |s| == width
    ensures forall i :: 0 <= i < |s| ==> IsDigit(s[i])
  {
    if width == 0 then [] else Digits(n / 10, width - 1) + [DigitChar(n % 10)]
  }

  /** The number a string of decimal digits denotes (the reading of `Digits`). */
  function DigitsValue(s: string): nat
    requires forall i :: 0 <= i < |s| ==> IsDigit(s[i])
  {
    if s == [] then 0
    else
      assert IsDigit(s[|s| - 1]);
      DigitsValue(s[..|s| - 1]) * 10 + (s[|s| - 1] as int - 48)
  }

  /** Reading back the padded digits gives the number that was written. */
  lemma {:induction false} DigitsRoundTrip(n: nat, width: nat)
    requires n < Pow10(width)
    ensures DigitsValue(Digits(n, width)) == n
  {
    if width > 0 {
      var s := Digits(n, width);
      assert s[..|s| - 1] == Digits(n / 10, width - 1);
      assert s[|s| - 1] == DigitChar(n % 10);
      DigitsRoundTrip(n / 10, width - 1);
    }
  }

  /** Two numbers with the same padded digits are equal. */
  lemma DigitsInjective(m: nat, n: nat, width: nat)
    requires m < Pow10(width) && n < Pow10(width)
    requires Digits(m, width) == Digits(n, width)
    ensures m == n
  {
    DigitsRoundTrip(m, width);
    DigitsRoundTrip(n, width);
  }

  function Abs(y: int): nat {
    if y < 0 then -y else y
  }

  lemma YearBounds(y: int)
    requires MinYear <= y <= MaxYear
    ensures Abs(y) < Pow10(6)
  {
    assert Pow10(6) == 1000000 by {
      assert Pow10(1) == 10;
      assert Pow10(2) == 100;
      assert Pow10(3) == 1000;
      assert Pow10(4) == 10000;
      assert Pow10(5) == 100000;
    }
  }

  lemma Pow10Small()
    ensures Pow10(2) == 100 && Pow10(3) == 1000 && Pow10(4) == 10000
  {
    assert Pow10(1) == 10;
  }

  /** The year as `toISOString` writes it: four digits, or a sign and six digits. */
  function YearText(y: int): (s: string)
    requires MinYear <= y <= MaxYear
    ensures 0 <= y <= 9999 ==> |s| == 4 && forall i :: 0 <= i < 4 ==> IsDigit(s[i])
    ensures !(0 <= y <= 9999) ==> |s| == 7 && s[0] == (if y < 0 then '-' else '+')
  {
    Pow10Small();
    YearBounds(y);
    if 0 <= y <= 9999 then Digits(y, 4)
    else (if y < 0 then "-" else "+") + Digits(Abs(y), 6)
  }

  /** The calendar date part `YYYY-MM-DD` (or `+YYYYYY-MM-DD`) of the ISO string. */
  function DatePart(t: Instant): string {
    Pow10Small();
    YearText(t.year) + "-" + Digits(t.month, 2) + "-" + Digits(t.day, 2)
  }

  /** The time part `THH:mm:ss.sssZ` of the ISO string. */
  function TimePart(t: Instant): string {
    Pow10Small();
    "T" + Digits(t.hour, 2) + ":" + Digits(t.minute, 2) + ":" + Digits(t.second, 2)
    + "." + Digits(t.millisecond, 3) + "Z"
  }

  /** `Date.prototype.toISOString` of a valid date. */
  function IsoString(t: Instant): (s: string)
    ensures |s| == |YearText(t.year)| + 20
    ensures s[|YearText(t.year)| + 6] == 'T'
    ensures s[|s| - 1] == 'Z'
  {
    DatePart(t) + TimePart(t)
  }
}
