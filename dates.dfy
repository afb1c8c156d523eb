/** Calendar dates as Python's `datetime.date` holds them, and their ISO 8601
    text form `YYYY-MM-DD` as `date.isoformat()` writes it. */
module Dates {
  import opened Payload

  datatype Ymd = Ymd(year: int, month: int, day: int)

  predicate IsLeapYear(y: int)
  {
    y % 4 == 0 && (y % 100 != 0 || y % 400 == 0)
  }

  function DaysInMonth(y: int, m: int): int
    requires 1 <= m <= 12
  {
    if m == 2 then (if IsLeapYear(y) then 29 else 28)
    else if m == 4 || m == 6 || m == 9 || m == 11 then 30
    else 31
  }

  /** The range `datetime.date` accepts: years 1 to 9999, real months and days. */
  predicate ValidYmd(d: Ymd)
  {
    1 <= d.year <= 9999 && 1 <= d.month <= 12 && 1 <= d.day <= DaysInMonth(d.year, d.month)
  }

  type Date = d: Ymd | ValidYmd(d) witness Ymd(1970, 1, 1)

  function Pow10(w: nat): nat
  {
    if w == 0 then 1 else 10 * Pow10(w - 1)
  }

  predicate IsDigit(c: char)
  {
    '0' <= c <= '9'
  }

  /** `n` written in exactly `w` decimal digits, padded with leading zeros (`%0wd`). */
  function Digits(n: nat, w: nat): (s: string)
    requires n < Pow10(w)
    ensures |s| == w
    ensures forall i :: 0 <= i < |s| ==> IsDigit(s[i])
  {
    if w == 0 then []
    else Digits(n / 10, w - 1) + [('0' as int + n % 10) as char]
  }

  /** The value of a string of decimal digits; None if a character is not a digit. */
  function ParseDigits(s: string): Option<nat>
  {
    if s == [] then Some(0)
    else
      match ParseDigits(s[..|s| - 1])
      case None => None
      case Some(v) =>
        var c := s[|s| - 1];
        if IsDigit(c) then Some(10 * v + (c as int - '0' as int)) else None
  }

  /** Reading back the padded digits gives the number that was written. */
  lemma {:induction false} ParseDigitsOfDigits(n: nat, w: nat)
    requires n < Pow10(w)
    ensures ParseDigits(Digits(n, w)) == Some(n)
  {
    if w > 0 {
      var prefix := Digits(n / 10, w - 1);
      var s := Digits(n, w);
      assert s[..|s| - 1] == prefix;
      ParseDigitsOfDigits(n / 10, w - 1);
    }
  }

  /** `date.isoformat()`. */
  function IsoFormat(d: Date): (s: string)
    ensures |s| == 10 && s[4] == '-' && s[7] == '-'
    ensures forall i :: 0 <= i < 10 && i != 4 && i != 7 ==> IsDigit(s[i])
  {
    Digits(d.year, 4) + "-" + Digits(d.month, 2) + "-" + Digits(d.day, 2)
  }

  /** `date.fromisoformat(s)` restricted to the `YYYY-MM-DD` form; None where Python raises. */
  function ParseIso(s: string): Option<Date>
  {
    if |s| == 10 && s[4] == '-' && s[7] == '-' then
      match (ParseDigits(s[..4]), ParseDigits(s[5..7]), ParseDigits(s[8..]))
      case (Some(y), Some(m), Some(dd)) =>
        var d := Ymd(y, m, dd);
        if ValidYmd(d) then Some(d) else None
      case _ => None
    else None
  }

  /** The serialised date reads back as the stored date. */
  lemma IsoRoundTrip(d: Date)
    ensures ParseIso(IsoFormat(d)) == Some(d)
  {
    var s := IsoFormat(d);
    assert s[..4] == Digits(d.year, 4);
    assert s[5..7] == Digits(d.month, 2);
    assert s[8..] == Digits(d.day, 2);
    ParseDigitsOfDigits(d.year, 4);
    ParseDigitsOfDigits(d.month, 2);
    ParseDigitsOfDigits(d.day, 2);
  }

  /** Two different dates never serialise to the same text. */
  lemma IsoFormatInjective(d1: Date, d2: Date)
    ensures IsoFormat(d1) == IsoFormat(d2) ==> d1 == d2
  {
    IsoRoundTrip(d1);
    IsoRoundTrip(d2);
  }
}
