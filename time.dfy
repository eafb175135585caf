/**
 * Calendar dates and date-times as `java.time.LocalDate` and `LocalDateTime` use them:
 * a date-time is a date plus a time of day counted in nanoseconds, so that
 * `atStartOfDay()` and `atTime(LocalTime.MAX)` are exact instants.
 */
module Time {

  const NANOS_PER_DAY: int := 86_400_000_000_000

  type NanoOfDay = n: int | 0 <= n < NANOS_PER_DAY

  datatype Date = Date(year: int, month: int, day: int)

  datatype DateTime = DateTime(date: Date, nanoOfDay: NanoOfDay)

  /** Chronological order on dates: lexicographic on (year, month, day). */
  predicate DateBefore(a: Date, b: Date) {
    a.year < b.year
    || (a.year == b.year && a.month < b.month)
    || (a.year == b.year && a.month == b.month && a.day < b.day)
  }

  /** `a.isBefore(b)` on date-times. */
  predicate Before(a: DateTime, b: DateTime) {
    DateBefore(a.date, b.date) || (a.date == b.date && a.nanoOfDay < b.nanoOfDay)
  }

  /** `a <= b`, i.e. `!b.isBefore(a)`. */
  predicate NotAfter(a: DateTime, b: DateTime) {
    !Before(b, a)
  }

  /** SQL `t BETWEEN start AND end`: inclusive at both ends. */
  predicate Between(t: DateTime, start: DateTime, end: DateTime) {
    NotAfter(start, t) && NotAfter(t, end)
  }

  /** `date.atStartOfDay()`: midnight, 00:00. */
  function AtStartOfDay(d: Date): DateTime {
    DateTime(d, 0)
  }

  /** `date.atTime(LocalTime.MAX)`: 23:59:59.999999999, the last instant of the day. */
  function AtEndOfDay(d: Date): DateTime {
    DateTime(d, NANOS_PER_DAY - 1)
  }

  /** The whole-day window used by the trip queries selects exactly the date-times on that date. */
  lemma DayWindowIsDate(t: DateTime, d: Date)
    ensures Between(t, AtStartOfDay(d), AtEndOfDay(d)) <==> t.date == d
  {
  }

  /** Decimal digits of a natural number, without leading zeros (`Integer.toString`). */
  function Digits(n: nat): (s: string)
    ensures |s| >= 1
    ensures forall i :: 0 <= i < |s| ==> '0' <= s[i] <= '9'
    ensures n < 10 ==> |s| == 1
    decreases n
  {
    if n < 10 then [DigitChar(n)] else Digits(n / 10) + [DigitChar(n % 10)]
  }

  function DigitChar(d: nat): (c: char)
    requires d < 10
    ensures IsDigit(c) && DigitValue(c) == d
  {
    ('0' as int + d) as char
  }

  predicate IsDigit(c: char) {
    '0' <= c <= '9'
  }

  function DigitValue(c: char): int {
    c as int - '0' as int
  }

  /** The number a string of decimal digits spells, most significant digit first. */
  function DecimalValue(s: string): (v: int)
    ensures (forall i :: 0 <= i < |s| ==> IsDigit(s[i])) ==> 0 <= v < Pow10(|s|)
  {
    if s == [] then 0
    else
      assert forall i :: 0 <= i < |s| - 1 ==> s[..|s| - 1][i] == s[i];
      10 * DecimalValue(s[..|s| - 1]) + DigitValue(s[|s| - 1])
  }

  /** Reading back the digits of n gives n. */
  lemma {:induction false} DigitsValue(n: nat)
    ensures DecimalValue(Digits(n)) == n
    decreases n
  {
    if n >= 10 {
      DigitsValue(n / 10);
      var s := Digits(n);
      assert s[..|s| - 1] == Digits(n / 10);
    } else {
      assert Digits(n)[..0] == [];
    }
  }

  /** The leading digit of a numeral weighs `10^k`, k being the number of digits after it. */
  lemma {:induction false} DecimalCons(c: char, t: string)
    ensures DecimalValue([c] + t) == DigitValue(c) * Pow10(|t|) + DecimalValue(t)
    decreases |t|
  {
    if t == [] {
      assert ([c] + t)[..0] == [];
    } else {
      var t' := t[..|t| - 1];
      var last := DigitValue(t[|t| - 1]);
      assert ([c] + t)[..|[c] + t| - 1] == [c] + t';
      assert DecimalValue([c] + t) == 10 * DecimalValue([c] + t') + last;
      assert DecimalValue(t) == 10 * DecimalValue(t') + last;
      DecimalCons(c, t');
      var a, p := DigitValue(c), Pow10(|t'|);
      assert Pow10(|t|) == 10 * p;
      MulTen(a, p);
    }
  }

  lemma MulTen(a: int, p: int)
    ensures a * (10 * p) == 10 * (a * p)
  {
  }

  /** Length of the decimal representation of n. */
  lemma {:induction false} DigitsLength(n: nat, k: nat)
    requires Pow10(k) <= n < Pow10(k + 1)
    ensures |Digits(n)| == k + 1
    decreases n
  {
    if k > 0 {
      DigitsLength(n / 10, k - 1);
    }
  }

  function Pow10(k: nat): (p: nat)
    ensures p >= 1
  {
    if k == 0 then 1 else 10 * Pow10(k - 1)
  }

  function IntString(v: int): string {
    if v < 0 then "-" + Digits(-v) else Digits(v)
  }

  predicate AllDigits(s: string) {
    forall i :: 0 <= i < |s| ==> IsDigit(s[i])
  }

  /**
   * `LocalDate.toString()`: ISO-8601 `uuuu-MM-dd`. For years 0..9999 and a month and day
   * in range it is ten characters, dashes at positions 4 and 7 and digits elsewhere, and
   * the three digit groups read back as the year, the month and the day.
   */
  function IsoDate(d: Date): (s: string)
    ensures 0 <= d.year <= 9999 && 1 <= d.month <= 12 && 1 <= d.day <= 31 ==>
              && |s| == 10 && s[4] == '-' && s[7] == '-'
              && AllDigits(s[..4]) && AllDigits(s[5..7]) && AllDigits(s[8..])
              && DecimalValue(s[..4]) == d.year
              && DecimalValue(s[5..7]) == d.month
              && DecimalValue(s[8..]) == d.day
  {
    var year := YearString(d.year);
    var month := TwoDigits(d.month);
    var day := TwoDigits(d.day);
    IsoFields(year, month, day);
    year + "-" + month + "-" + day
  }

  /** Where the three fields sit in `yyyy-MM-dd`. */
  lemma IsoFields(year: string, month: string, day: string)
    ensures |year| == 4 && |month| == 2 && |day| == 2 ==>
      var s := year + "-" + month + "-" + day;
      && |s| == 10 && s[4] == '-' && s[7] == '-'
      && s[..4] == year && s[5..7] == month && s[8..] == day
  {
    var s := year + "-" + month + "-" + day;
    assert s == year + (['-'] + month + ['-'] + day);
  }

  /**
   * The year field: years of fewer than four digits are zero-padded (with a leading '-'
   * when negative, from the digits of `10000 - y`); years above 9999 carry a '+'.
   */
  function YearString(y: int): (s: string)
    ensures 0 <= y <= 9999 ==> |s| == 4 && AllDigits(s) && DecimalValue(s) == y
  {
    YearDigits(y);
    if -1000 < y < 1000 then
      (if y < 0 then "-" + Digits(10000 - y)[1..] else Digits(10000 + y)[1..])
    else
      var sign := if y > 9999 then "+" else "";
      assert y <= 9999 ==> sign + IntString(y) == IntString(y);
      sign + IntString(y)
  }

  lemma YearDigits(y: int)
    ensures 0 <= y < 1000 ==>
              var s := Digits(10000 + y)[1..]; |s| == 4 && AllDigits(s) && DecimalValue(s) == y
    ensures 1000 <= y <= 9999 ==> |Digits(y)| == 4 && DecimalValue(Digits(y)) == y
  {
    if 0 <= y < 1000 {
      var s := Digits(10000 + y);
      DigitsLength(10000 + y, 4);
      DigitsValue(10000 + y);
      assert s == [s[0]] + s[1..];
      assert AllDigits(s[1..]) by {
        forall i | 0 <= i < |s[1..]| ensures IsDigit(s[1..][i]) {
          assert s[1..][i] == s[i + 1];
        }
      }
      DecimalCons(s[0], s[1..]);
    } else if 1000 <= y <= 9999 {
      DigitsLength(y, 3);
      DigitsValue(y);
    }
  }

  /** A month or a day of the month: two digits, zero-padded. */
  function TwoDigits(n: int): (s: string)
    ensures 0 <= n < 100 ==> |s| == 2 && AllDigits(s) && DecimalValue(s) == n
  {
    TwoDigitsValue(n);
    (if n < 10 then "0" else "") + IntString(n)
  }

  lemma TwoDigitsValue(n: int)
    ensures 0 <= n < 10 ==> DecimalValue("0" + Digits(n)) == n && |Digits(n)| == 1
    ensures 10 <= n < 100 ==> DecimalValue(Digits(n)) == n && |Digits(n)| == 2
  {
    if 0 <= n < 10 {
      DigitsValue(n);
      DecimalCons('0', Digits(n));
    } else if 10 <= n < 100 {
      DigitsLength(n, 1);
      DigitsValue(n);
    }
  }
}
