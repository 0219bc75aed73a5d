/** The part of JavaScript's `Date` the admin agenda uses, on abstract calendar days of the
    proleptic Gregorian calendar (no time of day, no time zone). */
module Calendar {
  import opened Api
  import opened JsText

  /** A calendar day. Months are numbered 1..12; JavaScript's `getMonth()` is `month - 1`. */
  datatype Date = Date(year: int, month: int, day: int)

  predicate IsLeapYear(y: int) {
    y % 4 == 0 && (y % 100 != 0 || y % 400 == 0)
  }

  function YearLength(y: int): int {
    if IsLeapYear(y) then 366 else 365
  }

  function DaysInMonth(y: int, m: int): (n: int)
    requires 1 <= m <= 12
    ensures 28 <= n <= 31
  {
    if m == 2 then (if IsLeapYear(y) then 29 else 28)
    else if m == 4 || m == 6 || m == 9 || m == 11 then 30
    else 31
  }

  predicate ValidDate(d: Date) {
    1 <= d.month <= 12 && 1 <= d.day <= DaysInMonth(d.year, d.month)
  }

  /** The following calendar day. */
  function NextDay(d: Date): (r: Date)
    requires ValidDate(d)
    ensures ValidDate(r)
  {
    if d.day < DaysInMonth(d.year, d.month) then d.(day := d.day + 1)
    else if d.month < 12 then Date(d.year, d.month + 1, 1)
    else Date(d.year + 1, 1, 1)
  }

  /** The preceding calendar day. */
  function PrevDay(d: Date): (r: Date)
    requires ValidDate(d)
    ensures ValidDate(r)
    ensures NextDay(r) == d
  {
    if d.day > 1 then d.(day := d.day - 1)
    else if d.month > 1 then Date(d.year, d.month - 1, DaysInMonth(d.year, d.month - 1))
    else Date(d.year - 1, 12, 31)
  }

  lemma PrevOfNext(d: Date)
    requires ValidDate(d)
    ensures PrevDay(NextDay(d)) == d
  {
  }

  /** `k` days after `d` (before it when `k` is negative). */
  function AddDays(d: Date, k: int): (r: Date)
    requires ValidDate(d)
    ensures ValidDate(r)
    decreases if k < 0 then -k else k
  {
    if k == 0 then d
    else if k > 0 then AddDays(NextDay(d), k - 1)
    else AddDays(PrevDay(d), k + 1)
  }

  /** One more day of offset is one more step of NextDay, for offsets of either sign. */
  lemma {:induction false} AddDaysSucc(d: Date, k: int)
    requires ValidDate(d)
    ensures AddDays(d, k + 1) == NextDay(AddDays(d, k))
    decreases if k < 0 then -k else k
  {
    if k > 0 {
      AddDaysSucc(NextDay(d), k - 1);
    } else if k < -1 {
      AddDaysSucc(PrevDay(d), k + 1);
    }
  }

  /** Offsets add up. */
  lemma {:induction false} AddDaysAdd(d: Date, a: int, b: nat)
    requires ValidDate(d)
    ensures AddDays(AddDays(d, a), b) == AddDays(d, a + b)
  {
    if b > 0 {
      AddDaysAdd(d, a, b - 1);
      AddDaysSucc(AddDays(d, a), b - 1);
      AddDaysSucc(d, a + b - 1);
    }
  }

  /** Within a month, adding days only moves the day of the month. */
  lemma {:induction false} AddDaysWithinMonth(y: int, m: int, n: nat)
    requires 1 <= m <= 12 && n < DaysInMonth(y, m)
    ensures AddDays(Date(y, m, 1), n) == Date(y, m, 1 + n)
  {
    if n > 0 {
      AddDaysWithinMonth(y, m, n - 1);
      AddDaysSucc(Date(y, m, 1), n - 1);
    }
  }

  /** `d.setDate(n)`: day `n` of the month of `d`, rolling over into the neighbouring months
      when `n` lies outside 1..DaysInMonth (`setDate(0)` is the last day of the month before). */
  function SetDate(d: Date, n: int): (r: Date)
    requires ValidDate(d)
    ensures ValidDate(r)
    ensures 1 <= n <= DaysInMonth(d.year, d.month) ==> r == d.(day := n)
  {
    if 1 <= n <= DaysInMonth(d.year, d.month) then AddDaysWithinMonth(d.year, d.month, n - 1); AddDays(Date(d.year, d.month, 1), n - 1)
    else AddDays(Date(d.year, d.month, 1), n - 1)
  }

  /** `new Date(y, m - 1, 1)`, with JavaScript's month roll-over for m = 0 and m = 13. */
  function FirstOfMonth(y: int, m: int): (r: Date)
    requires 0 <= m <= 13
    ensures ValidDate(r) && r.day == 1
  {
    if m == 0 then Date(y - 1, 12, 1)
    else if m == 13 then Date(y + 1, 1, 1)
    else Date(y, m, 1)
  }

  /** `new Date(y, m, 0)` with a 0-based `m`: day 0 of the next month, which rolls back onto
      the last day of month `m` (1-based). */
  function LastOfMonth(y: int, m: int): (r: Date)
    requires 1 <= m <= 12
    ensures r == Date(y, m, DaysInMonth(y, m))
  {
    PrevDay(FirstOfMonth(y, m + 1))
  }

  // ---- Day numbers and weekdays ----

  /** Days from 1 January of year 1 to 1 January of year `y`. Division is floor division
      here, so the formula also holds for years before 1. */
  function DaysBeforeYear(y: int): int {
    365 * (y - 1) + (y - 1) / 4 - (y - 1) / 100 + (y - 1) / 400
  }

  function DaysBeforeMonth(y: int, m: int): int
    requires 1 <= m <= 13
  {
    if m == 1 then 0 else DaysBeforeMonth(y, m - 1) + DaysInMonth(y, m - 1)
  }

  /** The number of days from 1 January of year 1 to `d`: a Date's time value, counted in days. */
  function DayNumber(d: Date): int
    requires 1 <= d.month <= 12
  {
    DaysBeforeYear(d.year) + DaysBeforeMonth(d.year, d.month) + d.day - 1
  }

  lemma YearStep(y: int)
    ensures DaysBeforeYear(y + 1) == DaysBeforeYear(y) + YearLength(y)
  {
    assert y / 4 - (y - 1) / 4 == if y % 4 == 0 then 1 else 0;
    assert y / 100 - (y - 1) / 100 == if y % 100 == 0 then 1 else 0;
    assert y / 400 - (y - 1) / 400 == if y % 400 == 0 then 1 else 0;
  }

  lemma MonthsFillYear(y: int)
    ensures DaysBeforeMonth(y, 13) == YearLength(y)
  {
    var feb := DaysInMonth(y, 2);
    assert DaysBeforeMonth(y, 2) == 31;
    assert DaysBeforeMonth(y, 3) == 31 + feb;
    assert DaysBeforeMonth(y, 4) == 62 + feb;
    assert DaysBeforeMonth(y, 5) == 92 + feb;
    assert DaysBeforeMonth(y, 6) == 123 + feb;
    assert DaysBeforeMonth(y, 7) == 153 + feb;
    assert DaysBeforeMonth(y, 8) == 184 + feb;
    assert DaysBeforeMonth(y, 9) == 215 + feb;
    assert DaysBeforeMonth(y, 10) == 245 + feb;
    assert DaysBeforeMonth(y, 11) == 276 + feb;
    assert DaysBeforeMonth(y, 12) == 306 + feb;
    assert DaysBeforeMonth(y, 13) == 337 + feb;
  }

  /** The day after has the next day number. */
  lemma DayNumberNext(d: Date)
    requires ValidDate(d)
    ensures DayNumber(NextDay(d)) == DayNumber(d) + 1
  {
    if d.day == DaysInMonth(d.year, d.month) && d.month == 12 {
      YearStep(d.year);
      MonthsFillYear(d.year);
    }
  }

  /** Adding `k` days adds `k` to the day number. */
  lemma {:induction false} DayNumberAddDays(d: Date, k: int)
    requires ValidDate(d)
    ensures DayNumber(AddDays(d, k)) == DayNumber(d) + k
    decreases if k < 0 then -k else k
  {
    if k > 0 {
      DayNumberNext(d);
      DayNumberAddDays(NextDay(d), k - 1);
    } else if k < 0 {
      DayNumberNext(PrevDay(d));
      DayNumberAddDays(PrevDay(d), k + 1);
    }
  }

  /** `getDay()`: 0 for Sunday through 6 for Saturday (1 January of year 1 was a Monday). */
  function Weekday(d: Date): (w: int)
    requires 1 <= d.month <= 12
    ensures 0 <= w < 7
  {
    (DayNumber(d) + 1) % 7
  }

  /** Weekdays advance by one, modulo seven, from each day to the next. */
  lemma WeekdayNext(d: Date)
    requires ValidDate(d)
    ensures Weekday(NextDay(d)) == (Weekday(d) + 1) % 7
  {
    DayNumberNext(d);
    ModSevenSucc(DayNumber(d) + 1);
  }

  lemma ModSevenSucc(n: int)
    ensures (n + 1) % 7 == (n % 7 + 1) % 7
  {
  }

  /** Moving back to the previous multiple of seven and then forward `i` lands on `i` modulo 7. */
  lemma WeekAligned(n: int, i: int)
    ensures (n - n % 7 + i) % 7 == i % 7
  {
    var q := n / 7;
    assert n - n % 7 == 7 * q;
    assert (7 * q + i) % 7 == i % 7;
  }

  lemma {:induction false} DaysBeforeMonthMonotone(y: int, m1: int, m2: int)
    requires 1 <= m1 <= m2 <= 13
    ensures DaysBeforeMonth(y, m1) <= DaysBeforeMonth(y, m2)
    decreases m2
  {
    if m1 < m2 {
      DaysBeforeMonthMonotone(y, m1, m2 - 1);
    }
  }

  lemma {:induction false} DaysBeforeYearMonotone(a: int, b: int)
    requires a <= b
    ensures DaysBeforeYear(a) <= DaysBeforeYear(b)
    decreases b - a
  {
    if a < b {
      DaysBeforeYearMonotone(a, b - 1);
      YearStep(b - 1);
    }
  }

  /** A valid day's number lies within its own year. */
  lemma DayNumberInYear(d: Date)
    requires ValidDate(d)
    ensures DaysBeforeYear(d.year) <= DayNumber(d) < DaysBeforeYear(d.year + 1)
  {
    var y := d.year;
    assert DaysBeforeMonth(y, d.month + 1) == DaysBeforeMonth(y, d.month) + DaysInMonth(y, d.month);
    DaysBeforeMonthMonotone(y, d.month + 1, 13);
    MonthsFillYear(y);
    YearStep(y);
    assert 0 <= DaysBeforeMonth(y, d.month) by { DaysBeforeMonthMonotone(y, 1, d.month); }
  }

  /** Comparing time values between the first and the last day of a month picks out exactly
      the days of that month: the range test of a month filter. */
  lemma InMonthIffBetween(x: Date, y: int, m: int)
    requires ValidDate(x) && 1 <= m <= 12
    ensures DayNumber(FirstOfMonth(y, m)) <= DayNumber(x) <= DayNumber(LastOfMonth(y, m))
            <==> x.year == y && x.month == m
  {
    var first, last := FirstOfMonth(y, m), LastOfMonth(y, m);
    DayNumberInYear(x);
    DayNumberInYear(first);
    DayNumberInYear(last);
    if x.year < y {
      DaysBeforeYearMonotone(x.year + 1, y);
    } else if x.year > y {
      DaysBeforeYearMonotone(y + 1, x.year);
    } else if x.month < m {
      DaysBeforeMonthMonotone(y, x.month + 1, m);
    } else if x.month > m {
      DaysBeforeMonthMonotone(y, m + 1, x.month);
    }
  }

  // ---- ISO dates ----

  function DigitChar(v: int): (c: char)
    requires 0 <= v < 10
    ensures IsDigit(c)
  {
    ('0' as int + v) as char
  }

  function DigitValue(c: char): (v: int)
    requires IsDigit(c)
    ensures 0 <= v < 10 && DigitChar(v) == c
  {
    c as int - '0' as int
  }

  predicate AllDigits(s: string) {
    forall i :: 0 <= i < |s| ==> IsDigit(s[i])
  }

  function Pow10(w: nat): (p: nat)
    ensures p >= 1
  {
    if w == 0 then 1 else 10 * Pow10(w - 1)
  }

  /** The last `w` decimal digits of `n`, zero-padded on the left: `String(n).padStart(w, "0")`
      for every `n` below 10^w. */
  function PadDigits(n: nat, w: nat): (r: string)
    ensures |r| == w && AllDigits(r)
  {
    if w == 0 then [] else PadDigits(n / 10, w - 1) + [DigitChar(n % 10)]
  }

  /** The value of a string of decimal digits (`parseInt` on digits only). */
  function ParseDigits(s: string): nat
    requires AllDigits(s)
  {
    if s == [] then 0 else ParseDigits(s[..|s| - 1]) * 10 + DigitValue(s[|s| - 1])
  }

  /** Padding then parsing gives the number back whenever it fits in the width. */
  lemma {:induction false} ParsePadDigits(n: nat, w: nat)
    requires n < Pow10(w)
    ensures ParseDigits(PadDigits(n, w)) == n
  {
    if w > 0 {
      var s := PadDigits(n, w);
      assert n / 10 < Pow10(w - 1);
      ParsePadDigits(n / 10, w - 1);
      assert s[..|s| - 1] == PadDigits(n / 10, w - 1);
    }
  }

  /** The year as `toISOString` writes it: four digits for years 0..9999, otherwise a sign and
      six digits. */
  function YearText(y: int): (s: string)
    ensures 0 <= y <= 9999 ==> s == PadDigits(y, 4)
  {
    if 0 <= y <= 9999 then PadDigits(y, 4)
    else (if y < 0 then "-" else "+") + PadDigits(if y < 0 then -y else y, 6)
  }

  /** `d.toISOString().split("T")[0]`: "YYYY-MM-DD". */
  function IsoDate(d: Date): (s: string)
    requires ValidDate(d)
    ensures |s| >= 10 && 'T' !in s
  {
    YearText(d.year) + "-" + PadDigits(d.month, 2) + "-" + PadDigits(d.day, 2)
  }

  /** `new Date(s)` for a date-only ISO string "YYYY-MM-DD", as a calendar day; None stands for
      the Invalid Date a malformed or impossible date gives. */
  function ParseIsoDay(s: string): (r: Option<Date>)
    ensures r.Some? ==> ValidDate(r.value) && 0 <= r.value.year <= 9999
  {
    if |s| == 10 && s[4] == '-' && s[7] == '-'
       && AllDigits(s[..4]) && AllDigits(s[5..7]) && AllDigits(s[8..]) then
      var d := Date(ParseDigits(s[..4]), ParseDigits(s[5..7]), ParseDigits(s[8..]));
      assert d.year < 10000 by { ParseBound(s[..4]); }
      if ValidDate(d) then Some(d) else None
    else None
  }

  lemma {:induction false} ParseBound(s: string)
    requires AllDigits(s)
    ensures ParseDigits(s) < Pow10(|s|)
  {
    if s != [] {
      ParseBound(s[..|s| - 1]);
    }
  }

  /** Writing a day in ISO form and reading it back gives the same day, for four-digit years. */
  lemma IsoRoundTrip(d: Date)
    requires ValidDate(d) && 0 <= d.year <= 9999
    ensures ParseIsoDay(IsoDate(d)) == Some(d)
  {
    var y, m, dd := PadDigits(d.year, 4), PadDigits(d.month, 2), PadDigits(d.day, 2);
    var s := IsoDate(d);
    assert s == y + "-" + m + "-" + dd;
    assert s[..4] == y && s[5..7] == m && s[8..] == dd;
    ParsePadDigits(d.year, 4);
    ParsePadDigits(d.month, 2);
    ParsePadDigits(d.day, 2);
  }
}
