// The calendar on the wall: how long the months are, which day follows which, and which texts are dates. Together with
// one known day these fix every day number.
module CalendarLaws {
  import opened Finite
  import opened Text
  import opened Calendar
  import opened Recurrence

  // January to December of a year.
  function Lengths(y: int): seq<int> {
    [31, if y % 4 == 0 && (y % 100 != 0 || y % 400 == 0) then 29 else 28, 31, 30, 31, 30, 31, 31, 30, 31, 30, 31]
  }

  predicate OnCalendar(t: Date) {
    1 <= t.m <= 12 && 1 <= t.d <= Lengths(t.y)[t.m - 1]
  }

  function Tomorrow(t: Date): Date
    requires OnCalendar(t)
  {
    if t.d < Lengths(t.y)[t.m - 1] then Date(t.y, t.m, t.d + 1)
    else if t.m < 12 then Date(t.y, t.m + 1, 1)
    else Date(t.y + 1, 1, 1)
  }

  lemma ValidMeans(t: Date)
    ensures ValidDate(t) <==> OnCalendar(t)
    ensures 1 <= t.m <= 12 ==> DaysInMonth(t.y, t.m) == Lengths(t.y)[t.m - 1]
  { }

  // The first of a month is as many days after the first of the month before as that month is long.
  lemma MonthsAreLong(y: int, m: int)
    requires 1 <= m <= 12
    ensures var next := if m < 12 then Date(y, m + 1, 1) else Date(y + 1, 1, 1);
      DayNumber(next) - DayNumber(Date(y, m, 1)) == Lengths(y)[m - 1]
  {
    hide DaysBeforeYear, Lengths;
    ValidMeans(Date(y, m, 1));
    if m == 12 {
      WholeYear(y);
      NextYear(y);
      assert DaysBeforeMonth(y + 1, 1) == 0;
    }
  }

  // Day numbers count days: the zero date has number 0, and tomorrow's is today's plus one.
  lemma DayNumbersCount(t: Date)
    requires OnCalendar(t)
    ensures DayNumber(Date(1, 1, 1)) == 0
    ensures OnCalendar(Tomorrow(t)) && DayNumber(Tomorrow(t)) == DayNumber(t) + 1
  {
    hide DaysBeforeYear, DaysBeforeMonth;
    MonthsAreLong(t.y, t.m);
    ZeroDay();
  }

  lemma ZeroDay()
    ensures DayNumber(Date(1, 1, 1)) == 0
  { }

  // Going back from day numbers, the same: day 0 is the zero date and each day's date is followed by tomorrow's.
  lemma CivilCounts(n: int)
    ensures Civil(0) == Date(1, 1, 1)
    ensures OnCalendar(Civil(n)) && Civil(n + 1) == Tomorrow(Civil(n))
  {
    hide Civil, DayNumber, Lengths, Tomorrow;
    ValidMeans(Civil(n));
    CivilRoundTrip(n);
    DayNumbersCount(Civil(n));
    ValidMeans(Tomorrow(Civil(n)));
    DayNumberRoundTrip(Tomorrow(Civil(n)));
    ValidMeans(Date(1, 1, 1));
    ZeroIsOnCalendar();
    DayNumberRoundTrip(Date(1, 1, 1));
  }

  lemma ZeroIsOnCalendar()
    ensures OnCalendar(Date(1, 1, 1))
  { }

  // Known days: the Unix epoch, a leap day and a Saturday (day 0 was a Monday).
  lemma KnownDays()
    ensures DayNumber(Date(1970, 1, 1)) == 719162
    ensures DayNumber(Date(2000, 3, 1)) - DayNumber(Date(2000, 2, 28)) == 2
    ensures DayNumber(Date(1900, 3, 1)) - DayNumber(Date(1900, 2, 28)) == 1
    ensures DayNumber(Date(2026, 10, 3)) % 7 == 5
  {
    assert DaysBeforeMonth(2026, 4) == 90;
    assert DaysBeforeMonth(2026, 7) == 181;
    assert DaysBeforeMonth(2026, 10) == 273;
  }

  // ---- eight digits ----

  function DigitAt(s: string, i: nat): int
    requires i < |s|
  {
    s[i] as int - '0' as int
  }

  // YYYYMMDD, every character a digit, naming a day on the calendar.
  predicate DateText(s: string, t: Date) {
    && |s| == 8 && (forall c :: c in s ==> c in "0123456789")
    && t.y == 1000 * DigitAt(s, 0) + 100 * DigitAt(s, 1) + 10 * DigitAt(s, 2) + DigitAt(s, 3)
    && t.m == 10 * DigitAt(s, 4) + DigitAt(s, 5)
    && t.d == 10 * DigitAt(s, 6) + DigitAt(s, 7)
    && OnCalendar(t)
  }

  // Exactly those texts are read as dates.
  lemma DatesAreRead(s: string, t: Date)
    ensures ParseDate(s) == Some(t) <==> DateText(s, t)
  {
    hide ValidDate, OnCalendar;
    DigitsAre(s);
    if |s| == 8 && AllDigits(s) {
      TwoDigits(s[4..6]);
      TwoDigits(s[6..]);
      FourDigits(s[..4]);
      ValidMeans(t);
    }
  }

  lemma DigitsAre(s: string)
    ensures AllDigits(s) <==> forall c :: c in s ==> c in "0123456789"
  {
    forall c: char ensures IsDigit(c) <==> c in "0123456789" {
      DigitIs(c);
    }
  }

  lemma DigitIs(c: char)
    ensures IsDigit(c) <==> c in "0123456789"
  {
    if IsDigit(c) {
      assert c == "0123456789"[c as int - '0' as int];
    }
  }

  lemma TwoDigits(s: string)
    requires |s| == 2 && AllDigits(s)
    ensures Value(s) == 10 * DigitAt(s, 0) + DigitAt(s, 1)
  {
    assert Value(s[..1]) == DigitAt(s, 0) by {
      assert s[..1][..0] == "";
    }
  }

  lemma FourDigits(s: string)
    requires |s| == 4 && AllDigits(s)
    ensures Value(s) == 1000 * DigitAt(s, 0) + 100 * DigitAt(s, 1) + 10 * DigitAt(s, 2) + DigitAt(s, 3)
  {
    TwoDigits(s[..2]);
    assert s[..3][..2] == s[..2];
    assert Value(s[..3]) == 10 * Value(s[..2]) + DigitAt(s, 2);
  }
}
