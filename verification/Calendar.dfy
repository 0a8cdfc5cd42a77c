// The proleptic Gregorian calendar as package time computes it: civil dates to and from day numbers, for every
// integer year. Day 0 is 0001-01-01, the zero time.
module Calendar {
  datatype Date = Date(y: int, m: int, d: int)

  const ZERO: Date := Date(1, 1, 1)

  predicate IsLeap(y: int) {
    IsMultiple(y, 4) && (!IsMultiple(y, 100) || IsMultiple(y, 400))
  }

  predicate IsMultiple(y: int, n: int)
    requires n > 0
  {
    y % n == 0
  }

  // How many multiples of n lie in 1..k (and, for negative k, minus those passed on the way down).
  function Passed(k: int, n: int): int
    requires n > 0
  {
    k / n
  }

  function DaysInMonth(y: int, m: int): (n: int)
    requires 1 <= m <= 12
    ensures 28 <= n <= 31
  {
    if m == 2 then (if IsLeap(y) then 29 else 28)
    else if m == 4 || m == 6 || m == 9 || m == 11 then 30
    else 31
  }

  predicate ValidDate(t: Date) {
    1 <= t.m <= 12 && 1 <= t.d <= DaysInMonth(t.y, t.m)
  }

  // Days from 0001-01-01 to the first of January.
  function DaysBeforeYear(y: int): int {
    365 * (y - 1) + Passed(y - 1, 4) - Passed(y - 1, 100) + Passed(y - 1, 400)
  }

  function DaysBeforeMonth(y: int, m: int): int
    requires 1 <= m <= 13
  {
    if m == 1 then 0 else DaysBeforeMonth(y, m - 1) + DaysInMonth(y, m - 1)
  }

  function DayNumber(t: Date): int
    requires 1 <= t.m <= 12
  {
    DaysBeforeYear(t.y) + DaysBeforeMonth(t.y, t.m) + t.d - 1
  }

  function YearLength(y: int): int {
    if IsLeap(y) then 366 else 365
  }

  // ---- from a day number: 400-, 100-, 4- and 1-year cycles ----

  function YearOf(n: int): int {
    var n400, r400 := n / 146097, n % 146097;
    var c := r400 / 36524;
    var n100 := if c == 4 then 3 else c;
    var r100 := r400 - 36524 * n100;
    var n4, r4 := r100 / 1461, r100 % 1461;
    var a := r4 / 365;
    var n1 := if a == 4 then 3 else a;
    400 * n400 + 100 * n100 + 4 * n4 + n1 + 1
  }

  // The month whose days include day `yday` of the year, looking from `m` on.
  function MonthFrom(y: int, yday: int, m: int): int
    requires 1 <= m <= 12
    decreases 12 - m
  {
    if m == 12 || yday < DaysBeforeMonth(y, m + 1) then m else MonthFrom(y, yday, m + 1)
  }

  function Civil(n: int): Date {
    var y := YearOf(n);
    var yday := n - DaysBeforeYear(y);
    var m := MonthFrom(y, yday, 1);
    if 1 <= m <= 12 then Date(y, m, yday - DaysBeforeMonth(y, m) + 1) else ZERO
  }

  // ---- laws ----

  lemma NextYear(y: int)
    ensures DaysBeforeYear(y + 1) == DaysBeforeYear(y) + YearLength(y)
  {
    NextMultiple(y - 1, 4);
    NextMultiple(y - 1, 100);
    NextMultiple(y - 1, 400);
    MultiplesNest(y);
    hide Passed, IsMultiple;
  }

  // Division moves on exactly at the multiples.
  lemma NextMultiple(k: int, n: int)
    requires n == 4 || n == 100 || n == 400
    ensures Passed(k + 1, n) == Passed(k, n) + if IsMultiple(k + 1, n) then 1 else 0
  {
    if n == 4 {
      assert (k + 1) / 4 == k / 4 + if (k + 1) % 4 == 0 then 1 else 0;
    } else if n == 100 {
      assert (k + 1) / 100 == k / 100 + if (k + 1) % 100 == 0 then 1 else 0;
    } else {
      assert (k + 1) / 400 == k / 400 + if (k + 1) % 400 == 0 then 1 else 0;
    }
  }

  lemma MultiplesNest(y: int)
    ensures (IsMultiple(y, 400) ==> IsMultiple(y, 100)) && (IsMultiple(y, 100) ==> IsMultiple(y, 4))
  {
    if IsMultiple(y, 400) {
      TimesHundred(4 * (y / 400));
    }
    if IsMultiple(y, 100) {
      TimesFour(25 * (y / 100));
    }
  }

  lemma TimesHundred(q: int)
    ensures IsMultiple(100 * q, 100)
  { }

  lemma TimesFour(q: int)
    ensures IsMultiple(4 * q, 4)
  { }

  lemma {:induction false} YearsIncrease(y: int, z: int)
    requires y <= z
    ensures DaysBeforeYear(y) + 365 * (z - y) <= DaysBeforeYear(z)
    decreases z - y
  {
    if y < z {
      NextYear(z - 1);
      YearsIncrease(y, z - 1);
    }
  }

  // The cycle arithmetic finds the year the day lies in.
  lemma YearOfIsRight(n: int)
    ensures DaysBeforeYear(YearOf(n)) <= n < DaysBeforeYear(YearOf(n) + 1)
  {
    var n400, r400 := n / 146097, n % 146097;
    var c := r400 / 36524;
    var n100 := if c == 4 then 3 else c;
    var r100 := r400 - 36524 * n100;
    var n4, r4 := r100 / 1461, r100 % 1461;
    var a := r4 / 365;
    var n1 := if a == 4 then 3 else a;
    assert 0 <= c <= 4 && 0 <= n4 <= 24 && 0 <= a <= 4;
    Cycles(n400, n100, n4, n1);
    assert n == 146097 * n400 + 36524 * n100 + 1461 * n4 + r4;
    NextYear(YearOf(n));
  }

  // Where a year begins, by its place in the cycles; and how long it is.
  lemma Cycles(n400: int, n100: int, n4: int, n1: int)
    requires 0 <= n100 <= 3 && 0 <= n4 <= 24 && 0 <= n1 <= 3
    ensures var y := 400 * n400 + 100 * n100 + 4 * n4 + n1 + 1;
      && DaysBeforeYear(y) == 146097 * n400 + 36524 * n100 + 1461 * n4 + 365 * n1
      && (IsLeap(y) <==> n1 == 3 && (n4 < 24 || n100 == 3))
  {
    var y := 400 * n400 + 100 * n100 + 4 * n4 + n1 + 1;
    By4(100 * n400 + 25 * n100 + n4, n1);
    By100(4 * n400 + n100, 4 * n4 + n1);
    By400(n400, 100 * n100 + 4 * n4 + n1);
    assert y - 1 == 4 * (100 * n400 + 25 * n100 + n4) + n1;
    assert y - 1 == 100 * (4 * n400 + n100) + (4 * n4 + n1);
  }

  // What division makes of a year before the one asked about, and whether the next one is a multiple.
  lemma By4(q: int, r: int)
    requires 0 <= r < 4
    ensures (4 * q + r) / 4 == q && ((4 * q + r + 1) % 4 == 0 <==> r == 3)
  { }

  lemma By100(q: int, r: int)
    requires 0 <= r < 100
    ensures (100 * q + r) / 100 == q && ((100 * q + r + 1) % 100 == 0 <==> r == 99)
  { }

  lemma By400(q: int, r: int)
    requires 0 <= r < 400
    ensures (400 * q + r) / 400 == q && ((400 * q + r + 1) % 400 == 0 <==> r == 399)
  { }

  lemma {:induction false} MonthsIncrease(y: int, a: int, b: int)
    requires 1 <= a < b <= 13
    ensures DaysBeforeMonth(y, a) + DaysInMonth(y, a) <= DaysBeforeMonth(y, b)
    decreases b
  {
    if a < b - 1 {
      MonthsIncrease(y, a, b - 1);
    }
  }

  lemma WholeYear(y: int)
    ensures DaysBeforeMonth(y, 13) == YearLength(y)
  {
    var feb := DaysInMonth(y, 2);
    assert DaysBeforeMonth(y, 1) == 0 && DaysBeforeMonth(y, 2) == 31;
    assert DaysBeforeMonth(y, 3) == 31 + feb;
    assert DaysBeforeMonth(y, 5) == 92 + feb by {
      assert DaysBeforeMonth(y, 4) == 62 + feb;
    }
    assert DaysBeforeMonth(y, 7) == 153 + feb by {
      assert DaysBeforeMonth(y, 6) == 123 + feb;
    }
    assert DaysBeforeMonth(y, 9) == 215 + feb by {
      assert DaysBeforeMonth(y, 8) == 184 + feb;
    }
    assert DaysBeforeMonth(y, 11) == 276 + feb by {
      assert DaysBeforeMonth(y, 10) == 245 + feb;
    }
    assert DaysBeforeMonth(y, 12) == 306 + feb;
  }

  lemma {:induction false} MonthFromIsRight(y: int, yday: int, m: int)
    requires 1 <= m <= 12 && DaysBeforeMonth(y, m) <= yday < YearLength(y)
    ensures var r := MonthFrom(y, yday, m);
      m <= r <= 12 && DaysBeforeMonth(y, r) <= yday < DaysBeforeMonth(y, r + 1)
    decreases 12 - m
  {
    if m == 12 {
      WholeYear(y);
    } else if yday >= DaysBeforeMonth(y, m + 1) {
      MonthFromIsRight(y, yday, m + 1);
    }
  }

  // Every day number has a date that has that day number.
  lemma CivilRoundTrip(n: int)
    ensures ValidDate(Civil(n)) && DayNumber(Civil(n)) == n
  {
    var y := YearOf(n);
    YearOfIsRight(n);
    NextYear(y);
    assert DaysBeforeMonth(y, 1) == 0;
    MonthFromIsRight(y, n - DaysBeforeYear(y), 1);
  }

  // Dates are ordered as their day numbers are.
  predicate Before(s: Date, t: Date) {
    s.y < t.y || (s.y == t.y && (s.m < t.m || (s.m == t.m && s.d < t.d)))
  }

  lemma EarlierDay(s: Date, t: Date)
    requires ValidDate(s) && ValidDate(t) && Before(s, t)
    ensures DayNumber(s) < DayNumber(t)
  {
    if s.y < t.y {
      DayWithinYear(s);
      DayWithinYear(t);
      YearsIncrease(s.y + 1, t.y);
    } else if s.m < t.m {
      MonthsIncrease(s.y, s.m, t.m);
    }
  }

  lemma DayWithinYear(t: Date)
    requires ValidDate(t)
    ensures DaysBeforeYear(t.y) <= DayNumber(t) < DaysBeforeYear(t.y + 1)
  {
    if t.m > 1 {
      MonthsIncrease(t.y, 1, t.m);
    }
    MonthsIncrease(t.y, t.m, 13);
    WholeYear(t.y);
    NextYear(t.y);
  }

  lemma OrderMatches(s: Date, t: Date)
    requires ValidDate(s) && ValidDate(t)
    ensures Before(s, t) <==> DayNumber(s) < DayNumber(t)
    ensures DayNumber(s) == DayNumber(t) ==> s == t
  {
    if Before(s, t) {
      EarlierDay(s, t);
    } else if s != t {
      EarlierDay(t, s);
    }
  }

  // Every date is the date of its day number.
  lemma DayNumberRoundTrip(t: Date)
    requires ValidDate(t)
    ensures Civil(DayNumber(t)) == t
  {
    CivilRoundTrip(DayNumber(t));
    OrderMatches(Civil(DayNumber(t)), t);
  }
}
