// What recurrence rules say, in terms of the calendar on the wall: which part means what, and on which days and at
// what time a series takes place.
module RecurrenceLaws {
  import opened Finite
  import opened Text
  import opened Calendar
  import opened CalendarLaws
  import opened Recurrence
  import opened Occurrences

  // ---- parts ----

  // What KEY=VALUE does to the rule read so far; nothing else is a part. Case does not matter.
  ghost predicate Says(key: string, val: string, r: Draft, r': Draft) {
    || (key == "FREQ" && val == "DAILY" && r' == r.(freq := Some(Daily)))
    || (key == "FREQ" && val == "WEEKLY" && r' == r.(freq := Some(Weekly)))
    || (key == "FREQ" && val == "MONTHLY" && r' == r.(freq := Some(Monthly)))
    || (key == "INTERVAL" && ParseInt(val) == Some(r'.interval) && 1 <= r'.interval <= 12
        && r' == r.(interval := r'.interval))
    || (key == "COUNT" && ParseInt(val) == Some(r'.count) && 1 <= r'.count <= 104 && r' == r.(count := r'.count))
    || (key == "UNTIL" && DateText(val, r'.until) && r' == r.(until := r'.until))
  }

  lemma PartMeans(r: Draft, part: string, r': Draft)
    ensures '=' !in part ==> Field(r, part).None?
    ensures forall key: string, val: string :: part == key + "=" + val && '=' !in key ==>
        (Field(r, part) == Some(r') <==> Says(Upper(key), Upper(val), r, r'))
  {
    hide Upper, Says, ParseInt, DateText, Cut;
    CutMeans(part, '=');
    forall key: string, val: string | part == key + "=" + val && '=' !in key
      ensures Field(r, part) == Some(r') <==> Says(Upper(key), Upper(val), r, r')
    {
      PartCuts(key, val);
      ValueSays(r, Upper(key), Upper(val), r');
    }
  }

  lemma ValueSays(r: Draft, key: string, val: string, r': Draft)
    ensures Says(key, val, r, r') <==>
      match KeyOf(key)
      case None => false
      case Some(FreqKey) => ParseFreq(val).Some? && r' == r.(freq := ParseFreq(val))
      case Some(IntervalKey) =>
        ParseWithin(val, MAX_INTERVAL).Some? && r' == r.(interval := ParseWithin(val, MAX_INTERVAL).value)
      case Some(CountKey) => ParseWithin(val, MAX_COUNT).Some? && r' == r.(count := ParseWithin(val, MAX_COUNT).value)
      case Some(UntilKey) => ParseDate(val).Some? && r' == r.(until := ParseDate(val).value)
  {
    hide ParseInt, DateText, ParseDate;
    DatesAreRead(val, r'.until);
    if ParseDate(val).Some? {
      DatesAreRead(val, ParseDate(val).value);
    }
  }

  // A draft becomes a rule when it has a frequency and is not bounded both ways.
  lemma FinishMeans(r: Draft)
    ensures Finish(r).Some? <==> r.freq.Some? && (r.count <= 0 || r.until == Date(1, 1, 1))
    ensures Finish(r).Some? ==> Finish(r).value == Rule(r.freq.value, r.interval, r.count, r.until)
    ensures Fields([]) == Some(Draft(None, 1, 0, Date(1, 1, 1)))
  { }

  // ---- days ----

  // The i-th step lies on this day: every so many days, every so many weeks, or on the same day of every so many
  // months.
  ghost predicate StepsTo(r: Rule, first: int, i: int, day: int) {
    match r.freq
    case Daily => day == first + i * r.interval
    case Weekly => day == first + 7 * (i * r.interval)
    case Monthly =>
      var from, to := Civil(first), Civil(day);
      to.d == from.d && 12 * (to.y - from.y) + (to.m - from.m) == i * r.interval
  }

  ghost predicate Exists(r: Rule, first: int, i: int) {
    exists day :: StepsTo(r, first, i, day)
  }

  // There is such a day unless the month is too short for it.
  lemma StepMeans(r: Rule, s: Start, i: int)
    ensures forall day :: DayAt(r, s, i) == Some(day) <==> StepsTo(r, LocalDay(s.instant, s.offset), i, day)
    ensures r.freq != Monthly ==> DayAt(r, s, i).Some?
    ensures r.freq == Monthly ==>
        var from := Civil(LocalDay(s.instant, s.offset));
        var k := 12 * from.y + from.m - 1 + i * r.interval;
        DayAt(r, s, i).Some? <==> from.d <= Lengths(k / 12)[k % 12]
  {
    hide Civil, MonthStart, LocalDay, DayNumber, MonthLength, Lengths;
    var first := LocalDay(s.instant, s.offset);
    if r.freq.Monthly? {
      var k := MonthIndex(Civil(first)) + i * r.interval;
      LengthMeans(k);
      CivilRoundTrip(first);
      forall day ensures DayAt(r, s, i) == Some(day) <==> StepsTo(r, first, i, day) {
        SameDayOfMonth(k, Civil(first).d, day);
      }
    }
  }

  lemma LengthMeans(k: int)
    ensures MonthLength(k) == Lengths(k / 12)[k % 12]
  {
    hide Lengths, DaysInMonth;
    ValidMeans(Date(k / 12, k % 12 + 1, 1));
  }

  // The day of month k with day d, if there is one.
  lemma SameDayOfMonth(k: int, d: int, day: int)
    requires d >= 1
    ensures d <= MonthLength(k) && day == MonthStart(k) + d - 1 <==>
      Civil(day).d == d && MonthIndex(Civil(day)) == k
  {
    hide Civil, DayNumber, DaysInMonth, MonthStart;
    CivilRoundTrip(day);
    MonthHolds(Civil(day));
    if d <= MonthLength(k) && day == MonthStart(k) + d - 1 {
      MonthHolds(Date(k / 12, k % 12 + 1, d));
      DayNumberRoundTrip(Date(k / 12, k % 12 + 1, d));
    }
  }

  // Local time: whole days of 24 hours and what is left of the last.
  lemma LocalMeans(t: int, offset: int)
    ensures t + offset == LocalDay(t, offset) * 86400000000000 + Clock(t, offset)
    ensures 0 <= Clock(t, offset) < 86400000000000
  { }

  lemma AtClockMeans(day: int, s: Start)
    ensures AtClock(day, s) == s.instant + (day - LocalDay(s.instant, s.offset)) * 86400000000000
  {
    LocalMeans(s.instant, s.offset);
  }

  // UNTIL is inclusive; the zero date is no bound.
  lemma UntilMeans(r: Rule, day: int)
    requires ValidDate(r.until)
    ensures UntilAllows(r, day) <==> r.until == Date(1, 1, 1) || day <= DayNumber(r.until)
  {
    hide Civil, DayNumber;
    CivilRoundTrip(day);
    OrderMatches(r.until, Civil(day));
  }

  // ---- the series ----

  // The steps before step i that there are.
  ghost function Earlier(r: Rule, first: int, i: nat): set<nat> {
    set j: nat | j < i && Exists(r, first, j)
  }

  lemma {:induction false} RankMeans(r: Rule, s: Start, i: nat)
    ensures Rank(r, s, i) == |Earlier(r, LocalDay(s.instant, s.offset), i)|
  {
    hide DayAt, StepsTo, LocalDay;
    var first := LocalDay(s.instant, s.offset);
    if i == 0 {
      assert Earlier(r, first, i) == {};
    } else {
      RankMeans(r, s, i - 1);
      StepMeans(r, s, i - 1);
      assert Exists(r, first, i - 1) <==> DayAt(r, s, i - 1).Some? by {
        if DayAt(r, s, i - 1).Some? {
          assert StepsTo(r, first, i - 1, DayAt(r, s, i - 1).value);
        }
      }
      assert Earlier(r, first, i) ==
             Earlier(r, first, i - 1) + if DayAt(r, s, i - 1).Some? then {i - 1 as nat} else {};
    }
  }

  // Step i of the series happens, on this day: the horizon, UNTIL and COUNT all leave room for it.
  ghost predicate Happens(r: Rule, s: Start, horizon: int, i: nat, day: int)
    requires ValidDate(r.until)
  {
    var first := LocalDay(s.instant, s.offset);
    && i < 2000 && StepsTo(r, first, i, day)
    && s.instant + (day - first) * 86400000000000 <= horizon
    && (r.until == Date(1, 1, 1) || day <= DayNumber(r.until))
    && (r.count == 0 || |Earlier(r, first, i)| < r.count)
  }

  // The listed times are those of the steps that happen, each a whole number of days after the template's start.
  lemma ListedMeans(r: Rule, s: Start, horizon: int, t: int)
    requires ValidRule(r)
    ensures t in Expand(r, s, horizon) <==>
      exists i: nat, day :: Happens(r, s, horizon, i, day)
        && t == s.instant + (day - LocalDay(s.instant, s.offset)) * 86400000000000
  {
    hide Expand, Happens, StepsTo, DayAt;
    ExpandIsExact(r, s, horizon);
    if t in Expand(r, s, horizon) {
      var i: nat :| i < MAX_STEPS && IsStep(r, s, horizon, i, t);
      var day := DayAt(r, s, i).value;
      HappensMeans(r, s, horizon, i, day);
      AtClockMeans(day, s);
    }
    forall i: nat, day | Happens(r, s, horizon, i, day)
        && t == s.instant + (day - LocalDay(s.instant, s.offset)) * 86400000000000
      ensures t in Expand(r, s, horizon)
    {
      HappensMeans(r, s, horizon, i, day);
      AtClockMeans(day, s);
      assert IsStep(r, s, horizon, i, t);
    }
  }

  lemma HappensMeans(r: Rule, s: Start, horizon: int, i: nat, day: int)
    requires ValidRule(r)
    ensures Happens(r, s, horizon, i, day) <==>
      i < MAX_STEPS && DayAt(r, s, i) == Some(day) && Listed(r, s, horizon, i)
  {
    hide StepsTo, DayAt, LocalDay, UntilAllows, DayNumber, Clock, Rank, Earlier;
    StepMeans(r, s, i);
    AtClockMeans(day, s);
    UntilMeans(r, day);
    RankMeans(r, s, i);
  }

  // A series on the 31st skips the months without one: from January 2026 on, monthly, January, March, May, July.
  lemma ThirtyFirsts(r: Rule, s: Start)
    requires r.freq == Monthly && r.interval == 1 && LocalDay(s.instant, s.offset) == DayNumber(Date(2026, 1, 31))
    ensures DayAt(r, s, 0) == Some(DayNumber(Date(2026, 1, 31))) && DayAt(r, s, 1) == None
    ensures DayAt(r, s, 2) == Some(DayNumber(Date(2026, 3, 31))) && DayAt(r, s, 3) == None
    ensures DayAt(r, s, 4) == Some(DayNumber(Date(2026, 5, 31))) && DayAt(r, s, 5) == None
    ensures DayAt(r, s, 6) == Some(DayNumber(Date(2026, 7, 31)))
  {
    hide Civil, DayNumber, DayAt;
    DayNumberRoundTrip(Date(2026, 1, 31));
    OnThatDay(r, s, 0, Date(2026, 1, 31));
    OnThatDay(r, s, 2, Date(2026, 3, 31));
    OnThatDay(r, s, 4, Date(2026, 5, 31));
    OnThatDay(r, s, 6, Date(2026, 7, 31));
    StepMeans(r, s, 1);
    StepMeans(r, s, 3);
    StepMeans(r, s, 5);
  }

  lemma OnThatDay(r: Rule, s: Start, i: int, t: Date)
    requires r.freq == Monthly && ValidDate(t)
    requires var from := Civil(LocalDay(s.instant, s.offset));
      t.d == from.d && 12 * (t.y - from.y) + (t.m - from.m) == i * r.interval
    ensures DayAt(r, s, i) == Some(DayNumber(t))
  {
    hide Civil, DayNumber, DayAt;
    DayNumberRoundTrip(t);
    StepMeans(r, s, i);
    assert StepsTo(r, LocalDay(s.instant, s.offset), i, DayNumber(t));
  }
}
