// Expanding a recurrence rule: the times a series takes place, computed from the template's own start in a zone
// with a fixed offset. Instants count ticks; midnight opening day 0 in UTC is tick 0.
module Occurrences {
  import opened Finite
  import opened Calendar
  import opened Recurrence

  const DAY: int := 24 * 60 * 60 * 1000000000
  const MAX_STEPS: nat := 2000

  // A start on the wall clock of its zone.
  datatype Start = Start(instant: int, offset: int)

  function LocalDay(t: int, offset: int): int {
    (t + offset) / DAY
  }

  function Clock(t: int, offset: int): int {
    (t + offset) % DAY
  }

  function AtClock(day: int, s: Start): int {
    day * DAY + Clock(s.instant, s.offset) - s.offset
  }

  // ---- months counted from January of year 0 ----

  function MonthIndex(t: Date): int {
    12 * t.y + t.m - 1
  }

  function MonthStart(k: int): int {
    DayNumber(Date(k / 12, k % 12 + 1, 1))
  }

  function MonthLength(k: int): (n: int)
    ensures 28 <= n <= 31
  {
    DaysInMonth(k / 12, k % 12 + 1)
  }

  // ---- what the rule means ----

  // The i-th stepped day: none when the month lacks the day.
  function DayAt(r: Rule, s: Start, i: int): Option<int> {
    var first := LocalDay(s.instant, s.offset);
    match r.freq
    case Daily => Some(first + i * r.interval)
    case Weekly => Some(first + 7 * (i * r.interval))
    case Monthly =>
      var k, d := MonthIndex(Civil(first)) + i * r.interval, Civil(first).d;
      if d <= MonthLength(k) then Some(MonthStart(k) + d - 1) else None
  }

  // Not after the horizon, and not on a day after UNTIL.
  predicate Allowed(r: Rule, s: Start, day: int, horizon: int) {
    AtClock(day, s) <= horizon && UntilAllows(r, day)
  }

  // How many of the first i steps exist.
  function Rank(r: Rule, s: Start, i: nat): nat {
    if i == 0 then 0 else Rank(r, s, i - 1) + if DayAt(r, s, i - 1).Some? then 1 else 0
  }

  predicate Listed(r: Rule, s: Start, horizon: int, i: nat) {
    && DayAt(r, s, i).Some? && Allowed(r, s, DayAt(r, s, i).value, horizon)
    && (r.count == 0 || Rank(r, s, i) < r.count)
  }

  // t is the time of listed step i.
  predicate IsStep(r: Rule, s: Start, horizon: int, i: nat, t: int) {
    Listed(r, s, horizon, i) && t == AtClock(DayAt(r, s, i).value, s)
  }

  predicate HasStep(r: Rule, s: Start, horizon: int, n: nat, t: int) {
    exists i: nat :: i < n && IsStep(r, s, horizon, i, t)
  }

  // The listed times among the first n steps, in order.
  function Times(r: Rule, s: Start, horizon: int, n: nat): seq<int> {
    if n == 0 then []
    else
      Times(r, s, horizon, n - 1)
      + if Listed(r, s, horizon, n - 1) then [AtClock(DayAt(r, s, n - 1).value, s)] else []
  }

  function Expand(r: Rule, s: Start, horizon: int): seq<int> {
    Times(r, s, horizon, MAX_STEPS)
  }

  // ---- steps only go forward ----

  lemma MonthsFollow(k: int)
    ensures MonthStart(k + 1) == MonthStart(k) + MonthLength(k)
  {
    var y, m := k / 12, k % 12 + 1;
    if m == 12 {
      WholeYear(y);
      NextYear(y);
      assert (k + 1) / 12 == y + 1 && (k + 1) % 12 == 0;
    } else {
      assert (k + 1) / 12 == y && (k + 1) % 12 == m;
    }
  }

  lemma {:induction false} MonthStartsIncrease(j: int, k: int)
    requires j < k
    ensures MonthStart(j) + MonthLength(j) <= MonthStart(k)
    decreases k - j
  {
    MonthsFollow(k - 1);
    if j < k - 1 {
      MonthStartsIncrease(j, k - 1);
    }
  }

  lemma StepsIncrease(r: Rule, s: Start, i: int, j: int)
    requires r.interval >= 1 && i < j && DayAt(r, s, i).Some? && DayAt(r, s, j).Some?
    ensures DayAt(r, s, i).value < DayAt(r, s, j).value
  {
    hide Civil, MonthStart, LocalDay, MonthIndex, MonthLength, DayNumber;
    LaterMultiple(r.interval, i, j);
    var first := LocalDay(s.instant, s.offset);
    CivilRoundTrip(first);
    if r.freq.Monthly? {
      var k := MonthIndex(Civil(first));
      MonthStartsIncrease(k + i * r.interval, k + j * r.interval);
    }
  }

  lemma LaterMultiple(n: int, i: int, j: int)
    requires n >= 1 && i < j
    ensures i * n < j * n
  {
    assert (j - i) * n >= 1;
  }

  // Step 0 is the template's own start.
  lemma FirstIsTemplate(r: Rule, s: Start)
    ensures DayAt(r, s, 0) == Some(LocalDay(s.instant, s.offset))
    ensures AtClock(LocalDay(s.instant, s.offset), s) == s.instant
  {
    hide Civil, DayNumber;
    var first := LocalDay(s.instant, s.offset);
    CivilRoundTrip(first);
    MonthHolds(Civil(first));
    assert 0 * r.interval == 0;
  }

  // A date is its month's start plus its day.
  lemma MonthHolds(t: Date)
    requires ValidDate(t)
    ensures t.d <= MonthLength(MonthIndex(t)) && MonthStart(MonthIndex(t)) + t.d - 1 == DayNumber(t)
  {
    hide DaysBeforeYear, DaysBeforeMonth, DaysInMonth;
    assert MonthIndex(t) / 12 == t.y && MonthIndex(t) % 12 == t.m - 1;
  }

  lemma {:induction false} RankGrows(r: Rule, s: Start, i: nat, j: nat)
    requires i <= j
    ensures Rank(r, s, i) <= Rank(r, s, j)
    ensures i < j && DayAt(r, s, i).Some? ==> Rank(r, s, i) < Rank(r, s, j)
  {
    hide DayAt;
    if i < j {
      RankGrows(r, s, i, j - 1);
    }
  }

  // ---- the loop ----

  // Once a step is past the horizon, past UNTIL or past COUNT, no later step is listed.
  lemma {:induction false} NothingAfter(r: Rule, s: Start, horizon: int, i: nat, n: nat)
    requires r.interval >= 1 && i <= n
    requires DayAt(r, s, i).Some? && !Listed(r, s, horizon, i)
    ensures Times(r, s, horizon, n) == Times(r, s, horizon, i)
  {
    hide DayAt, Allowed;
    if i < n {
      NothingAfter(r, s, horizon, i, n - 1);
      Stopped(r, s, horizon, i, n - 1);
    }
  }

  lemma Stopped(r: Rule, s: Start, horizon: int, i: nat, j: nat)
    requires r.interval >= 1 && i <= j && DayAt(r, s, i).Some? && !Listed(r, s, horizon, i)
    ensures !Listed(r, s, horizon, j)
  {
    hide DayAt, Civil, Rank;
    RankGrows(r, s, i, j);
    if i < j && DayAt(r, s, j).Some? {
      StepsIncrease(r, s, i, j);
      LaterDate(DayAt(r, s, i).value, DayAt(r, s, j).value);
    }
  }

  lemma LaterDate(m: int, n: int)
    requires m < n
    ensures Before(Civil(m), Civil(n))
  {
    hide Civil, DayNumber;
    CivilRoundTrip(m);
    CivilRoundTrip(n);
    OrderMatches(Civil(m), Civil(n));
  }

  // The whole of the loop is decided by where it breaks.
  lemma {:induction false} NothingAfterCount(r: Rule, s: Start, horizon: int, i: nat, n: nat)
    requires r.count > 0 && Rank(r, s, i) >= r.count && i <= n
    ensures Times(r, s, horizon, n) == Times(r, s, horizon, i)
  {
    hide DayAt, Allowed;
    if i < n {
      NothingAfterCount(r, s, horizon, i, n - 1);
      RankGrows(r, s, i, n - 1);
    }
  }

  // time.Date(y, m+n, d, ...) rolls a missing day over into the next month; its Day() gives that away.
  lemma RollsOver(k: int, d: int)
    requires 1 <= d <= 31
    ensures Civil(MonthStart(k) + d - 1).d == d <==> d <= MonthLength(k)
  {
    hide Civil, DaysBeforeYear, DaysBeforeMonth;
    if d <= MonthLength(k) {
      var t := Date(k / 12, k % 12 + 1, d);
      DayNumberRoundTrip(t);
      assert DayNumber(t) == MonthStart(k) + d - 1;
    } else {
      MonthsFollow(k);
      var next := Date((k + 1) / 12, (k + 1) % 12 + 1, d - MonthLength(k));
      DayNumberRoundTrip(next);
      assert DayNumber(next) == MonthStart(k) + d - 1;
    }
  }

  method ListOccurrences(r: Rule, s: Start, horizon: int) returns (out: seq<int>)
    requires r.interval >= 1 && r.count >= 0
    ensures out == Expand(r, s, horizon)
  {
    hide DayAt, Civil, MonthStart, DayNumber;
    var first := LocalDay(s.instant, s.offset);
    var date := Civil(first);
    CivilRoundTrip(first);
    out := [];
    var i: nat := 0;
    while i < MAX_STEPS
      invariant i <= MAX_STEPS
      invariant out == Times(r, s, horizon, i)
      invariant |out| == Rank(r, s, i) && (r.count == 0 || |out| < r.count)
    {
      var n := i * r.interval;
      var day: int;
      DayAtBy(r, s, i);
      match r.freq {
        case Daily => day := first + n;
        case Weekly => day := first + 7 * n;
        case Monthly =>
          day := MonthStart(MonthIndex(date) + n) + date.d - 1;
          if Civil(day).d != date.d {
            i := i + 1;
            continue;
          }
      }
      assert DayAt(r, s, i) == Some(day);
      var t := AtClock(day, s);
      if t > horizon {
        NothingAfter(r, s, horizon, i, MAX_STEPS);
        return;
      }
      if r.until != ZERO {
        ClockKeepsDay(day, s);
        if Before(r.until, Civil(LocalDay(t, s.offset))) {
          NothingAfter(r, s, horizon, i, MAX_STEPS);
          return;
        }
      }
      out := out + [t];
      if r.count > 0 && |out| >= r.count {
        NothingAfterCount(r, s, horizon, i + 1, MAX_STEPS);
        return;
      }
      i := i + 1;
    }
  }

  lemma DayAtBy(r: Rule, s: Start, i: int)
    ensures var first, n := LocalDay(s.instant, s.offset), i * r.interval;
      match r.freq
      case Daily => DayAt(r, s, i) == Some(first + n)
      case Weekly => DayAt(r, s, i) == Some(first + 7 * n)
      case Monthly =>
        var day := MonthStart(MonthIndex(Civil(first)) + n) + Civil(first).d - 1;
        DayAt(r, s, i) == if Civil(day).d == Civil(first).d then Some(day) else None
  {
    hide Civil, MonthStart, MonthIndex, MonthLength, LocalDay, DayNumber;
    var first := LocalDay(s.instant, s.offset);
    CivilRoundTrip(first);
    RollsOver(MonthIndex(Civil(first)) + i * r.interval, Civil(first).d);
  }

  lemma ClockKeepsDay(day: int, s: Start)
    ensures LocalDay(AtClock(day, s), s.offset) == day
    ensures Clock(AtClock(day, s), s.offset) == Clock(s.instant, s.offset)
  { }

  // ---- what comes out ----

  // Exactly the listed steps.
  lemma {:induction false} TimesAreSteps(r: Rule, s: Start, horizon: int, n: nat)
    ensures forall k :: 0 <= k < |Times(r, s, horizon, n)| ==> HasStep(r, s, horizon, n, Times(r, s, horizon, n)[k])
  {
    hide DayAt, Allowed, Rank;
    if n > 0 {
      TimesAreSteps(r, s, horizon, n - 1);
      var times := Times(r, s, horizon, n);
      forall k | 0 <= k < |times| ensures HasStep(r, s, horizon, n, times[k]) {
        if k < |Times(r, s, horizon, n - 1)| {
          assert HasStep(r, s, horizon, n - 1, times[k]);
          var i: nat :| i < n - 1 && IsStep(r, s, horizon, i, times[k]);
          assert IsStep(r, s, horizon, i, times[k]);
        } else {
          assert IsStep(r, s, horizon, n - 1, times[k]);
        }
      }
    }
  }

  lemma {:induction false} StepsAreTimes(r: Rule, s: Start, horizon: int, n: nat, i: nat, t: int)
    requires i < n && IsStep(r, s, horizon, i, t)
    ensures t in Times(r, s, horizon, n)
  {
    hide DayAt, Allowed, Rank;
    if i < n - 1 {
      StepsAreTimes(r, s, horizon, n - 1, i, t);
    } else {
      var times := Times(r, s, horizon, n);
      assert times[|times| - 1] == t;
    }
  }

  lemma {:induction false} TimesIncrease(r: Rule, s: Start, horizon: int, n: nat)
    requires r.interval >= 1
    ensures forall i, j :: 0 <= i < j < |Times(r, s, horizon, n)| ==>
        Times(r, s, horizon, n)[i] < Times(r, s, horizon, n)[j]
  {
    hide DayAt, Allowed, Rank;
    if n > 0 {
      TimesIncrease(r, s, horizon, n - 1);
      var before := Times(r, s, horizon, n - 1);
      if Listed(r, s, horizon, n - 1) {
        TimesAreSteps(r, s, horizon, n - 1);
        forall k | 0 <= k < |before| ensures before[k] < AtClock(DayAt(r, s, n - 1).value, s) {
          var i: nat :| i < n - 1 && IsStep(r, s, horizon, i, before[k]);
          StepsIncrease(r, s, i, n - 1);
          assert DayAt(r, s, i).value * DAY < DayAt(r, s, n - 1).value * DAY;
        }
      }
    }
  }

  // The times are strictly increasing, at most COUNT of them, all at the template's time of day; they are exactly
  // the steps whose month has the day, within horizon, UNTIL and COUNT.
  lemma ExpandIsExact(r: Rule, s: Start, horizon: int)
    requires ValidRule(r)
    ensures var out := Expand(r, s, horizon);
      && (forall i, j :: 0 <= i < j < |out| ==> out[i] < out[j])
      && (forall t :: t in out ==> Clock(t, s.offset) == Clock(s.instant, s.offset))
      && (forall t :: t in out <==> HasStep(r, s, horizon, MAX_STEPS, t))
      && (r.count > 0 ==> |out| <= r.count)
  {
    hide Times, DayAt, Allowed, Rank;
    TimesIncrease(r, s, horizon, MAX_STEPS);
    forall t | HasStep(r, s, horizon, MAX_STEPS, t) ensures t in Expand(r, s, horizon) {
      var i: nat :| i < MAX_STEPS && IsStep(r, s, horizon, i, t);
      StepsAreTimes(r, s, horizon, MAX_STEPS, i, t);
    }
    TimesAreSteps(r, s, horizon, MAX_STEPS);
    forall t | t in Expand(r, s, horizon) ensures Clock(t, s.offset) == Clock(s.instant, s.offset) {
      var i: nat :| i < MAX_STEPS && IsStep(r, s, horizon, i, t);
      ClockKeepsDay(DayAt(r, s, i).value, s);
    }
    if r.count > 0 {
      TimesAtMostCount(r, s, horizon, MAX_STEPS);
    }
  }

  lemma {:induction false} TimesAtMostCount(r: Rule, s: Start, horizon: int, n: nat)
    requires r.count > 0
    ensures |Times(r, s, horizon, n)| <= r.count && |Times(r, s, horizon, n)| <= Rank(r, s, n)
  {
    hide DayAt, Allowed;
    if n > 0 {
      TimesAtMostCount(r, s, horizon, n - 1);
    }
  }

  // A smaller horizon gives a prefix.
  lemma {:induction false} TimesPrefix(r: Rule, s: Start, near: int, far: int, n: nat)
    requires r.interval >= 1 && near <= far
    ensures Times(r, s, near, n) <= Times(r, s, far, n)
    ensures (exists i: nat :: i < n && Listed(r, s, far, i) && !Listed(r, s, near, i))
        || Times(r, s, near, n) == Times(r, s, far, n)
  {
    hide DayAt;
    if n > 0 {
      TimesPrefix(r, s, near, far, n - 1);
      if i: nat :| i < n - 1 && Listed(r, s, far, i) && !Listed(r, s, near, i) {
        Stopped(r, s, near, i, n - 1);
      }
    }
  }

  lemma SmallerHorizonIsPrefix(r: Rule, s: Start, near: int, far: int)
    requires ValidRule(r) && near <= far
    ensures Expand(r, s, near) <= Expand(r, s, far)
    ensures forall t :: t in Expand(r, s, near) <==> t in Expand(r, s, far) && t <= near
  {
    hide Times, DayAt, Rank, Civil;
    TimesPrefix(r, s, near, far, MAX_STEPS);
    ExpandIsExact(r, s, near);
    ExpandIsExact(r, s, far);
    forall t | t in Expand(r, s, far) && t <= near ensures t in Expand(r, s, near) {
      var i: nat :| i < MAX_STEPS && IsStep(r, s, far, i, t);
      assert IsStep(r, s, near, i, t);
    }
    forall t | t in Expand(r, s, near) ensures t <= near && t in Expand(r, s, far) {
      var i: nat :| i < MAX_STEPS && IsStep(r, s, near, i, t);
      assert IsStep(r, s, far, i, t);
    }
  }

  // Whenever anything is listed the template comes first.
  lemma TemplateComesFirst(r: Rule, s: Start, horizon: int)
    requires ValidRule(r)
    ensures var out := Expand(r, s, horizon);
      out != [] ==> out[0] == s.instant
  {
    hide Times, DayAt, Rank, Civil;
    var out := Expand(r, s, horizon);
    if out != [] {
      ExpandIsExact(r, s, horizon);
      assert out[0] in out;
      var i: nat :| i < MAX_STEPS && IsStep(r, s, horizon, i, out[0]);
      FirstListed(r, s, horizon, i);
      assert HasStep(r, s, horizon, MAX_STEPS, s.instant);
      assert s.instant in out;
    }
  }

  // If any step is listed, the template's own is.
  lemma FirstListed(r: Rule, s: Start, horizon: int, i: nat)
    requires r.interval >= 1 && Listed(r, s, horizon, i) && i < MAX_STEPS
    ensures IsStep(r, s, horizon, 0, s.instant)
    ensures i > 0 ==> s.instant < AtClock(DayAt(r, s, i).value, s)
  {
    hide DayAt, Civil;
    FirstIsTemplate(r, s);
    RankGrows(r, s, 0, i);
    if !Listed(r, s, horizon, 0) {
      Stopped(r, s, horizon, 0, i);
    }
    if i > 0 {
      StepsIncrease(r, s, 0, i);
      assert DayAt(r, s, 0).value * DAY < DayAt(r, s, i).value * DAY;
    }
  }
}
