// What repeated jobs, cancellations and their interleavings leave of a series.
module SeriesLaws {
  import opened Finite
  import opened Calendar
  import opened Recurrence
  import opened Occurrences
  import opened Series
  import SeatTables

  // ---- repeating the job ----

  lemma DueGrows(t: Template, near: int, far: int)
    requires near <= far
    ensures Due(t, near) <= Due(t, far)
  {
    hide Parse, Expand;
    match Parse(t.rule)
    case None =>
    case Some(r) =>
      RuleOf(t.rule);
      SmallerHorizonIsPrefix(r, t.start, near + HORIZON, far + HORIZON);
  }

  lemma RuleOf(text: string)
    ensures Parse(text).Some? ==> ValidRule(Parse(text).value)
  {
    ParsedIsValid(text);
  }

  // Extending at two times, in either order, is extending once at the later.
  lemma ExtendTwice(db: Rows, id: SeriesId, near: int, far: int)
    requires near <= far
    ensures Extend(Extend(db, id, near), id, far) == Extend(db, id, far)
    ensures Extend(Extend(db, id, far), id, near) == Extend(db, id, far)
  {
    hide Due, Insert, KeysOf;
    if id in db.templates && db.templates[id].active {
      var t := db.templates[id];
      DueGrows(t, near, far);
      var few, many := KeysOf(id, Due(t, near)), KeysOf(id, Due(t, far));
      assert few <= many by {
        KeysOfMembers(id, Due(t, near));
        KeysOfMembers(id, Due(t, far));
      }
      assert few + many == many && many + few == many;
      InsertTwice(db.plans, few, many);
      InsertTwice(db.plans, many, few);
    }
  }

  function ExtendEach(db: Rows, id: SeriesId, times: seq<int>): Rows {
    if times == [] then db else Extend(ExtendEach(db, id, times[..|times| - 1]), id, times[|times| - 1])
  }

  function Latest(times: seq<int>): int
    requires times != []
  {
    if |times| == 1 then times[0]
    else
      var front := Latest(times[..|times| - 1]);
      if front < times[|times| - 1] then times[|times| - 1] else front
  }

  // However often the job ran and in whatever order its runs landed: the rows are those of one run at the latest
  // time, and running it again creates nothing.
  lemma {:induction false} RepeatedJobsConverge(db: Rows, id: SeriesId, times: seq<int>)
    requires times != []
    ensures ExtendEach(db, id, times) == Extend(db, id, Latest(times))
    ensures forall now :: now <= Latest(times) ==>
        Extend(ExtendEach(db, id, times), id, now) == ExtendEach(db, id, times)
  {
    hide Extend;
    var front, last := times[..|times| - 1], times[|times| - 1];
    if |times| > 1 {
      RepeatedJobsConverge(db, id, front);
      if Latest(front) < last {
        ExtendTwice(db, id, Latest(front), last);
      } else {
        ExtendTwice(db, id, last, Latest(front));
      }
    } else {
      assert ExtendEach(db, id, front) == db;
    }
    forall now | now <= Latest(times) ensures Extend(ExtendEach(db, id, times), id, now) == ExtendEach(db, id, times) {
      ExtendTwice(db, id, now, Latest(times));
    }
  }

  // Rows that are there stay as they are - the template's among them - and what is added is exactly what is due.
  lemma ExtendOnlyAdds(db: Rows, id: SeriesId, now: int)
    ensures var db' := Extend(db, id, now);
      && db'.templates == db.templates
      && (forall k :: k in db.plans ==> k in db'.plans && db'.plans[k] == db.plans[k])
      && (forall k :: k in db'.plans && k !in db.plans ==>
            k.0 == id && db'.plans[k].Published? && id in db.templates && db.templates[id].active
              && k.1 in Due(db.templates[id], now))
  {
    hide Due, KeysOf;
    if id in db.templates && db.templates[id].active {
      KeysOfMembers(id, Due(db.templates[id], now));
    }
  }

  lemma ExtendAllOnlyAdds(db: Rows, now: int)
    ensures var db' := ExtendAll(db, now);
      && db'.templates == db.templates
      && (forall k :: k in db.plans ==> k in db'.plans && db'.plans[k] == db.plans[k])
      && (forall k :: k in db'.plans && k !in db.plans ==> db'.plans[k].Published? && DueFor(db, k, now))
  {
    hide Due, AllDue;
    forall k | k in AllDue(db, now) ensures DueFor(db, k, now) {
      AllDueOnly(db, now, k);
    }
  }

  lemma AllDueOnly(db: Rows, now: int, k: PlanKey)
    requires k in AllDue(db, now)
    ensures DueFor(db, k, now)
  {
    hide Due;
  }

  // ---- after cancel_future ----

  // The series ends at or before t and nothing at or after t is published.
  ghost predicate EndedAt(db: Rows, id: SeriesId, t: int) {
    && id in db.templates && db.templates[id].endedBefore.Some? && db.templates[id].endedBefore.value <= t
    && forall k :: k in db.plans && k.0 == id && t <= k.1 ==> !db.plans[k].Published?
  }

  lemma CancelFutureEnds(db: Rows, k: PlanKey)
    requires k in db.plans && k.0 in db.templates
    ensures EndedAt(CancelFuture(db, k), k.0, k.1)
  { }

  lemma StepStaysEnded(db: Rows, s: Step, id: SeriesId, t: int)
    requires EndedAt(db, id, t) && Enabled(db, s)
    ensures EndedAt(Apply(db, s), id, t)
  {
    hide Due, Insert, KeysOf, AllDue, Parse, Expand;
    match s
    case DoCreate(other, rule, start, now) =>
      if Parse(rule).Some? {
        var made := Rows(db.templates[other := Template(rule, start, true, None)],
          db.plans[(other, start.instant) := SeatTables.Published]);
        ExtendStaysEnded(made, other, now, id, t);
      }
    case DoExtend(other, now) => ExtendStaysEnded(db, other, now, id, t);
    case DoExtendAll(now) => ExtendAllOnlyAdds(db, now);
    case DoCancel(k) =>
    case DoCancelFuture(k) =>
    case DoComplete(k) =>
  }

  lemma ExtendStaysEnded(db: Rows, other: SeriesId, now: int, id: SeriesId, t: int)
    requires EndedAt(db, id, t)
    ensures EndedAt(Extend(db, other, now), id, t)
  {
    hide Extend, Expand, Parse;
    ExtendOnlyAdds(db, other, now);
  }

  ghost predicate Run(ws: seq<Rows>, steps: seq<Step>) {
    |ws| == |steps| + 1 && forall i :: 0 <= i < |steps| ==>
      Enabled(ws[i], steps[i]) && ws[i + 1] == Apply(ws[i], steps[i])
  }

  // Once an occurrence was cancelled together with its future, no later state of any run has a published plan of
  // that series at or after it.
  lemma {:induction false} NothingReappears(ws: seq<Rows>, steps: seq<Step>, m: nat, n: nat)
    requires Run(ws, steps) && m < n < |ws| && steps[m].DoCancelFuture?
    requires steps[m].k in ws[m].plans && steps[m].k.0 in ws[m].templates
    ensures EndedAt(ws[n], steps[m].k.0, steps[m].k.1)
    decreases n
  {
    hide EndedAt, Apply, CancelFuture;
    if n == m + 1 {
      CancelFutureEnds(ws[m], steps[m].k);
      ApplyCancelFuture(ws[m], steps[m].k);
    } else {
      NothingReappears(ws, steps, m, n - 1);
      StepStaysEnded(ws[n - 1], steps[n - 1], steps[m].k.0, steps[m].k.1);
    }
  }

  lemma ApplyCancelFuture(db: Rows, k: PlanKey)
    ensures Apply(db, DoCancelFuture(k)) == CancelFuture(db, k)
  { }

  // ---- an extend slipping into cancel_future ----

  // The statements of cancel_future are separate: a job may run between the cancellations and the end. The series
  // ends as it should if and only if, at that moment, every occurrence due at or after the start is a row already
  // (or the series is switched off).
  lemma SlippedExtendIff(db: Rows, k: PlanKey, now: int)
    requires k in db.plans && k.0 in db.templates
    ensures EndedAt(EndFrom(Extend(CancelFrom(db, k), k.0, now), k), k.0, k.1) <==>
      !db.templates[k.0].active || forall u :: u in Due(db.templates[k.0], now) && k.1 <= u ==> (k.0, u) in db.plans
  {
    hide Due, Insert;
    var cancelled, due := CancelFrom(db, k), Due(db.templates[k.0], now);
    var slipped := Extend(cancelled, k.0, now);
    assert cancelled.plans.Keys == db.plans.Keys;
    if db.templates[k.0].active {
      KeysOfMembers(k.0, due);
      InsertGrows(cancelled.plans, KeysOf(k.0, due));
      ExtendOnlyAdds(cancelled, k.0, now);
      if u :| u in due && k.1 <= u && (k.0, u) !in db.plans {
        assert EndFrom(slipped, k).plans[(k.0, u)].Published?;
      } else {
        forall key | key in slipped.plans && key.0 == k.0 && k.1 <= key.1 ensures !slipped.plans[key].Published? {
          assert key == (k.0, key.1);
          assert key in cancelled.plans;
        }
      }
    }
  }

  // A daily series created at time 0, cancelled with its future at its first occurrence while the job of the next
  // day runs in between.
  const EVERY_DAY: Rule := Rule(Daily, 1, 0, ZERO)

  function Created(): Rows {
    CreateSeries(Rows(map[], map[]), 1, Format(EVERY_DAY), Start(0, 0), 0)
  }

  lemma EveryDayDue(now: int, n: nat, endedBefore: Option<int>)
    requires n < MAX_STEPS && NotEnded(endedBefore, n * DAY)
    ensures n * DAY in Due(Template(Format(EVERY_DAY), Start(0, 0), true, endedBefore), now) <==>
        n * DAY <= now + HORIZON
  {
    var t := Template(Format(EVERY_DAY), Start(0, 0), true, endedBefore);
    FormatParseRoundTrip(EVERY_DAY);
    hide Parse, Format, Expand, FormatParts;
    EveryDayListed(now + HORIZON, n);
    DueByRule(t, EVERY_DAY, now, n * DAY);
  }

  lemma DueByRule(t: Template, r: Rule, now: int, u: int)
    requires Parse(t.rule) == Some(r) && NotEnded(t.endedBefore, u)
    ensures u in Due(t, now) <==> u in Expand(r, t.start, now + HORIZON)
  {
    hide Parse, Expand;
  }

  lemma EveryDayListed(horizon: int, n: nat)
    requires n < MAX_STEPS
    ensures n * DAY in Expand(EVERY_DAY, Start(0, 0), horizon) <==> n * DAY <= horizon
  {
    hide Times;
    var s := Start(0, 0);
    assert DayAt(EVERY_DAY, s, n) == Some(n) && AtClock(n, s) == n * DAY;
    if n * DAY <= horizon {
      assert IsStep(EVERY_DAY, s, horizon, n, n * DAY);
      StepsAreTimes(EVERY_DAY, s, horizon, MAX_STEPS, n, n * DAY);
    } else {
      ExpandIsExact(EVERY_DAY, s, horizon);
      assert !HasStep(EVERY_DAY, s, horizon, MAX_STEPS, n * DAY);
    }
  }

  // The plan of day 61 is inserted after every published one was cancelled and before the series ends: it stays
  // published at the end, in a state the tables can really reach.
  lemma SlippedExtendLeavesOne()
    ensures var k, late := (1, 0), (1, 61 * DAY);
      var left := EndFrom(Extend(CancelFrom(Created(), k), 1, DAY), k);
      && Run([Rows(map[], map[]), Created()], [DoCreate(1, Format(EVERY_DAY), Start(0, 0), 0)])
      && k in Created().plans && 1 in Created().templates
      && late in left.plans && left.plans[late].Published? && !EndedAt(left, 1, 0)
  {
    hide Due, Format, Insert, EndFrom;
    var k, t := (1, 0), Template(Format(EVERY_DAY), Start(0, 0), true, None);
    CreatedRows();
    EveryDayDue(0, 61, None);
    EveryDayDue(DAY, 61, None);
    LeftBehind(Created(), k, DAY, 61 * DAY);
  }

  lemma CreatedRows()
    ensures var t := Template(Format(EVERY_DAY), Start(0, 0), true, None);
      && Created().templates == map[1 := t] && (1, 0) in Created().plans
      && forall u :: (1, u) in Created().plans ==> u == 0 || u in Due(t, 0)
  {
    hide Due, Format;
    FormatParseRoundTrip(EVERY_DAY);
    hide Parse;
    var t := Template(Format(EVERY_DAY), Start(0, 0), true, None);
    ExtendOnlyAdds(Rows(map[1 := t], map[(1, 0) := SeatTables.Published]), 1, 0);
  }

  // What the job inserts between the two statements is what stays.
  lemma LeftBehind(db: Rows, k: PlanKey, now: int, u: int)
    requires k in db.plans && k.0 in db.templates && db.templates[k.0].active
    requires u in Due(db.templates[k.0], now) && k.1 <= u && (k.0, u) !in db.plans
    ensures var left := EndFrom(Extend(CancelFrom(db, k), k.0, now), k);
      (k.0, u) in left.plans && left.plans[(k.0, u)].Published? && !EndedAt(left, k.0, k.1)
  {
    hide Due, Insert;
    KeysOfMembers(k.0, Due(db.templates[k.0], now));
    InsertGrows(CancelFrom(db, k).plans, KeysOf(k.0, Due(db.templates[k.0], now)));
    ExtendOnlyAdds(CancelFrom(db, k), k.0, now);
  }

  // ---- stored rules ----

  // Every stored rule reads, so the hourly job never stops early.
  lemma {:induction false} StoredRulesRead(ws: seq<Rows>, steps: seq<Step>, n: nat)
    requires Run(ws, steps) && ws[0] == Rows(map[], map[]) && n < |ws|
    ensures forall id :: id in ws[n].templates ==> Reads(ws[n], id)
  {
    hide Parse, Insert, Due, AllDue, KeysOf;
    if n > 0 {
      StoredRulesRead(ws, steps, n - 1);
      assert ws[n] == Apply(ws[n - 1], steps[n - 1]);
    }
  }

  // ---- nothing is missing before the end ----

  ghost predicate IsOccurrence(t: Template, u: int) {
    Parse(t.rule).Some? && u in Expand(Parse(t.rule).value, t.start, u)
  }

  // Every occurrence up to a row is a row, and a series ends only where a row is.
  ghost predicate NoGaps(db: Rows, id: SeriesId)
    requires id in db.templates
  {
    var t := db.templates[id];
    && (id, t.start.instant) in db.plans
    && (forall u, v :: (id, v) in db.plans && u <= v && IsOccurrence(t, u) ==> (id, u) in db.plans)
    && (t.endedBefore.Some? ==> exists v :: (id, v) in db.plans && t.endedBefore.value <= v)
  }

  ghost predicate Dense(db: Rows) {
    forall id :: id in db.templates ==> NoGaps(db, id)
  }

  // What the job finds are occurrences, and with each of them all the earlier ones.
  lemma DueAreOccurrences(t: Template, now: int, v: int)
    requires v in Due(t, now)
    ensures IsOccurrence(t, v)
    ensures forall u :: u <= v && IsOccurrence(t, u) ==> u in Due(t, now)
  {
    hide Expand, Parse;
    var r := Parse(t.rule).value;
    RuleOf(t.rule);
    SmallerHorizonIsPrefix(r, t.start, now + HORIZON, now + HORIZON);
    SmallerHorizonIsPrefix(r, t.start, v, now + HORIZON);
    forall u | u <= v && IsOccurrence(t, u) ensures u in Due(t, now) {
      SmallerHorizonIsPrefix(r, t.start, u, now + HORIZON);
    }
  }

  // Adding, for one series, a set of times that leaves no gap.
  lemma AddingKeeps(db: Rows, db': Rows, id: SeriesId)
    requires id in db.templates && id in db'.templates && db'.templates[id] == db.templates[id] && NoGaps(db, id)
    requires forall k :: k in db.plans ==> k in db'.plans
    requires forall v :: (id, v) in db'.plans && (id, v) !in db.plans ==>
               forall u :: u <= v && IsOccurrence(db.templates[id], u) ==> (id, u) in db'.plans
    ensures NoGaps(db', id)
  {
    hide IsOccurrence;
  }

  lemma ExtendKeepsGaps(db: Rows, other: SeriesId, now: int, id: SeriesId)
    requires id in db.templates && NoGaps(db, id)
    ensures NoGaps(Extend(db, other, now), id)
  {
    hide Due, IsOccurrence, NoGaps, Insert, KeysOf;
    var db' := Extend(db, other, now);
    ExtendOnlyAdds(db, other, now);
    forall v | (id, v) in db'.plans && (id, v) !in db.plans
      ensures forall u :: u <= v && IsOccurrence(db.templates[id], u) ==> (id, u) in db'.plans
    {
      DueAreOccurrences(db.templates[id], now, v);
      KeysOfMembers(id, Due(db.templates[id], now));
      InsertGrows(db.plans, KeysOf(id, Due(db.templates[id], now)));
    }
    AddingKeeps(db, db', id);
  }

  lemma ExtendAllKeepsGaps(db: Rows, now: int, id: SeriesId)
    requires id in db.templates && NoGaps(db, id)
    ensures NoGaps(ExtendAll(db, now), id)
  {
    hide Due, IsOccurrence, NoGaps, Insert, AllDue;
    var db' := ExtendAll(db, now);
    ExtendAllOnlyAdds(db, now);
    InsertGrows(db.plans, AllDue(db, now));
    forall v | (id, v) in db'.plans && (id, v) !in db.plans
      ensures forall u :: u <= v && IsOccurrence(db.templates[id], u) ==> (id, u) in db'.plans
    {
      assert DueFor(db, (id, v), now);
      DueAreOccurrences(db.templates[id], now, v);
      forall u | u <= v && IsOccurrence(db.templates[id], u) ensures (id, u) in db'.plans {
        AllDueHas(db, now, (id, u));
      }
    }
    AddingKeeps(db, db', id);
  }

  lemma AllDueHas(db: Rows, now: int, k: PlanKey)
    requires DueFor(db, k, now)
    ensures k in AllDue(db, now)
  {
    hide Due;
    var id, u := k.0, k.1;
    assert (id, u) in AllDue(db, now) && k == (id, u);
  }

  // The template is an occurrence no other occurrence precedes.
  lemma OccurrencesFollowTemplate(t: Template, u: int)
    requires IsOccurrence(t, u)
    ensures t.start.instant <= u
  {
    hide Expand, Parse;
    var r := Parse(t.rule).value;
    RuleOf(t.rule);
    TemplateComesFirst(r, t.start, u);
    ExpandIsExact(r, t.start, u);
    var out := Expand(r, t.start, u);
    var i :| 0 <= i < |out| && out[i] == u;
    assert i > 0 ==> out[0] < out[i];
  }

  lemma CreateKeepsDense(db: Rows, id: SeriesId, rule: string, start: Start, now: int)
    requires Dense(db) && Enabled(db, DoCreate(id, rule, start, now))
    ensures Dense(CreateSeries(db, id, rule, start, now))
  {
    hide Parse, IsOccurrence, Extend;
    if Parse(rule).Some? {
      var t := Template(rule, start, true, None);
      var made := Rows(db.templates[id := t], db.plans[(id, start.instant) := SeatTables.Published]);
      ExtendOnlyAdds(made, id, now);
      forall u | IsOccurrence(t, u) ensures start.instant <= u {
        OccurrencesFollowTemplate(t, u);
      }
      forall other | other in made.templates ensures NoGaps(Extend(made, id, now), other) {
        if other != id {
          assert NoGaps(db, other);
        }
        assert NoGaps(made, other);
        ExtendKeepsGaps(made, id, now, other);
      }
    }
  }

  lemma StepKeepsDense(db: Rows, s: Step)
    requires Dense(db) && Enabled(db, s)
    ensures Dense(Apply(db, s))
  {
    hide NoGaps, Due, Insert, KeysOf, AllDue, Parse, Expand;
    match s
    case DoCreate(id, rule, start, now) => CreateKeepsDense(db, id, rule, start, now);
    case DoExtend(other, now) =>
      ExtendOnlyAdds(db, other, now);
      forall id | id in db.templates ensures NoGaps(Extend(db, other, now), id) {
        ExtendKeepsGaps(db, other, now, id);
      }
    case DoExtendAll(now) =>
      forall id | id in db.templates ensures NoGaps(ExtendAll(db, now), id) {
        ExtendAllKeepsGaps(db, now, id);
      }
    case DoCancel(k) => SameKeysKeepDense(db, SetStatus(db, k, SeatTables.CancelledPlan));
    case DoComplete(k) => SameKeysKeepDense(db, SetStatus(db, k, SeatTables.Completed));
    case DoCancelFuture(k) =>
      if k in db.plans {
        SameKeysKeepDense(db, CancelFrom(db, k));
        EndKeepsDense(CancelFrom(db, k), k);
      }
  }

  lemma SameKeysKeepDense(db: Rows, db': Rows)
    requires Dense(db) && db'.templates == db.templates && db'.plans.Keys == db.plans.Keys
    ensures Dense(db')
  {
    hide IsOccurrence;
    forall id | id in db'.templates ensures NoGaps(db', id) {
      assert NoGaps(db, id);
    }
  }

  lemma EndKeepsDense(db: Rows, k: PlanKey)
    requires Dense(db) && k in db.plans
    ensures Dense(EndFrom(db, k))
  {
    forall id | id in EndFrom(db, k).templates ensures NoGaps(EndFrom(db, k), id) {
      assert NoGaps(db, id);
      assert (k.0, k.1) in db.plans;
      assert forall u :: IsOccurrence(EndFrom(db, k).templates[id], u) <==> IsOccurrence(db.templates[id], u);
    }
  }

  lemma {:induction false} DenseOverRuns(ws: seq<Rows>, steps: seq<Step>, n: nat)
    requires Run(ws, steps) && ws[0] == Rows(map[], map[]) && n < |ws|
    ensures Dense(ws[n])
  {
    hide Apply;
    if n > 0 {
      DenseOverRuns(ws, steps, n - 1);
      StepKeepsDense(ws[n - 1], steps[n - 1]);
    }
  }

  // Every occurrence before the end of an ended series is already a row, so extending it inserts nothing ...
  lemma EndedSeriesIsComplete(ws: seq<Rows>, steps: seq<Step>, n: nat, id: SeriesId, now: int)
    requires Run(ws, steps) && ws[0] == Rows(map[], map[]) && n < |ws|
    requires id in ws[n].templates && ws[n].templates[id].endedBefore.Some?
    ensures forall u :: IsOccurrence(ws[n].templates[id], u) && u < ws[n].templates[id].endedBefore.value ==>
        (id, u) in ws[n].plans
    ensures Extend(ws[n], id, now) == ws[n]
  {
    hide Due, IsOccurrence;
    DenseOverRuns(ws, steps, n);
    var db := ws[n];
    assert NoGaps(db, id);
    forall v | v in Due(db.templates[id], now) ensures (id, v) in db.plans {
      DueAreOccurrences(db.templates[id], now, v);
      DueBeforeEnd(db.templates[id], now, v);
    }
    assert db.plans.Keys + KeysOf(id, Due(db.templates[id], now)) == db.plans.Keys;
  }

  lemma DueBeforeEnd(t: Template, now: int, v: int)
    requires v in Due(t, now)
    ensures NotEnded(t.endedBefore, v)
  { }

  // ... and the hourly job loses nothing by passing over ended series.
  lemma SkippingEndedLosesNothing(ws: seq<Rows>, steps: seq<Step>, n: nat, id: SeriesId, now: int)
    requires Run(ws, steps) && ws[0] == Rows(map[], map[]) && n < |ws| && id in ws[n].templates
    requires ws[n].templates[id].active
    ensures forall u :: u in Due(ws[n].templates[id], now) ==> (id, u) in ExtendAll(ws[n], now).plans
  {
    hide Due, AllDue, Insert;
    var db := ws[n];
    InsertGrows(db.plans, AllDue(db, now));
    forall u | u in Due(db.templates[id], now) ensures (id, u) in ExtendAll(db, now).plans {
      if db.templates[id].endedBefore.None? {
        AllDueHas(db, now, (id, u));
      } else {
        EndedSeriesIsComplete(ws, steps, n, id, now);
        DueAreOccurrences(db.templates[id], now, u);
        DueBeforeEnd(db.templates[id], now, u);
      }
    }
  }
}
