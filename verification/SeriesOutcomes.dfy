// What a caller finds in the plan rows of a series afterwards, in the rows' own words.
module SeriesOutcomes {
  import opened Finite
  import opened Recurrence
  import opened Occurrences
  import opened Series
  import SeatTables

  // The series reaches this start within sixty days of now (in nanoseconds), before its end.
  ghost predicate Reaches(t: Template, start: int, now: int) {
    && Parse(t.rule).Some? && start in Expand(Parse(t.rule).value, t.start, now + 60 * 86400000000000)
    && (t.endedBefore == None || start < t.endedBefore.value)
  }

  // Rows are added, published, where the series reach and there is none; no row is touched.
  ghost predicate Adds(db: Rows, db': Rows, id: SeriesId, now: int) {
    && db' == db.(plans := db'.plans)
    && (forall k :: k in db.plans ==> k in db'.plans && db'.plans[k] == db.plans[k])
    && (forall k :: k in db'.plans && k !in db.plans ==> db'.plans[k] == SeatTables.Published)
    && (forall k: PlanKey :: k in db'.plans <==>
          k in db.plans || (k.0 == id && id in db.templates && db.templates[id].active
                            && Reaches(db.templates[id], k.1, now)))
  }

  lemma DueMeans(t: Template, now: int)
    ensures forall u :: u in Due(t, now) <==> Reaches(t, u, now)
  {
    hide Parse, Expand;
  }

  lemma ExtendOutcome(db: Rows, id: SeriesId, now: int)
    ensures Adds(db, Extend(db, id, now), id, now)
  {
    hide Reaches, Due;
    if id in db.templates {
      DueMeans(db.templates[id], now);
      KeysOfMembers(id, Due(db.templates[id], now));
    }
  }

  // The hourly job does so for every active series without an end.
  lemma ExtendAllOutcome(db: Rows, now: int)
    ensures var db' := ExtendAll(db, now);
      && db' == db.(plans := db'.plans)
      && (forall k :: k in db.plans ==> k in db'.plans && db'.plans[k] == db.plans[k])
      && (forall k :: k in db'.plans && k !in db.plans ==> db'.plans[k] == SeatTables.Published)
      && (forall k: PlanKey :: k in db'.plans <==>
            k in db.plans || (k.0 in db.templates && db.templates[k.0].active
                              && db.templates[k.0].endedBefore == None && Reaches(db.templates[k.0], k.1, now)))
  {
    hide Reaches, Due;
    forall k: PlanKey
      ensures k in AllDue(db, now) <==>
        k.0 in db.templates && db.templates[k.0].active && db.templates[k.0].endedBefore == None
          && Reaches(db.templates[k.0], k.1, now)
    {
      if k.0 in db.templates {
        DueMeans(db.templates[k.0], now);
        assert k == (k.0, k.1);
      }
    }
  }

  // A new series: the template, its own plan row, and whatever it reaches from there.
  lemma CreateOutcome(db: Rows, id: SeriesId, rule: string, start: Start, now: int)
    ensures var db' := CreateSeries(db, id, rule, start, now);
      if Parse(rule).None? then db' == db
      else
        Adds(Rows(db.templates[id := Template(rule, start, true, None)],
          db.plans[(id, start.instant) := SeatTables.Published]), db', id, now)
  {
    hide Adds, Extend, Parse;
    ExtendOutcome(Rows(db.templates[id := Template(rule, start, true, None)],
      db.plans[(id, start.instant) := SeatTables.Published]), id, now);
  }

  // Cancelling one occurrence and all later ones: published rows of the series from it on, and the end of the series
  // moved to it unless it ended earlier already.
  lemma CancelFutureOutcome(db: Rows, k: PlanKey)
    ensures var db' := CancelFuture(db, k);
      if k !in db.plans then db' == db
      else
        && db'.plans.Keys == db.plans.Keys
        && (forall key :: key in db.plans ==>
              db'.plans[key] ==
                if key.0 == k.0 && key.1 >= k.1 && db.plans[key] == SeatTables.Published
                  then SeatTables.CancelledPlan
                else db.plans[key])
        && db'.templates.Keys == db.templates.Keys
        && (forall id :: id in db.templates ==>
              var t := db.templates[id];
              db'.templates[id] ==
                if id != k.0 || (t.endedBefore.Some? && t.endedBefore.value <= k.1) then t
                else t.(endedBefore := Some(k.1)))
  { }

  lemma StatusOutcome(db: Rows, k: PlanKey, status: Status)
    ensures var db' := SetStatus(db, k, status);
      && db' == db.(plans := db'.plans) && db'.plans.Keys == db.plans.Keys
      && forall key :: key in db.plans ==> db'.plans[key] == if key == k then status else db.plans[key]
  { }
}
