// Recurring plans as rows: one template row per series, and one plan row per occurrence, keyed by
// UNIQUE (series_id, starts_at).
module Series {
  import opened Finite
  import opened Calendar
  import opened Recurrence
  import opened Occurrences
  import SeatTables

  type SeriesId = nat
  type PlanKey = (SeriesId, int) // series_id, starts_at
  type Status = SeatTables.PlanStatus

  const HORIZON: int := 60 * DAY

  // The plan_recurrences row, with the template plan's own start.
  datatype Template = Template(rule: string, start: Start, active: bool, endedBefore: Option<int>)

  datatype Rows = Rows(templates: map<SeriesId, Template>, plans: map<PlanKey, Status>)

  predicate NotEnded(endedBefore: Option<int>, t: int) {
    endedBefore.None? || t < endedBefore.value
  }

  // The occurrences a run of the job at `now` would insert.
  function Due(t: Template, now: int): set<int> {
    match Parse(t.rule)
    case None => {}
    case Some(r) => set u | u in Expand(r, t.start, now + HORIZON) && NotEnded(t.endedBefore, u)
  }

  // INSERT ... ON CONFLICT DO NOTHING
  function Insert(plans: map<PlanKey, Status>, keys: set<PlanKey>): map<PlanKey, Status> {
    map k | k in plans.Keys + keys :: if k in plans then plans[k] else SeatTables.Published
  }

  // How many rows were added.
  function NewRows(before: map<PlanKey, Status>, after: map<PlanKey, Status>): nat {
    |after.Keys - before.Keys|
  }

  function KeysOf(id: SeriesId, times: set<int>): set<PlanKey> {
    set u | u in times :: (id, u)
  }

  function Extend(db: Rows, id: SeriesId, now: int): Rows {
    if id in db.templates && db.templates[id].active
    then db.(plans := Insert(db.plans, KeysOf(id, Due(db.templates[id], now))))
    else db
  }

  predicate IsOpen(db: Rows, id: SeriesId) {
    id in db.templates && db.templates[id].active && db.templates[id].endedBefore.None?
  }

  predicate Reads(db: Rows, id: SeriesId) {
    id in db.templates && Parse(db.templates[id].rule).Some?
  }

  function AllDue(db: Rows, now: int): set<PlanKey> {
    set id, u | id in db.templates && IsOpen(db, id) && u in Due(db.templates[id], now) :: (id, u)
  }

  ghost predicate DueFor(db: Rows, k: PlanKey, now: int) {
    IsOpen(db, k.0) && k.1 in Due(db.templates[k.0], now)
  }

  function ExtendAll(db: Rows, now: int): Rows {
    db.(plans := Insert(db.plans, AllDue(db, now)))
  }

  // CreatePlan with a rule: the template is its own first occurrence, and the series is extended at once.
  function CreateSeries(db: Rows, id: SeriesId, rule: string, start: Start, now: int): Rows {
    if Parse(rule).None? then db
    else
      Extend(Rows(db.templates[id := Template(rule, start, true, None)],
        db.plans[(id, start.instant) := SeatTables.Published]), id, now)
  }

  function SetStatus(db: Rows, k: PlanKey, status: Status): Rows {
    if k in db.plans then db.(plans := db.plans[k := status]) else db
  }

  // FutureOccurrenceIDs
  predicate Future(db: Rows, k: PlanKey, key: PlanKey) {
    key in db.plans && key.0 == k.0 && key.1 >= k.1 && db.plans[key].Published?
  }

  function CancelFrom(db: Rows, k: PlanKey): Rows {
    db.(plans := map key | key in db.plans :: if Future(db, k, key) then SeatTables.CancelledPlan else db.plans[key])
  }

  // EndSeriesFrom: LEAST(COALESCE(ended_before, t), t)
  function EndFrom(db: Rows, k: PlanKey): Rows {
    if k.0 !in db.templates then db
    else
      var t := db.templates[k.0];
      var ended := if t.endedBefore.Some? && t.endedBefore.value < k.1 then t.endedBefore.value else k.1;
      db.(templates := db.templates[k.0 := t.(endedBefore := Some(ended))])
  }

  // CancelPlan with cancel_future
  function CancelFuture(db: Rows, k: PlanKey): Rows {
    if k in db.plans then EndFrom(CancelFrom(db, k), k) else db
  }

  datatype Step =
    | DoCreate(id: SeriesId, rule: string, start: Start, now: int)
    | DoExtend(id: SeriesId, now: int)
    | DoExtendAll(now: int)
    | DoCancel(k: PlanKey)
    | DoCancelFuture(k: PlanKey)
    | DoComplete(k: PlanKey)

  ghost predicate Enabled(db: Rows, s: Step) {
    match s
    case DoCreate(id, _, _, _) => id !in db.templates && forall k :: k in db.plans ==> k.0 != id
    case DoComplete(k) => k in db.plans && db.plans[k].Published?
    case _ => true
  }

  function Apply(db: Rows, s: Step): Rows {
    match s
    case DoCreate(id, rule, start, now) => CreateSeries(db, id, rule, start, now)
    case DoExtend(id, now) => Extend(db, id, now)
    case DoExtendAll(now) => ExtendAll(db, now)
    case DoCancel(k) => SetStatus(db, k, SeatTables.CancelledPlan)
    case DoCancelFuture(k) => CancelFuture(db, k)
    case DoComplete(k) => SetStatus(db, k, SeatTables.Completed)
  }

  // ---- as it runs ----

  class Store {
    var templates: map<SeriesId, Template>
    var plans: map<PlanKey, Status>

    constructor ()
      ensures Table() == Rows(map[], map[])
    {
      templates, plans := map[], map[];
    }

    function Table(): Rows
      reads this
    {
      Rows(templates, plans)
    }

    // The loop over the occurrences: skip what the series no longer reaches, insert what is missing.
    method InsertOccurrences(id: SeriesId, starts: seq<int>, endedBefore: Option<int>) returns (created: nat)
      modifies this`plans
      ensures plans == Insert(old(plans), KeysOf(id, Kept(starts, endedBefore)))
      ensures created == NewRows(old(plans), plans)
    {
      hide Insert, KeysOf, Kept, NewRows;
      created := 0;
      ghost var was := plans;
      InsertNothing(was, id);
      KeptNothing(endedBefore);
      assert starts[..0] == [];
      for i := 0 to |starts|
        invariant plans == Insert(was, KeysOf(id, Kept(starts[..i], endedBefore)))
        invariant created == NewRows(was, plans)
      {
        var u := starts[i];
        InsertStep(was, id, starts, i, endedBefore);
        if endedBefore.Some? && endedBefore.value <= u {
          continue;
        }
        if (id, u) !in plans {
          plans := plans[(id, u) := SeatTables.Published];
          created := created + 1;
        }
      }
      assert starts[..|starts|] == starts;
    }

    method ExtendSeries(id: SeriesId, now: int) returns (ok: bool, created: nat)
      modifies this`plans
      ensures Table() == Extend(old(Table()), id, now)
      ensures created == NewRows(old(plans), plans)
      ensures !ok <==> id in templates && templates[id].active && !Reads(old(Table()), id)
    {
      hide Expand, Parse, Insert, KeysOf, ValidRule, Kept;
      ok, created := true, 0;
      InsertNothing(plans, id);
      if id !in templates || !templates[id].active {
        return;
      }
      var t := templates[id];
      var rule := ParseRule(t.rule);
      if rule.None? {
        return false, 0;
      }
      Stepping(rule.value);
      var starts := ListOccurrences(rule.value, t.start, now + HORIZON);
      KeptMembers(starts, t.endedBefore);
      created := InsertOccurrences(id, starts, t.endedBefore);
    }

    // The hourly job stops with an error at the first rule that does not read; `done` are the series before it.
    method ExtendAllSeries(now: int) returns (ok: bool, total: nat, ghost done: seq<SeriesId>)
      modifies this`plans
      ensures forall id :: id in done ==> IsOpen(old(Table()), id)
      ensures Table() == Extended(old(Table()), done, now)
      ensures ok <==> forall id :: IsOpen(old(Table()), id) ==> Reads(old(Table()), id)
      ensures ok ==> Table() == ExtendAll(old(Table()), now)
      ensures total == NewRows(old(plans), plans)
    {
      hide Insert, AllDue, DueOf, Reads, IsOpen, Extended;
      ghost var db := Table();
      var ids := OpenSeries();
      ghost var n;
      ok, total, n := ExtendListed(ids, now);
      done := ids[..n];
      assert ok ==> ids[..n] == ids;
      AllExtended(db, ids, now);
    }

    // The series in turn, up to the first whose rule does not read.
    method ExtendListed(ids: seq<SeriesId>, now: int) returns (ok: bool, total: nat, ghost n: nat)
      requires forall i :: 0 <= i < |ids| ==> IsOpen(Table(), ids[i])
      modifies this`plans
      ensures n <= |ids| && (if ok then n == |ids| else n < |ids| && !Reads(old(Table()), ids[n]))
      ensures forall i :: 0 <= i < n ==> Reads(old(Table()), ids[i])
      ensures Table() == Extended(old(Table()), ids[..n], now)
      ensures total == NewRows(old(plans), plans)
    {
      hide Insert, DueOf, Reads, IsOpen, Extended, NewRows;
      ghost var db := Table();
      ok, total, n := true, 0, 0;
      NothingDue(db, ids, now);
      for i := 0 to |ids|
        invariant n == i && forall j :: 0 <= j < i ==> Reads(db, ids[j])
        invariant Table() == Extended(db, ids[..i], now)
        invariant total == NewRows(db.plans, plans)
      {
        var fine, created := ExtendNext(ids, i, now, db);
        if !fine {
          return false, total, n;
        }
        total, n := total + created, n + 1;
      }
    }

    // One series of the job's list, the ones before it being extended.
    method ExtendNext(ids: seq<SeriesId>, i: nat, now: int, ghost db: Rows) returns (fine: bool, n: nat)
      requires i < |ids| && IsOpen(db, ids[i]) && Table() == Extended(db, ids[..i], now)
      modifies this`plans
      ensures fine <==> Reads(db, ids[i])
      ensures Table() == Extended(db, ids[..if fine then i + 1 else i], now)
      ensures fine ==> NewRows(db.plans, plans) == NewRows(db.plans, old(plans)) + n
    {
      hide Due, Insert, AllDue, DueOf, Extend, Reads;
      ghost var before := plans;
      SameReads(db, before, ids[i]);
      ExtendedOneMore(db, ids, i, now, before);
      fine, n := ExtendSeries(ids[i], now);
      if !fine {
        BadRuleExtendsNothing(db, before, ids[i], now);
      }
    }

    // SELECT plan_id ... WHERE active AND ended_before IS NULL
    method OpenSeries() returns (ids: seq<SeriesId>)
      ensures forall id :: id in ids <==> IsOpen(Table(), id)
    {
      var left := set id | id in templates && templates[id].active && templates[id].endedBefore.None?;
      ghost var all := left;
      ids := [];
      while left != {}
        invariant left <= all && forall id :: id in ids <==> id in all - left
        decreases left
      {
        var id :| id in left;
        ids, left := ids + [id], left - {id};
      }
    }

    // SELECT ... ORDER BY starts_at
    method FutureOccurrences(k: PlanKey) returns (keys: seq<PlanKey>)
      ensures forall key :: key in keys <==> Future(Table(), k, key)
      ensures forall i, j :: 0 <= i < j < |keys| ==> keys[i].1 < keys[j].1
    {
      var left := set key | key in plans && Future(Table(), k, key);
      ghost var all := left;
      keys := [];
      while left != {}
        invariant left <= all && forall key :: key in keys <==> key in all - left
        invariant forall i, j :: 0 <= i < j < |keys| ==> keys[i].1 < keys[j].1
        invariant forall i, key :: 0 <= i < |keys| && key in left ==> keys[i].1 < key.1
        decreases left
      {
        EarliestExists(left, k.0);
        var key :| key in left && forall other :: other in left && other != key ==> key.1 < other.1;
        keys, left := keys + [key], left - {key};
      }
    }

    method EndSeriesFrom(k: PlanKey)
      modifies this`templates
      ensures Table() == EndFrom(old(Table()), k)
    {
      if k.0 in templates {
        var t := templates[k.0];
        var ended := k.1;
        if t.endedBefore.Some? && t.endedBefore.value < ended {
          ended := t.endedBefore.value;
        }
        templates := templates[k.0 := t.(endedBefore := Some(ended))];
      }
    }

    // CancelPlan of the plan service, the caller being allowed to
    method CancelPlan(k: PlanKey, cancelFuture: bool) returns (found: bool)
      modifies this
      ensures found <==> k in old(plans)
      ensures Table() == if cancelFuture then CancelFuture(old(Table()), k)
          else SetStatus(old(Table()), k, SeatTables.CancelledPlan)
    {
      found := k in plans;
      if !found {
        return;
      }
      if !cancelFuture {
        plans := plans[k := SeatTables.CancelledPlan];
        return;
      }
      ghost var was := Table();
      var keys := FutureOccurrences(k);
      for i := 0 to |keys|
        invariant templates == was.templates
        invariant plans == map key | key in was.plans ::
            if key in keys[..i] then SeatTables.CancelledPlan else was.plans[key]
      {
        assert keys[i] in keys;
        plans := plans[keys[i] := SeatTables.CancelledPlan];
        assert keys[..i + 1] == keys[..i] + [keys[i]];
      }
      assert keys[..|keys|] == keys;
      assert Table() == CancelFrom(was, k);
      EndSeriesFrom(k);
    }
  }

  // Occurrences of one series differ in their starts, so one of them is earliest.
  lemma {:induction false} EarliestExists(s: set<PlanKey>, id: SeriesId)
    requires s != {} && forall k :: k in s ==> k.0 == id
    ensures exists k :: k in s && forall other :: other in s && other != k ==> k.1 < other.1
    decreases |s|
  {
    var k :| k in s;
    var rest := s - {k};
    if rest == {} {
      assert s == {k};
    } else {
      EarliestExists(rest, id);
      var first :| first in rest && forall other :: other in rest && other != first ==> first.1 < other.1;
      var earliest := if k.1 < first.1 then k else first;
      forall other | other in s && other != earliest ensures earliest.1 < other.1 {
        assert k == (id, k.1) && first == (id, first.1) && other == (id, other.1);
        assert other == k || other in rest;
      }
    }
  }

  lemma SameReads(db: Rows, plans: map<PlanKey, Status>, id: SeriesId)
    ensures Reads(db.(plans := plans), id) <==> Reads(db, id)
  { }

  lemma BadRuleExtendsNothing(db: Rows, plans: map<PlanKey, Status>, id: SeriesId, now: int)
    requires id in db.templates && !Reads(db.(plans := plans), id)
    ensures Extend(db.(plans := plans), id, now) == db.(plans := plans) && !Reads(db, id)
  {
    hide Parse;
    InsertNothing(plans, id);
  }

  lemma InsertTwice(plans: map<PlanKey, Status>, a: set<PlanKey>, b: set<PlanKey>)
    ensures Insert(Insert(plans, a), b) == Insert(plans, a + b)
  {
    assert plans.Keys + (a + b) == plans.Keys + a + b;
  }

  lemma NewKeys(a: set<PlanKey>, b: set<PlanKey>, c: set<PlanKey>)
    requires a <= b <= c
    ensures |c - a| == |c - b| + |b - a|
  {
    assert c - a == (c - b) + (b - a);
  }

  lemma Stepping(r: Rule)
    requires ValidRule(r)
    ensures r.interval >= 1 && r.count >= 0
  { }

  lemma InsertNothing(plans: map<PlanKey, Status>, id: SeriesId)
    ensures KeysOf(id, {}) == {} && Insert(plans, {}) == plans && NewRows(plans, plans) == 0
  { }

  lemma KeysOfMembers(id: SeriesId, times: set<int>)
    ensures forall k: PlanKey :: k in KeysOf(id, times) <==> k.0 == id && k.1 in times
  {
    forall k: PlanKey | k.0 == id && k.1 in times ensures k in KeysOf(id, times) {
      var u := k.1;
      assert (id, u) in KeysOf(id, times);
      assert k == (id, u);
    }
  }

  // The keys due for those of the series that are open.
  function DueOf(db: Rows, ids: seq<SeriesId>, now: int): set<PlanKey> {
    if ids == [] then {}
    else
      var id := ids[|ids| - 1];
      DueOf(db, ids[..|ids| - 1], now) + if IsOpen(db, id) then KeysOf(id, Due(db.templates[id], now)) else {}
  }

  // The rows once some of the open series are extended.
  function Extended(db: Rows, ids: seq<SeriesId>, now: int): Rows {
    db.(plans := Insert(db.plans, DueOf(db, ids, now)))
  }

  lemma AllExtended(db: Rows, ids: seq<SeriesId>, now: int)
    requires forall id :: id in ids <==> IsOpen(db, id)
    ensures Extended(db, ids, now) == ExtendAll(db, now)
  {
    EverySeriesDue(db, ids, now);
  }

  lemma NothingDue(db: Rows, ids: seq<SeriesId>, now: int)
    ensures Extended(db, ids[..0], now) == db && NewRows(db.plans, db.plans) == 0
  {
    InsertNothing(db.plans, 0);
  }

  lemma DueOfNext(db: Rows, ids: seq<SeriesId>, i: nat, now: int)
    requires i < |ids| && IsOpen(db, ids[i])
    ensures DueOf(db, ids[..i + 1], now) == DueOf(db, ids[..i], now) + KeysOf(ids[i], Due(db.templates[ids[i]], now))
  {
    assert ids[..i + 1][..i] == ids[..i];
  }

  lemma ExtendedOneMore(db: Rows, ids: seq<SeriesId>, i: nat, now: int, before: map<PlanKey, Status>)
    requires i < |ids| && IsOpen(db, ids[i])
    requires before == Insert(db.plans, DueOf(db, ids[..i], now))
    ensures var after := Extend(db.(plans := before), ids[i], now).plans;
      && after == Insert(db.plans, DueOf(db, ids[..i + 1], now))
      && NewRows(db.plans, after) == NewRows(db.plans, before) + NewRows(before, after)
  {
    hide Due, Insert, KeysOf, DueOf;
    DueOfNext(db, ids, i, now);
    var more := KeysOf(ids[i], Due(db.templates[ids[i]], now));
    InsertTwice(db.plans, DueOf(db, ids[..i], now), more);
    InsertGrows(db.plans, DueOf(db, ids[..i], now));
    InsertGrows(before, more);
    NewKeys(db.plans.Keys, before.Keys, Insert(before, more).Keys);
  }

  lemma {:induction false} DueOfMembers(db: Rows, ids: seq<SeriesId>, now: int)
    ensures forall k: PlanKey :: k in DueOf(db, ids, now) <==> k.0 in ids && DueFor(db, k, now)
  {
    hide Due, KeysOf;
    if ids != [] {
      var front, last := ids[..|ids| - 1], ids[|ids| - 1];
      assert forall id :: id in ids <==> id in front || id == last;
      DueOfMembers(db, front, now);
      if IsOpen(db, last) {
        KeysOfMembers(last, Due(db.templates[last], now));
      }
    }
  }

  lemma EverySeriesDue(db: Rows, ids: seq<SeriesId>, now: int)
    requires forall id :: id in ids <==> IsOpen(db, id)
    ensures DueOf(db, ids, now) == AllDue(db, now)
  {
    hide Due, DueOf;
    DueOfMembers(db, ids, now);
    forall k: PlanKey | k in DueOf(db, ids, now) ensures k in AllDue(db, now) {
      var id, u := k.0, k.1;
      assert (id, u) in AllDue(db, now);
      assert k == (id, u);
    }
  }

  lemma InsertKey(plans: map<PlanKey, Status>, k: PlanKey)
    ensures Insert(plans, {k}) == if k in plans then plans else plans[k := SeatTables.Published]
  {
    assert k in plans ==> plans.Keys + {k} == plans.Keys;
  }

  lemma InsertOne(plans: map<PlanKey, Status>, id: SeriesId, times: set<int>, u: int)
    ensures var before, after := Insert(plans, KeysOf(id, times)), Insert(plans, KeysOf(id, times + {u}));
      && after == (if (id, u) in before then before else before[(id, u) := SeatTables.Published])
      && plans.Keys <= before.Keys
  {
    hide Insert, KeysOf;
    KeysOfAdd(id, times, u);
    InsertTwice(plans, KeysOf(id, times), {(id, u)});
    InsertKey(Insert(plans, KeysOf(id, times)), (id, u));
    InsertGrows(plans, KeysOf(id, times));
  }

  lemma OneMoreKey(was: set<PlanKey>, keys: set<PlanKey>, k: PlanKey)
    requires was <= keys && k !in keys
    ensures |(keys + {k}) - was| == |keys - was| + 1
  {
    assert (keys + {k}) - was == (keys - was) + {k};
  }

  lemma KeysOfAdd(id: SeriesId, times: set<int>, u: int)
    ensures KeysOf(id, times + {u}) == KeysOf(id, times) + {(id, u)}
  {
    KeysOfMembers(id, times);
    KeysOfMembers(id, times + {u});
    hide KeysOf;
  }

  // One turn of that loop.
  lemma InsertStep(plans: map<PlanKey, Status>, id: SeriesId, starts: seq<int>, i: nat, endedBefore: Option<int>)
    requires i < |starts|
    ensures var before, u := Insert(plans, KeysOf(id, Kept(starts[..i], endedBefore))), starts[i];
      var after := Insert(plans, KeysOf(id, Kept(starts[..i + 1], endedBefore)));
      if NotEnded(endedBefore, u) && (id, u) !in before
      then after == before[(id, u) := SeatTables.Published] && NewRows(plans, after) == NewRows(plans, before) + 1
      else after == before
  {
    hide Insert, KeysOf, Kept;
    KeptNext(starts, i, endedBefore);
    var kept, u := Kept(starts[..i], endedBefore), starts[i];
    var before := Insert(plans, KeysOf(id, kept));
    if NotEnded(endedBefore, u) {
      InsertOne(plans, id, kept, u);
      if (id, u) !in before {
        OneMoreKey(plans.Keys, before.Keys, (id, u));
        assert before[(id, u) := SeatTables.Published].Keys == before.Keys + {(id, u)};
      }
    } else {
      assert kept + {} == kept;
    }
  }

  // The times a run looks at, kept or skipped one by one.
  function Kept(times: seq<int>, endedBefore: Option<int>): set<int> {
    if times == [] then {}
    else
      var u := times[|times| - 1];
      Kept(times[..|times| - 1], endedBefore) + if NotEnded(endedBefore, u) then {u} else {}
  }

  lemma {:induction false} KeptMembers(times: seq<int>, endedBefore: Option<int>)
    ensures Kept(times, endedBefore) == set u | u in times && NotEnded(endedBefore, u)
  {
    if times != [] {
      KeptMembers(times[..|times| - 1], endedBefore);
    }
  }

  lemma KeptNothing(endedBefore: Option<int>)
    ensures Kept([], endedBefore) == {}
  { }

  lemma KeptNext(times: seq<int>, i: nat, endedBefore: Option<int>)
    requires i < |times|
    ensures Kept(times[..i + 1], endedBefore) ==
        Kept(times[..i], endedBefore) + if NotEnded(endedBefore, times[i]) then {times[i]} else {}
  {
    assert times[..i + 1][..i] == times[..i];
  }

  lemma InsertGrows(plans: map<PlanKey, Status>, keys: set<PlanKey>)
    ensures Insert(plans, keys).Keys == plans.Keys + keys
    ensures forall k :: k in plans ==> Insert(plans, keys)[k] == plans[k]
  { }
}
