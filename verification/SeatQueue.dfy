// The waitlist is a queue: positions are 1..N, offers go to its head, and waiting never moves anyone back.
module SeatQueue {
  import opened Finite
  import opened SeatTables
  import opened SeatRules
  import opened SeatSafety

  function NotBehind(db: Db, p: PlanId, k: SeatKey): set<SeatKey>
    requires k in db.waitlist
  {
    set j | j in WaitingRows(db, p) && Ahead(db.waitlist[j], db.waitlist[k])
  }

  function Positions(db: Db, p: PlanId, keys: set<SeatKey>): set<int>
    requires keys <= WaitingRows(db, p)
  {
    set k | k in keys :: Position(db, p, k) as int
  }

  function UpTo(n: nat): (s: set<int>)
    ensures forall i :: i in s <==> 1 <= i <= n
    ensures |s| == n
  {
    if n == 0 then {} else UpTo(n - 1) + {n}
  }

  // Of two waiting people, the one behind has the greater position.
  lemma PositionsTellApart(db: Db, p: PlanId, j: SeatKey, k: SeatKey)
    requires EntryIdsUnique(db) && j in WaitingRows(db, p) && k in WaitingRows(db, p) && j != k
    requires Ahead(db.waitlist[j], db.waitlist[k])
    ensures Position(db, p, j) < Position(db, p, k)
  {
    assert NotBehind(db, p, j) <= NotBehind(db, p, k);
    assert k in NotBehind(db, p, k) && k !in NotBehind(db, p, j);
    CardLe(NotBehind(db, p, j), NotBehind(db, p, k));
  }

  lemma PositionInRange(db: Db, p: PlanId, k: SeatKey)
    requires k in WaitingRows(db, p)
    ensures 1 <= Position(db, p, k) <= |WaitingRows(db, p)|
  {
    assert k in NotBehind(db, p, k);
    CardLe({k}, NotBehind(db, p, k));
    CardLe(NotBehind(db, p, k), WaitingRows(db, p));
  }

  lemma PositionsDiffer(db: Db, p: PlanId, j: SeatKey, k: SeatKey)
    requires EntryIdsUnique(db) && j in WaitingRows(db, p) && k in WaitingRows(db, p)
    ensures Position(db, p, j) == Position(db, p, k) ==> j == k
  {
    if j != k && Ahead(db.waitlist[j], db.waitlist[k]) {
      PositionsTellApart(db, p, j, k);
    } else if j != k {
      PositionsTellApart(db, p, k, j);
    }
  }

  lemma PositionsCount(db: Db, p: PlanId, keys: set<SeatKey>)
    requires EntryIdsUnique(db) && keys <= WaitingRows(db, p)
    ensures |Positions(db, p, keys)| == |keys|
  {
    hide Position, EntryIdsUnique;
    var f := (k: SeatKey) => if k in db.waitlist then Position(db, p, k) as int else 0;
    forall j, k | j in keys && k in keys && f(j) == f(k) ensures j == k {
      PositionsDiffer(db, p, j, k);
    }
    assert Positions(db, p, keys) == set k | k in keys :: f(k);
    CardInjective(keys, f, Positions(db, p, keys));
  }

  // The positions waitlistStatus reports are exactly 1..N, one person each.
  lemma PositionsAreOneToN(db: Db, p: PlanId)
    requires EntryIdsUnique(db)
    ensures Positions(db, p, WaitingRows(db, p)) == UpTo(|WaitingRows(db, p)|)
    ensures forall j, k ::
      j in WaitingRows(db, p) && k in WaitingRows(db, p) && Position(db, p, j) == Position(db, p, k) ==> j == k
  {
    hide Position, EntryIdsUnique;
    var rows := WaitingRows(db, p);
    forall k | k in rows ensures Position(db, p, k) as int in UpTo(|rows|) {
      PositionInRange(db, p, k);
    }
    PositionsCount(db, p, rows);
    CardLe(Positions(db, p, rows), UpTo(|rows|));
    forall j, k | j in rows && k in rows ensures Position(db, p, j) == Position(db, p, k) ==> j == k {
      PositionsDiffer(db, p, j, k);
    }
  }

  // The first `free` positions are held by exactly that many people, or by everybody.
  lemma WithinCount(db: Db, p: PlanId, free: int)
    requires EntryIdsUnique(db) && free >= 0
    ensures |Within(db, p, free)| == if free <= |WaitingRows(db, p)| then free else |WaitingRows(db, p)|
  {
    hide Position, EntryIdsUnique;
    var rows, head := WaitingRows(db, p), Within(db, p, free);
    var n := if free <= |rows| then free else |rows|;
    PositionsAreOneToN(db, p);
    forall i | i in UpTo(n) ensures i in Positions(db, p, head) {
      assert i in Positions(db, p, rows);
      var k :| k in rows && Position(db, p, k) as int == i;
      assert k in head;
    }
    forall i | i in Positions(db, p, head) ensures i in UpTo(n) {
      var k :| k in head && Position(db, p, k) as int == i;
      PositionInRange(db, p, k);
    }
    assert Positions(db, p, head) == UpTo(n);
    PositionsCount(db, p, head);
  }

  // ---- offers go to the head of the queue ----

  // What the UPDATE of offerFreedSeats does: min(free, N) people, nobody overtaken, everyone else untouched.
  lemma OffersGoToTheHead(db: Db, p: PlanId, t: int, wall: int, j: SeatKey, k: SeatKey)
    requires EntryIdsUnique(db) && p in db.plans && db.plans[p].status.Published? && wall < db.plans[p].startsAt
    requires j in WaitingRows(db, p) && k in WaitingRows(db, p) && Ahead(db.waitlist[j], db.waitlist[k])
    ensures var db' := OfferFreed(db, p, t, wall);
      && (db'.waitlist[k].status.Offered? <==> Position(db, p, k) <= FreeSeats(db, p, t))
      && (db'.waitlist[k].status.Offered? ==> db'.waitlist[j].status.Offered?
                                               && db'.waitlist[k].offerExpires == Some(wall + OFFER_TTL))
      && (db'.waitlist[k].status.Waiting? ==> db'.waitlist[k] == db.waitlist[k])
  {
    hide FreeSeats;
    if j != k {
      PositionsTellApart(db, p, j, k);
    }
  }

  // ---- who moves back, and when ----

  // The row JoinWaitlist writes for a caller it queues: a returning row keeps its id.
  function QueuedRow(db: Db, p: PlanId, v: UserId, t: int, id: nat): Entry {
    Entry(if (p, v) in db.waitlist then db.waitlist[(p, v)].id else id, Waiting, t, None)
  }

  // A queued caller goes to the back unless they have a row that is still waiting or offered.
  predicate GoesToTheBack(db: Db, p: PlanId, v: UserId) {
    (p, v) !in db.waitlist
    || db.waitlist[(p, v)].status.Left? || db.waitlist[(p, v)].status.Expired? || db.waitlist[(p, v)].status.Accepted?
  }

  // The step is a join on the plan that queues its caller with a row that is ahead of this person's.
  predicate Overtakes(db: Db, s: Step, p: PlanId, u: UserId)
    requires (p, u) in db.waitlist
  {
    && s.DoJoin? && s.p == p && JoinKindOf(db, p, s.u, s.t, s.wall).Queued?
    && GoesToTheBack(db, p, s.u) && Ahead(QueuedRow(db, p, s.u, s.t, s.entry), db.waitlist[(p, u)])
  }

  // A waiting row is either one that was waiting before, unchanged, or the one JoinWaitlist just queued.
  lemma WaitingComesFromJoining(w: World, s: Step, k: SeatKey)
    requires ForeignKeys(w.db) && k in Apply(w, s).db.waitlist && Apply(w, s).db.waitlist[k].status.Waiting?
    ensures || (k in w.db.waitlist && w.db.waitlist[k] == Apply(w, s).db.waitlist[k])
            || (&& s.DoJoin? && k == (s.p, s.u) && JoinKindOf(w.db, s.p, s.u, s.t, s.wall).Queued?
                && GoesToTheBack(w.db, s.p, s.u)
                && Apply(w, s).db.waitlist[k] == QueuedRow(w.db, s.p, s.u, s.t, s.entry))
  {
    hide ActiveHolds, HasConfirmed, Position, ViewOf, OwnPending, OwnLiveHolds, FreeSeats, Absent;
  }

  // A join leaves every other row alone, and writes its own exactly when it goes to the back.
  lemma JoinWritesOneRow(w: World, s: Step, k: SeatKey)
    requires ForeignKeys(w.db) && s.DoJoin? && JoinKindOf(w.db, s.p, s.u, s.t, s.wall).Queued?
    requires GoesToTheBack(w.db, s.p, s.u)
    ensures (s.p, s.u) in Apply(w, s).db.waitlist
    ensures Apply(w, s).db.waitlist[(s.p, s.u)] == QueuedRow(w.db, s.p, s.u, s.t, s.entry)
    ensures k in w.db.waitlist && k != (s.p, s.u) ==>
      k in Apply(w, s).db.waitlist && Apply(w, s).db.waitlist[k] == w.db.waitlist[k]
  {
    hide JoinKindOf;
  }

  ghost predicate Waits(w: World, p: PlanId, u: UserId) {
    (p, u) in w.db.waitlist && w.db.waitlist[(p, u)].status.Waiting?
  }

  // Whoever waits before and after a step has the same row, and one position more exactly when the step is a join
  // that overtakes them; otherwise no more than before.
  lemma OvertakenIff(w: World, s: Step, p: PlanId, u: UserId)
    requires ForeignKeys(w.db) && Waits(w, p, u) && Waits(Apply(w, s), p, u)
    ensures Apply(w, s).db.waitlist[(p, u)] == w.db.waitlist[(p, u)]
    ensures Position(Apply(w, s).db, p, (p, u)) > Position(w.db, p, (p, u)) <==> Overtakes(w.db, s, p, u)
    ensures Overtakes(w.db, s, p, u) ==> Position(Apply(w, s).db, p, (p, u)) == Position(w.db, p, (p, u)) + 1
  {
    hide Apply, JoinKindOf;
    var db', k := Apply(w, s).db, (p, u);
    var before, after := NotBehind(w.db, p, k), NotBehind(db', p, k);
    WaitingComesFromJoining(w, s, k);
    if Overtakes(w.db, s, p, u) {
      var j := (p, s.u);
      forall i | i in before ensures i in after {
        JoinWritesOneRow(w, s, i);
      }
      forall i | i in after ensures i in before || i == j {
        WaitingComesFromJoining(w, s, i);
      }
      JoinWritesOneRow(w, s, k);
      assert after == before + {j} && j !in before;
    } else {
      forall i | i in after ensures i in before {
        WaitingComesFromJoining(w, s, i);
      }
      CardLe(after, before);
    }
  }

  // ---- over runs ----

  ghost predicate WaitsThroughout(ws: seq<World>, p: PlanId, u: UserId) {
    forall i :: 0 <= i < |ws| ==> Waits(ws[i], p, u)
  }

  function Overtakings(ws: seq<World>, steps: seq<Step>, p: PlanId, u: UserId, n: nat): nat
    requires n <= |steps| < |ws| && forall i :: 0 <= i < |ws| ==> (p, u) in ws[i].db.waitlist
  {
    if n == 0 then 0
    else Overtakings(ws, steps, p, u, n - 1) + if Overtakes(ws[n - 1].db, steps[n - 1], p, u) then 1 else 0
  }

  lemma StepOfRun(ws: seq<World>, steps: seq<Step>, p: PlanId, u: UserId, i: nat)
    requires Run(ws, steps) && Inv(ws[0]) && WaitsThroughout(ws, p, u) && i < |steps|
    ensures (p, u) in ws[i].db.waitlist && (p, u) in ws[i + 1].db.waitlist
    ensures Position(ws[i + 1].db, p, (p, u)) > Position(ws[i].db, p, (p, u)) <==> Overtakes(ws[i].db, steps[i], p, u)
    ensures Position(ws[i + 1].db, p, (p, u)) <= Position(ws[i].db, p, (p, u)) + 1
  {
    hide Apply, Position, Overtakes, SeatsOk;
    RunKeeps(ws, steps, i);
    assert ws[i + 1] == Apply(ws[i], steps[i]);
    assert Waits(ws[i], p, u) && Waits(ws[i + 1], p, u);
    OvertakenIff(ws[i], steps[i], p, u);
  }

  // While somebody waits, their position grows by at most one for each join that overtakes them.
  lemma {:induction false} PositionGrowsByOvertakings(ws: seq<World>, steps: seq<Step>, p: PlanId, u: UserId, i: nat,
    j: nat)
    requires Run(ws, steps) && Inv(ws[0]) && WaitsThroughout(ws, p, u) && i <= j < |ws|
    ensures Position(ws[j].db, p, (p, u)) + Overtakings(ws, steps, p, u, i)
            <= Position(ws[i].db, p, (p, u)) + Overtakings(ws, steps, p, u, j)
  {
    hide Position, Overtakes, Inv, Apply, Enabled, ForeignKeys;
    if i < j {
      PositionGrowsByOvertakings(ws, steps, p, u, i, j - 1);
      StepOfRun(ws, steps, p, u, j - 1);
    }
  }

  lemma {:induction false} NoOvertakings(ws: seq<World>, steps: seq<Step>, p: PlanId, u: UserId, n: nat)
    requires n <= |steps| < |ws| && forall i :: 0 <= i < |ws| ==> (p, u) in ws[i].db.waitlist
    requires forall i :: 0 <= i < n ==> !Overtakes(ws[i].db, steps[i], p, u)
    ensures Overtakings(ws, steps, p, u, n) == 0
  {
    hide Overtakes;
    if n > 0 {
      NoOvertakings(ws, steps, p, u, n - 1);
    }
  }

  // Over any run in which a person keeps waiting: their position never grows between any two moments if and only
  // if no step of the run is a join that overtakes them.
  lemma NeverMovesBackIff(ws: seq<World>, steps: seq<Step>, p: PlanId, u: UserId)
    requires Run(ws, steps) && Inv(ws[0]) && WaitsThroughout(ws, p, u)
    ensures (forall i, j :: 0 <= i <= j < |ws| ==> Position(ws[j].db, p, (p, u)) <= Position(ws[i].db, p, (p, u)))
      <==> (forall i :: 0 <= i < |steps| ==> !Overtakes(ws[i].db, steps[i], p, u))
  {
    hide Position, Overtakes, Inv, Apply, Enabled, ForeignKeys;
    if i: nat :| i < |steps| && Overtakes(ws[i].db, steps[i], p, u) {
      StepOfRun(ws, steps, p, u, i);
      var m := i + 1;
      assert 0 <= i <= m < |ws| && Position(ws[m].db, p, (p, u)) > Position(ws[i].db, p, (p, u));
    } else {
      forall i, j | 0 <= i <= j < |ws| ensures Position(ws[j].db, p, (p, u)) <= Position(ws[i].db, p, (p, u)) {
        PositionGrowsByOvertakings(ws, steps, p, u, i, j);
        NoOvertakings(ws, steps, p, u, i);
        NoOvertakings(ws, steps, p, u, j);
      }
    }
  }

  // A strictly advancing clock: whoever joins is stamped later than everybody waiting on that plan.
  ghost predicate JoinsLater(w: World, s: Step) {
    s.DoJoin? ==> forall k :: k in WaitingRows(w.db, s.p) ==> w.db.waitlist[k].created < s.t
  }

  // Then nobody who keeps waiting ever moves back.
  lemma PositionNeverGrowsOverRuns(ws: seq<World>, steps: seq<Step>, p: PlanId, u: UserId, i: nat, j: nat)
    requires Run(ws, steps) && Inv(ws[0]) && WaitsThroughout(ws, p, u) && i <= j < |ws|
    requires forall k :: 0 <= k < |steps| ==> JoinsLater(ws[k], steps[k])
    ensures Position(ws[j].db, p, (p, u)) <= Position(ws[i].db, p, (p, u))
  {
    hide Position, JoinKindOf, Inv, Apply, Enabled, ForeignKeys;
    forall k | 0 <= k < |steps| ensures !Overtakes(ws[k].db, steps[k], p, u) {
      assert Waits(ws[k], p, u) && JoinsLater(ws[k], steps[k]);
      assert steps[k].DoJoin? && steps[k].p == p ==> (p, u) in WaitingRows(ws[k].db, p);
    }
    NeverMovesBackIff(ws, steps, p, u);
  }

  // A full plan of one seat, and one person waiting since time 20.
  const FULL: Db := EMPTY.(plans := map[1 := Plan(1, 1, 0, Published, 100, 200)],
                           bookings := map[5 := Booking(1, 3, Confirmed, 0, None)],
                           participants := map[(1, 3) := Participant(5, true, false)],
                           waitlist := map[(1, 7) := Entry(1, Waiting, 20, None)])

  lemma FullIsLegal()
    ensures Inv(World(FULL, 20))
  {
    hide SeatsOk;
    FullFits();
  }

  lemma FullFits()
    ensures SeatsOk(FULL, 1, 20)
  {
    hide Holders;
    assert Seated(FULL, 1) == {5};
    NobodyHolds(FULL, 1, 20);
    assert OfferRows(FULL, 1, 20, None) == {};
  }

  lemma NobodyHolds(db: Db, p: PlanId, t: int)
    requires forall k :: k in db.waitlist ==> !db.waitlist[k].status.Offered?
    requires forall b :: b in db.bookings ==> !db.bookings[b].status.PaymentPending?
    ensures Holders(db, p, t) == {}
  {
    assert OfferRows(db, p, t, None) == {} && PendingRows(db, p, t, None) == {};
  }

  // It does happen: a join that began at time 10 and got the plan only now takes the place in front.
  lemma EarlierStampOvertakes()
    ensures var w, s := World(FULL, 20), DoJoin(1, 8, 10, 20, 2);
      && Inv(w) && Enabled(w, s) && Overtakes(w.db, s, 1, 7)
      && Waits(w, 1, 7) && Waits(Apply(w, s), 1, 7)
      && Position(w.db, 1, (1, 7)) == 1 && Position(Apply(w, s).db, 1, (1, 7)) == 2
  {
    hide Inv, Position;
    var w, s := World(FULL, 20), DoJoin(1, 8, 10, 20, 2);
    FullIsLegal();
    JoinsFull();
    hide Apply;
    JoinWritesOneRow(w, s, (1, 7));
    OvertakenIff(w, s, 1, 7);
    FirstInLine();
  }

  lemma JoinsFull()
    ensures ForeignKeys(FULL) && JoinKindOf(FULL, 1, 8, 10, 20).Queued?
  {
    assert OfferRows(FULL, 1, 10, Some(8)) == {} && PendingRows(FULL, 1, 10, Some(8)) == {};
  }

  lemma FirstInLine()
    ensures Position(FULL, 1, (1, 7)) == 1
  {
    assert NotBehind(FULL, 1, (1, 7)) == {(1, 7)};
  }
}
