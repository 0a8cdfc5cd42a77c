// What statement interleaving does not keep: the exact seat count. ConfirmPaid reads the booking's status
// before it takes the plan lock and does not look again, so a webhook and a verification that race can both
// seat the same booking.
module SeatInterleavingAccounting {
  import opened Finite
  import opened SeatTables
  import opened SeatRules
  import opened SeatSafety
  import opened SeatInterleaving
  import opened SeatInterleavingSafety

  // A commit that seats booking b counts one person more. The number of seated bookings follows if and only if
  // the row found under the lock was not seated yet.
  lemma SeatingExactIff(db: Db, x: Txn, now: int, b: BookingId)
    requires TxnOk(db, x, now) && x.pc == Done(Seating) && Puts(x, b)
    ensures Sees(db, x).plans[x.plan].confirmed == db.plans[x.plan].confirmed + 1
    ensures |Seated(Sees(db, x), x.plan)| == |Seated(db, x.plan)| + 1 <==> !(b in x.seen && TakesSeat(x.seen[b].status))
  {
    hide HoldUsers;
    SeatingAddsOne(db, x, b);
    hide Sees, Seated;
    SeesPlan(db, x);
  }

  lemma SeatingAddsOne(db: Db, x: Txn, b: BookingId)
    requires WritesOk(db, x) && Puts(x, b)
    ensures Seated(Sees(db, x), x.plan) == Seated(db, x.plan) + {b}
    ensures b in Seated(db, x.plan) <==> b in x.seen && TakesSeat(x.seen[b].status)
  {
    assert forall c :: c in x.puts <==> c == b;
  }

  // ---- what every other move keeps ----

  // How far the count runs ahead of the seated bookings.
  function Drift(db: Db, p: PlanId): int
    requires p in db.plans
  {
    db.plans[p].confirmed - |Seated(db, p)|
  }

  // The commit about to run seats a booking that was seated already when it was found under the lock.
  predicate SeatsAgain(x: Txn, p: PlanId) {
    x.pc == Done(Seating) && x.plan == p && exists b :: b in x.puts && b in x.seen && TakesSeat(x.seen[b].status)
  }

  predicate Recounts(s: Sys, m: Move, p: PlanId) {
    m.Do? && m.i in s.txns && SeatsAgain(s.txns[m.i], p)
  }

  lemma OnlyPut(x: Txn, b: BookingId)
    requires Puts(x, b) && x.pc == Done(Seating)
    ensures SeatsAgain(x, x.plan) <==> b in x.seen && TakesSeat(x.seen[b].status)
  {
    assert forall c :: c in x.puts <==> c == b;
  }

  lemma SeatingDrifts(db: Db, x: Txn, now: int)
    requires TxnOk(db, x, now) && x.pc == Done(Seating)
    ensures x.plan in Sees(db, x).plans
    ensures Drift(Sees(db, x), x.plan) == Drift(db, x.plan) + if SeatsAgain(x, x.plan) then 1 else 0
  {
    hide Sees, Seated, HoldUsers, Room, SeatsAgain, Puts;
    var b: BookingId :| Puts(x, b);
    OnlyPut(x, b);
    SeatingExactIff(db, x, now, b);
    SeatingAddsOne(db, x, b);
    SeesPlan(db, x);
    if b in Seated(db, x.plan) {
      assert Seated(db, x.plan) + {b} == Seated(db, x.plan);
    }
  }

  lemma OfferingDrifts(db: Db, x: Txn, now: int)
    requires TxnOk(db, x, now) && x.pc == Done(Offering)
    ensures x.plan in Sees(db, x).plans && Drift(Sees(db, x), x.plan) == Drift(db, x.plan)
  {
    FreedSeats(db, x);
    hide StageOk, Sees, Seated, WritesOk;
    SeesPlan(db, x);
    CardMinus(Seated(db, x.plan), x.puts.Keys);
  }

  lemma CardMinus(a: set<BookingId>, b: set<BookingId>)
    requires b <= a
    ensures |a - b| == |a| - |b|
  { }

  lemma FreedSeats(db: Db, x: Txn)
    requires WritesOk(db, x) && Frees(x)
    ensures x.plan in db.plans && |x.puts.Keys| == -x.delta
    ensures x.puts.Keys <= Seated(db, x.plan) && Seated(Sees(db, x), x.plan) == Seated(db, x.plan) - x.puts.Keys
  { }

  lemma ClearedSeats(db: Db, x: Txn)
    requires WritesOk(db, x) && Clears(x)
    ensures Seated(Sees(db, x), x.plan) == Seated(db, x.plan)
  { }

  lemma ClearingDrifts(db: Db, x: Txn, now: int)
    requires TxnOk(db, x, now) && (x.pc == Done(Holding) || x.pc == Done(Releasing)) && x.plan in db.plans
    ensures x.plan in Sees(db, x).plans && Drift(Sees(db, x), x.plan) == Drift(db, x.plan)
  {
    hide Room, Seated;
    ClearedSeats(db, x);
  }

  // A commit changes the drift of no plan, except that seating a seated booking again adds one to its plan's.
  lemma CommitDrifts(db: Db, x: Txn, now: int, p: PlanId)
    requires TxnOk(db, x, now) && x.pc.Done? && p in db.plans
    ensures p in Sees(db, x).plans
    ensures Drift(Sees(db, x), p) == Drift(db, p) + if SeatsAgain(x, p) then 1 else 0
  {
    hide StageOk, Seated, SeatsAgain;
    SamePlans(db, x);
    if p != x.plan {
      CommitElsewhere(db, x, p);
      SameSeated(db, Sees(db, x), p);
      NotItsPlan(x, p);
    } else {
      match x.pc.kind
      case Seating => SeatingDrifts(db, x, now);
      case Holding => NotSeating(x, p); ClearingDrifts(db, x, now);
      case Offering => NotSeating(x, p); OfferingDrifts(db, x, now);
      case Releasing => NotSeating(x, p); ClearingDrifts(db, x, now);
      case Nothing => NotSeating(x, p); NothingWritten(db, x, now);
    }
  }

  lemma NotItsPlan(x: Txn, p: PlanId)
    requires x.plan != p
    ensures !SeatsAgain(x, p)
  { }

  lemma NotSeating(x: Txn, p: PlanId)
    requires x.pc != Done(Seating)
    ensures !SeatsAgain(x, p)
  { }

  // Every move of any interleaving: statements, commits, rollbacks, jobs, joins and the clock.
  lemma MoveDrifts(s: Sys, m: Move, s': Sys, p: PlanId)
    requires SysInv(s) && Next(s, m, s') && p in s.db.plans
    ensures p in s'.db.plans && Drift(s'.db, p) == Drift(s.db, p) + if Recounts(s, m, p) then 1 else 0
  {
    hide Sees, StageOk, WritesOk, Fits, Seated, Statement, SeatsAgain, Apart;
    match m
    case Do(i, keys) =>
      var x := s.txns[i];
      DoneCommits(s.db, x, keys);
      if x.pc.Done? {
        CommitDrifts(s.db, x, s.now, p);
      } else {
        NotSeating(x, p);
      }
    case Quiet(db) => QuietSets(s.db, db, p, s.now);
    case Queue(k, e) => QueueingSets(s.db, k, e, p, s.now);
    case Begin(_, _) =>
    case Rollback(_) =>
    case Tick(_) =>
  }

  // ---- over histories ----

  // How often a history seats a seated booking of the plan again.
  function Recountings(ss: seq<Sys>, moves: seq<Move>, p: PlanId, n: nat): nat
    requires n <= |moves| < |ss|
  {
    if n == 0 then 0 else Recountings(ss, moves, p, n - 1) + if Recounts(ss[n - 1], moves[n - 1], p) then 1 else 0
  }

  lemma {:induction false} DriftCountsRecountings(ss: seq<Sys>, moves: seq<Move>, p: PlanId, n: nat)
    requires History(ss, moves) && SysInv(ss[0]) && p in ss[0].db.plans && n < |ss|
    ensures p in ss[n].db.plans && Drift(ss[n].db, p) == Drift(ss[0].db, p) + Recountings(ss, moves, p, n)
  {
    hide Next, SysInv, Recounts, Drift;
    if n > 0 {
      DriftCountsRecountings(ss, moves, p, n - 1);
      HistoryKeeps(ss, moves, n - 1);
      assert Next(ss[n - 1], moves[n - 1], ss[n]);
      MoveDrifts(ss[n - 1], moves[n - 1], ss[n], p);
    }
  }

  lemma {:induction false} NoRecountings(ss: seq<Sys>, moves: seq<Move>, p: PlanId, n: nat)
    requires n <= |moves| < |ss|
    ensures Recountings(ss, moves, p, n) == 0 <==> forall k :: 0 <= k < n ==> !Recounts(ss[k], moves[k], p)
  {
    hide Recounts;
    if n > 0 {
      NoRecountings(ss, moves, p, n - 1);
    }
  }

  // From an exact count: however the statements interleave, a committed state counts exactly the seated bookings
  // if and only if no commit before it seated a booking that was already seated when it was found under the lock.
  lemma ExactOverHistoriesIff(ss: seq<Sys>, moves: seq<Move>, p: PlanId, n: nat)
    requires History(ss, moves) && SysInv(ss[0]) && p in ss[0].db.plans && n < |ss|
    requires ss[0].db.plans[p].confirmed == |Seated(ss[0].db, p)|
    ensures p in ss[n].db.plans
    ensures ss[n].db.plans[p].confirmed == |Seated(ss[n].db, p)| <==> forall k :: 0 <= k < n ==>
        !Recounts(ss[k], moves[k], p)
  {
    hide Next, SysInv, Recounts, Seated;
    DriftCountsRecountings(ss, moves, p, n);
    NoRecountings(ss, moves, p, n);
  }

  // ---- it happens ----

  // One plan of two seats, `count` of them counted, and one paid booking.
  function Shop(count: int, row: Booking): Db {
    EMPTY.(plans := map[1 := Plan(2, count, 500, Published, 1000, 2000)], bookings := map[9 := row])
  }

  const PENDING: Booking := Booking(1, 1, PaymentPending, 500, Some(100))
  const SEATED: Booking := Booking(1, 1, Confirmed, 500, None)
  const START: Txn := Txn(PaidRead(9), 10, 0, 0, false, map[], map[], map[], map[], 0)
  const READY: Txn := Txn(PaidLock(9), 10, 1, 1, false, map[], map[], map[], map[], 0)

  // The statements of ConfirmPaid from the plan lock to the commit.
  function Stage(n: nat, count: int, row: Booking): Txn {
    match n
    case 0 => READY
    case 1 => READY.(locked := true, pc := PaidHolds(9, 2, count, true))
    case 2 => READY.(locked := true, pc := PaidUpdate(9))
    case 3 => READY.(locked := true, pc := SeatCount(9), seen := map[9 := row], puts := map[9 := SEATED])
    case 4 => READY.(locked := true, pc := SeatClose(9), seen := map[9 := row], puts := map[9 := SEATED], delta := 1)
    case _ => READY.(locked := true, pc := Done(Seating), seen := map[9 := row], puts := map[9 := SEATED], delta := 1)
  }

  lemma NobodyElseHolds(count: int, row: Booking)
    requires row.plan == 1 && row.user == 1
    ensures ActiveHolds(Shop(count, row), 1, 10, Some(1)) == 0
  {
    assert OfferRows(Shop(count, row), 1, 10, Some(1)) == {} && PendingRows(Shop(count, row), 1, 10, Some(1)) == {};
  }

  lemma StageFollows(n: nat, count: int, row: Booking)
    requires n < 5 && count < 2 && (row == PENDING || row == SEATED)
    ensures Statement(Sees(Shop(count, row), Stage(n, count, row)), Stage(n, count, row), {}) ==
        Continue(Stage(n + 1, count, row))
  {
    NobodyElseHolds(count, row);
    if n <= 2 {
      SeesUnwritten(Shop(count, row), Stage(n, count, row));
    }
  }

  lemma StageCommits(count: int, row: Booking)
    requires row == PENDING || row == SEATED
    ensures Sees(Shop(count, row), Stage(5, count, row)) == Shop(count + 1, SEATED)
  {
  }

  // Both transactions read `payment_pending`; then one runs to its commit, then the other.
  function Course(n: int): Sys {
    if n <= 0 then Sys(Shop(0, PENDING), 10, map[])
    else if n == 1 then Sys(Shop(0, PENDING), 10, map[1 := START])
    else if n == 2 then Sys(Shop(0, PENDING), 10, map[1 := START, 2 := START])
    else if n == 3 then Sys(Shop(0, PENDING), 10, map[1 := READY, 2 := START])
    else if n <= 9 then Sys(Shop(0, PENDING), 10, map[1 := Stage(n - 4, 0, PENDING), 2 := READY])
    else if n <= 15 then Sys(Shop(1, SEATED), 10, map[2 := Stage(n - 10, 1, SEATED)])
    else Sys(Shop(2, SEATED), 10, map[])
  }

  function Moves(n: int): Move {
    if n <= 0 then Begin(1, START)
    else if n == 1 then Begin(2, START)
    else if n == 2 then Do(1, {})
    else if n == 3 then Do(2, {})
    else if n <= 9 then Do(1, {})
    else Do(2, {})
  }

  lemma ReadingPending()
    ensures Statement(Sees(Shop(0, PENDING), START), START, {}) == Continue(READY)
  {
    SeesUnwritten(Shop(0, PENDING), START);
  }

  lemma CourseOpens(n: nat)
    requires n < 4
    ensures Next(Course(n), Moves(n), Course(n + 1))
  {
    hide Statement, Sees;
    ReadingPending();
  }

  lemma FirstConfirms(n: nat)
    requires 4 <= n <= 9
    ensures Next(Course(n), Moves(n), Course(n + 1))
  {
    hide Statement, Sees;
    var x := Stage(n - 4, 0, PENDING);
    if n < 9 {
      StageFollows(n - 4, 0, PENDING);
    } else {
      DoneCommits(Shop(0, PENDING), x, {});
      StageCommits(0, PENDING);
      assert Course(9).txns - {1} == Course(10).txns;
    }
  }

  lemma SecondConfirms(n: nat)
    requires 10 <= n <= 15
    ensures Next(Course(n), Moves(n), Course(n + 1))
  {
    hide Statement, Sees;
    var x := Stage(n - 10, 1, SEATED);
    if n < 15 {
      StageFollows(n - 10, 1, SEATED);
    } else {
      DoneCommits(Shop(1, SEATED), x, {});
      StageCommits(1, SEATED);
      assert Course(15).txns - {2} == Course(16).txns;
    }
  }

  lemma CourseFollows(n: nat)
    requires n < 16
    ensures Next(Course(n), Moves(n), Course(n + 1))
  {
    hide Next, Course, Moves;
    if n < 4 {
      CourseOpens(n);
    } else if n <= 9 {
      FirstConfirms(n);
    } else {
      SecondConfirms(n);
    }
  }

  // A history of the code that starts exact and legal and ends with two seats counted and one booking seated.
  lemma RacingConfirmationsMiscount()
    ensures var ss, moves := seq(17, n => Course(n)), seq(16, n => Moves(n));
      && History(ss, moves) && SysInv(ss[0])
      && ss[0].db.plans[1].confirmed == |Seated(ss[0].db, 1)| == 0
      && 1 in ss[16].db.plans && ss[16].db.plans[1].confirmed == 2 && |Seated(ss[16].db, 1)| == 1
  {
    hide Next, Fits;
    var ss, moves := seq(17, n => Course(n)), seq(16, n => Moves(n));
    forall n | 0 <= n < 16 ensures Next(ss[n], moves[n], ss[n + 1]) {
      hide Course, Moves;
      CourseFollows(n);
    }
    assert Seated(ss[0].db, 1) == {} && Seated(ss[16].db, 1) == {9};
    ShopFits();
  }

  lemma ShopFits()
    ensures Fits(Shop(0, PENDING), 1, 10)
  {
    var db := Shop(0, PENDING);
    assert OfferRows(db, 1, 10, None) == {} && PendingRows(db, 1, 10, None) == {9};
    assert HoldUsers(db, 1, 10, None) == {1};
    CardLe(Holders(db, 1, 10), HoldUsers(db, 1, 10, None));
  }
}
