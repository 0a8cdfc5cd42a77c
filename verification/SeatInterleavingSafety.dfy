// No interleaving of statements overfills a plan.
module SeatInterleavingSafety {
  import opened Finite
  import opened SeatTables
  import opened SeatRules
  import opened SeatSafety
  import opened SeatInterleaving

  // ---- what other transactions may do to the rows one transaction relies on ----

  // Every hold and offer on p after the change was there before it.
  ghost predicate NoNewHolds(db: Db, db': Db, p: PlanId) {
    && (forall b :: b in db'.bookings && db'.bookings[b].plan == p && db'.bookings[b].status.PaymentPending? ==>
          b in db.bookings && db.bookings[b] == db'.bookings[b])
    && (forall k :: k in db'.waitlist && k.0 == p && db'.waitlist[k].status.Offered? ==>
          k in db.waitlist && db.waitlist[k] == db'.waitlist[k])
  }

  lemma NoNewHoldUsers(db: Db, db': Db, p: PlanId, t: int, except: Option<UserId>)
    requires NoNewHolds(db, db', p)
    ensures HoldUsers(db', p, t, except) <= HoldUsers(db, p, t, except)
  {
    assert OfferRows(db', p, t, except) <= OfferRows(db, p, t, except);
    assert PendingRows(db', p, t, except) <= PendingRows(db, p, t, except);
  }

  ghost predicate Stable(db: Db, db': Db, y: Txn) {
    && db'.plans.Keys == db.plans.Keys
    && (forall b :: b in db.bookings ==> b in db'.bookings && db'.bookings[b].plan == db.bookings[b].plan
                                         && db'.bookings[b].user == db.bookings[b].user)
    && (forall b :: b in y.seen && b in db.bookings ==> b in db'.bookings && db'.bookings[b] == db.bookings[b])
    && (forall b :: b in y.puts && b !in y.seen && b !in db.bookings ==> b !in db'.bookings)
    && (y.locked && y.plan in db.plans ==>
          db'.plans[y.plan].capacity == db.plans[y.plan].capacity
            && db'.plans[y.plan].confirmed == db.plans[y.plan].confirmed
          && NoNewHolds(db, db', y.plan))
  }

  lemma StableRoom(db: Db, db': Db, y: Txn, now: int)
    requires Stable(db, db', y) && y.locked && y.plan in db.plans
    ensures Room(db, y, now) ==> Room(db', y, now)
  {
    NoNewHoldUsers(db, db', y.plan, now, Some(y.user));
    CardLe(HoldUsers(db', y.plan, now, Some(y.user)), HoldUsers(db, y.plan, now, Some(y.user)));
  }

  lemma BaseKeeps(db: Db, db': Db, y: Txn)
    requires Stable(db, db', y) && y.locked && y.plan in db.plans
    ensures NoNewHolds(Base(db, y), Base(db', y), y.plan)
  { }

  lemma StableSpares(db: Db, db': Db, y: Txn, now: int, n: int)
    requires Stable(db, db', y) && y.locked && y.plan in db.plans
    ensures SparesFor(db, y, now, n) ==> SparesFor(db', y, now, n)
  {
    hide HoldUsers;
    BaseKeeps(db, db', y);
    NoNewHoldUsers(Base(db, y), Base(db', y), y.plan, now, None);
    CardLe(HoldUsers(Base(db', y), y.plan, now, None), HoldUsers(Base(db, y), y.plan, now, None));
  }

  lemma StableKeeps(db: Db, db': Db, y: Txn, now: int)
    requires TxnOk(db, y, now) && Stable(db, db', y)
    ensures TxnOk(db', y, now)
  {
    hide Room, SparesFor, NoNewHolds;
    if y.locked {
      StableRoom(db, db', y, now);
      if y.pc.OfferUpdate? {
        StableSpares(db, db', y, now, y.pc.free);
      }
      StableSpares(db, db', y, now, |y.offers|);
    }
  }

  // ---- a transaction's own statements ----

  lemma SeesUnwritten(db: Db, x: Txn)
    requires NoWrites(x)
    ensures Sees(db, x) == db
  {
    assert db.bookings + x.puts == db.bookings;
    assert db.waitlist + x.closed + x.offers == db.waitlist;
    assert Sees(db, x).plans == db.plans;
  }

  // Past the guard there is room for one more person, and only the lock holder can use it up.
  lemma GuardMakesRoom(db: Db, x: Txn, now: int)
    requires TxnOk(db, x, now) && (x.pc.CreateHolds? || x.pc.PaidHolds?)
    requires x.pc.confirmed + ActiveHolds(Sees(db, x), x.plan, x.t, Some(x.user)) < x.pc.capacity
    ensures Room(db, x, now)
  {
    SeesUnwritten(db, x);
    HoldsLapse(db, x.plan, x.t, now, Some(x.user));
    HoldUsersAtMostRows(db, x.plan, now, Some(x.user));
  }

  lemma CountMakesSpares(db: Db, x: Txn, now: int)
    requires TxnOk(db, x, now) && x.pc.OfferHolds?
    ensures SparesFor(db, x, now, x.pc.capacity - x.pc.confirmed - ActiveHolds(Sees(db, x), x.plan, x.t, None))
  {
    hide Sees, HoldUsers, ActiveHolds, Statement;
    assert x.(offers := map[]) == x;
    HoldsLapse(Sees(db, x), x.plan, x.t, now, None);
    HoldUsersAtMostRows(Sees(db, x), x.plan, now, None);
  }

  lemma NewRow(db: Db, x: Txn, id: BookingId)
    ensures id !in Sees(db, x).bookings ==> id !in db.bookings && id !in x.puts
  {
  }

  lemma SeesPlan(db: Db, x: Txn)
    requires x.plan in db.plans
    ensures x.plan in Sees(db, x).plans
    ensures Sees(db, x).plans[x.plan] == db.plans[x.plan].(confirmed := db.plans[x.plan].confirmed + x.delta)
  {
  }

  lemma SameBase(db: Db, x: Txn, x': Txn)
    requires x'.puts == x.puts && x'.closed == x.closed && x'.delta == x.delta && x'.plan == x.plan
    ensures Base(db, x') == Base(db, x)
  {
  }

  lemma CreateLockStep(db: Db, x: Txn, keys: set<SeatKey>, x': Txn, now: int)
    requires TxnOk(db, x, now) && x.pc.CreateLock? && Statement(Sees(db, x), x, keys) == Continue(x')
    ensures TxnOk(db, x', now)
  {
    hide HoldUsers, ActiveHolds, HasConfirmed, Sees;
    SeesUnwritten(db, x);
  }

  lemma CreateHoldsStep(db: Db, x: Txn, keys: set<SeatKey>, x': Txn, now: int)
    requires TxnOk(db, x, now) && x.pc.CreateHolds? && Statement(Sees(db, x), x, keys) == Continue(x')
    ensures TxnOk(db, x', now)
  {
    hide HoldUsers, ActiveHolds, HasConfirmed, Sees;
    SeesUnwritten(db, x);
    GuardMakesRoom(db, x, now);
  }

  lemma CreateExistingStep(db: Db, x: Txn, keys: set<SeatKey>, x': Txn, now: int)
    requires TxnOk(db, x, now) && x.pc.CreateExisting? && Statement(Sees(db, x), x, keys) == Continue(x')
    ensures TxnOk(db, x', now)
  {
    hide HoldUsers, ActiveHolds, HasConfirmed, Sees;
    SeesUnwritten(db, x);
  }

  lemma CreateResumeStep(db: Db, x: Txn, keys: set<SeatKey>, x': Txn, now: int)
    requires TxnOk(db, x, now) && x.pc.CreateResume? && Statement(Sees(db, x), x, keys) == Continue(x')
    ensures TxnOk(db, x', now)
  {
    hide HoldUsers, ActiveHolds, HasConfirmed, Sees;
    SeesUnwritten(db, x);
  }

  lemma CreateClearStep(db: Db, x: Txn, keys: set<SeatKey>, x': Txn, now: int)
    requires TxnOk(db, x, now) && x.pc.CreateClear? && Statement(Sees(db, x), x, keys) == Continue(x')
    ensures TxnOk(db, x', now)
  {
    hide HoldUsers, ActiveHolds, HasConfirmed, Sees;
    SeesUnwritten(db, x);
  }

  lemma InsertHoldStep(db: Db, x: Txn, keys: set<SeatKey>, x': Txn, now: int)
    requires TxnOk(db, x, now) && x.pc.InsertHold? && Statement(Sees(db, x), x, keys) == Continue(x')
    ensures TxnOk(db, x', now)
  {
    hide HoldUsers, ActiveHolds, HasConfirmed, Sees;
    NewRow(db, x, x.pc.id);
  }

  lemma InsertSeatStep(db: Db, x: Txn, keys: set<SeatKey>, x': Txn, now: int)
    requires TxnOk(db, x, now) && x.pc.InsertSeat? && Statement(Sees(db, x), x, keys) == Continue(x')
    ensures TxnOk(db, x', now)
  {
    hide HoldUsers, ActiveHolds, HasConfirmed, Sees;
    SeesUnwritten(db, x);
    NewRow(db, x, x.pc.id);
  }

  lemma SeatCountStep(db: Db, x: Txn, keys: set<SeatKey>, x': Txn, now: int)
    requires TxnOk(db, x, now) && x.pc.SeatCount? && Statement(Sees(db, x), x, keys) == Continue(x')
    ensures TxnOk(db, x', now)
  {
    hide HoldUsers, ActiveHolds, HasConfirmed;
  }

  lemma SeatCloseStep(db: Db, x: Txn, keys: set<SeatKey>, x': Txn, now: int)
    requires TxnOk(db, x, now) && x.pc.SeatClose? && Statement(Sees(db, x), x, keys) == Continue(x')
    ensures TxnOk(db, x', now)
  {
    hide HoldUsers, ActiveHolds, HasConfirmed;
    assert Puts(x', x.pc.b);
  }

  lemma PaidReadStep(db: Db, x: Txn, keys: set<SeatKey>, x': Txn, now: int)
    requires TxnOk(db, x, now) && x.pc.PaidRead? && Statement(Sees(db, x), x, keys) == Continue(x')
    ensures TxnOk(db, x', now)
  {
    hide HoldUsers, ActiveHolds, HasConfirmed, Sees;
    SeesUnwritten(db, x);
  }

  lemma PaidLockStep(db: Db, x: Txn, keys: set<SeatKey>, x': Txn, now: int)
    requires TxnOk(db, x, now) && x.pc.PaidLock? && Statement(Sees(db, x), x, keys) == Continue(x')
    ensures TxnOk(db, x', now)
  {
    hide HoldUsers, ActiveHolds, HasConfirmed, Sees;
    SeesUnwritten(db, x);
  }

  lemma PaidHoldsStep(db: Db, x: Txn, keys: set<SeatKey>, x': Txn, now: int)
    requires TxnOk(db, x, now) && x.pc.PaidHolds? && Statement(Sees(db, x), x, keys) == Continue(x')
    ensures TxnOk(db, x', now)
  {
    hide HoldUsers, ActiveHolds, HasConfirmed, Sees;
    SeesUnwritten(db, x);
    GuardMakesRoom(db, x, now);
  }

  lemma PaidUpdateStep(db: Db, x: Txn, keys: set<SeatKey>, x': Txn, now: int)
    requires TxnOk(db, x, now) && x.pc.PaidUpdate? && Statement(Sees(db, x), x, keys) == Continue(x')
    ensures TxnOk(db, x', now)
  {
    hide HoldUsers, ActiveHolds, HasConfirmed, Sees;
    SeesUnwritten(db, x);
  }

  lemma CancelLockStep(db: Db, x: Txn, keys: set<SeatKey>, x': Txn, now: int)
    requires TxnOk(db, x, now) && x.pc.CancelLock? && Statement(Sees(db, x), x, keys) == Continue(x')
    ensures TxnOk(db, x', now)
  {
    hide HoldUsers, ActiveHolds, HasConfirmed, Sees;
    SeesUnwritten(db, x);
  }

  lemma CancelUpdateStep(db: Db, x: Txn, keys: set<SeatKey>, x': Txn, now: int)
    requires TxnOk(db, x, now) && x.pc.CancelUpdate? && Statement(Sees(db, x), x, keys) == Continue(x')
    ensures TxnOk(db, x', now)
  {
    hide HoldUsers, ActiveHolds, HasConfirmed, Sees;
    SeesUnwritten(db, x);
  }

  lemma CancelFrees(db: Db, x: Txn, pc: Pc)
    requires WritesOk(db, x) && x.pc.CancelCount? && x.plan in db.plans
    requires x.delta == 0 && x.pc.b in x.puts && x.puts == map[x.pc.b := x.puts[x.pc.b]]
    requires x.puts[x.pc.b].status.Cancelled? && x.pc.b in x.seen && x.seen[x.pc.b].status.Confirmed?
    requires x.seen[x.pc.b].user == x.user
    ensures var x' := x.(locked := true, delta := -1, pc := pc); WritesOk(db, x') && Frees(x')
  {
    assert x.puts.Keys == {x.pc.b};
    assert |x.puts| == |x.puts.Keys|;
  }

  lemma CancelCountStep(db: Db, x: Txn, keys: set<SeatKey>, x': Txn, now: int)
    requires TxnOk(db, x, now) && x.pc.CancelCount? && Statement(Sees(db, x), x, keys) == Continue(x')
    ensures TxnOk(db, x', now)
  {
    hide Sees, WritesOk, Frees;
    PlanSeen(db, x);
    CancelFrees(db, x, x'.pc);
  }

  lemma OfferLockStep(db: Db, x: Txn, keys: set<SeatKey>, x': Txn, now: int)
    requires TxnOk(db, x, now) && x.pc.OfferLock? && Statement(Sees(db, x), x, keys) == Continue(x')
    ensures TxnOk(db, x', now)
  {
    hide HoldUsers, ActiveHolds, HasConfirmed, Sees;
    SeesUnwritten(db, x);
  }

  lemma LeaveLockStep(db: Db, x: Txn, keys: set<SeatKey>, x': Txn, now: int)
    requires TxnOk(db, x, now) && x.pc.LeaveLock? && Statement(Sees(db, x), x, keys) == Continue(x')
    ensures TxnOk(db, x', now)
  {
    hide HoldUsers, ActiveHolds, HasConfirmed, Sees;
    SeesUnwritten(db, x);
  }

  lemma LeaveCloseStep(db: Db, x: Txn, keys: set<SeatKey>, x': Txn, now: int)
    requires TxnOk(db, x, now) && x.pc.LeaveClose? && Statement(Sees(db, x), x, keys) == Continue(x')
    ensures TxnOk(db, x', now)
  {
    hide HoldUsers, ActiveHolds, HasConfirmed, Sees;
    SeesUnwritten(db, x);
  }

  // Nothing but the program counter moves.
  lemma OnlyReads(db: Db, x: Txn, pc: Pc, now: int)
    ensures WritesOk(db, x.(pc := pc)) == WritesOk(db, x) && Frees(x.(pc := pc)) == Frees(x)
    ensures x.plan in db.plans ==> forall n :: SparesFor(db, x.(pc := pc), now, n) == SparesFor(db, x, now, n)
    ensures x.plan in db.plans ==> SparesFor(db, x, now, 0)
  {
    hide HoldUsers, Base, Sees;
    SameBase(db, x, x.(pc := pc));
  }

  lemma FreesLocked(db: Db, x: Txn)
    requires WritesOk(db, x) && Frees(x)
    ensures x.locked && x.plan in db.plans
  {
  }

  lemma OfferReadStep(db: Db, x: Txn, keys: set<SeatKey>, x': Txn, now: int)
    requires TxnOk(db, x, now) && x.pc.OfferRead? && Statement(Sees(db, x), x, keys) == Continue(x')
    ensures TxnOk(db, x', now)
  {
    hide ActiveHolds, HasConfirmed, Sees, WritesOk, Frees, SparesFor;
    FreesLocked(db, x);
    SeesPlan(db, x);
    assert x' == x.(pc := x'.pc);
    OnlyReads(db, x, x'.pc, now);
    assert |x'.offers| == 0;
  }

  lemma OfferHoldsStep(db: Db, x: Txn, keys: set<SeatKey>, x': Txn, now: int)
    requires TxnOk(db, x, now) && x.pc.OfferHolds? && Statement(Sees(db, x), x, keys) == Continue(x')
    ensures TxnOk(db, x', now)
  {
    hide ActiveHolds, HasConfirmed, Sees, WritesOk, Frees, SparesFor;
    FreesLocked(db, x);
    CountMakesSpares(db, x, now);
    OnlyReads(db, x, x'.pc, now);
  }

  lemma OffersWritten(v: Db, p: PlanId, keys: set<SeatKey>, wall: int)
    requires keys <= WaitingRows(v, p)
    ensures var offers :=
        map k | k in keys :: v.waitlist[k].(status := Offered, offerExpires := Some(wall + OFFER_TTL));
      |offers| == |keys| && forall k :: k in offers ==> k.0 == p
  {
    var offers := map k | k in keys :: v.waitlist[k].(status := Offered, offerExpires := Some(wall + OFFER_TTL));
    assert offers.Keys == keys;
    assert |offers| == |offers.Keys|;
  }

  lemma OfferUpdateWrites(v: Db, x: Txn, keys: set<SeatKey>, x': Txn)
    requires x.pc.OfferUpdate? && x.offers == map[] && Statement(v, x, keys) == Continue(x')
    ensures x' == x.(pc := Done(Offering), offers := x'.offers)
    ensures x'.offers == map[] || (|x'.offers| <= x.pc.free && forall k :: k in x'.offers ==> k.0 == x.plan)
  {
    hide WaitingRows;
    if keys <= WaitingRows(v, x.plan) && |keys| <= x.pc.free {
      OffersWritten(v, x.plan, keys, x.pc.wall);
    }
  }

  lemma OfferUpdateStep(db: Db, x: Txn, keys: set<SeatKey>, x': Txn, now: int)
    requires TxnOk(db, x, now) && x.pc.OfferUpdate? && Statement(Sees(db, x), x, keys) == Continue(x')
    ensures TxnOk(db, x', now)
  {
    hide Statement, Sees, WritesOk, Frees, SparesFor;
    OfferUpdateWrites(Sees(db, x), x, keys, x');
    FreesLocked(db, x);
    if x'.offers == map[] {
      OnlyReads(db, x, x'.pc, now);
      assert |x'.offers| == 0;
    } else {
      OffersMade(db, x, x'.offers, now, x.pc.free);
    }
  }

  lemma OffersMade(db: Db, x: Txn, offers: map<SeatKey, Entry>, now: int, free: int)
    requires WritesOk(db, x) && x.plan in db.plans && SparesFor(db, x, now, free) && Frees(x) && x.offers == map[]
    requires |offers| <= free && forall k :: k in offers ==> k.0 == x.plan
    ensures var x' := x.(pc := Done(Offering), offers := offers);
      WritesOk(db, x') && Frees(x') && SparesFor(db, x', now, |offers|)
  {
    hide HoldUsers, Base, Sees;
    SameBase(db, x, x.(pc := Done(Offering), offers := offers));
  }

  lemma PlanSeen(db: Db, x: Txn)
    ensures x.plan in Sees(db, x).plans <==> x.plan in db.plans
  {
  }

  lemma StatementKeeps(db: Db, x: Txn, keys: set<SeatKey>, x': Txn, now: int)
    requires TxnOk(db, x, now) && Statement(Sees(db, x), x, keys) == Continue(x')
    ensures TxnOk(db, x', now)
  {
    hide Sees, Statement, StageOk;
    match x.pc
    case CreateLock(_, _) => CreateLockStep(db, x, keys, x', now);
    case CreateHolds(_, _, _, _, _) => CreateHoldsStep(db, x, keys, x', now);
    case CreateExisting(_, _, _) => CreateExistingStep(db, x, keys, x', now);
    case CreateResume(_, _, _) => CreateResumeStep(db, x, keys, x', now);
    case CreateClear(_, _, _) => CreateClearStep(db, x, keys, x', now);
    case InsertHold(_, _, _) => InsertHoldStep(db, x, keys, x', now);
    case InsertSeat(_, _) => InsertSeatStep(db, x, keys, x', now);
    case SeatCount(_) => SeatCountStep(db, x, keys, x', now);
    case SeatClose(_) => SeatCloseStep(db, x, keys, x', now);
    case PaidRead(_) => PaidReadStep(db, x, keys, x', now);
    case PaidLock(_) => PaidLockStep(db, x, keys, x', now);
    case PaidHolds(_, _, _, _) => PaidHoldsStep(db, x, keys, x', now);
    case PaidUpdate(_) => PaidUpdateStep(db, x, keys, x', now);
    case CancelLock(_, _) => CancelLockStep(db, x, keys, x', now);
    case CancelUpdate(_, _) => CancelUpdateStep(db, x, keys, x', now);
    case CancelCount(_, _) => CancelCountStep(db, x, keys, x', now);
    case OfferLock(_) => OfferLockStep(db, x, keys, x', now);
    case LeaveLock(_) => LeaveLockStep(db, x, keys, x', now);
    case LeaveClose(_) => LeaveCloseStep(db, x, keys, x', now);
    case OfferRead(_) => OfferReadStep(db, x, keys, x', now);
    case OfferHolds(_, _, _) => OfferHoldsStep(db, x, keys, x', now);
    case OfferUpdate(_, _) => OfferUpdateStep(db, x, keys, x', now);
    case Done(_) => DoneCommits(db, x, keys);
  }

  lemma DoneCommits(db: Db, x: Txn, keys: set<SeatKey>)
    ensures Statement(Sees(db, x), x, keys).Commit? <==> x.pc.Done?
  {
  }

  // ---- commits ----

  lemma CommitElsewhere(db: Db, x: Txn, q: PlanId)
    requires WritesOk(db, x) && q != x.plan
    ensures SameRows(db, Sees(db, x), q)
  {
  }

  lemma SeatingCommit(db: Db, x: Txn, now: int)
    requires TxnOk(db, x, now) && x.pc == Done(Seating)
    ensures Fits(Sees(db, x), x.plan, now)
  {
    var db', p, u := Sees(db, x), x.plan, x.user;
    var b :| Puts(x, b);
    assert u in SeatedUsers(db', p) by { assert b in Seated(db', p); }
    SeatingHolders(db, x, now);
    CardLe(Holders(db', p, now), HoldUsers(db, p, now, Some(u)));
  }

  // Apart from the transaction's own user, whoever holds a seat afterwards held one before.
  lemma SeatingHolders(db: Db, x: Txn, now: int)
    requires WritesOk(db, x) && x.offers == map[]
    requires forall b :: b in x.puts && x.puts[b].status.PaymentPending? ==> x.puts[b].user == x.user
    ensures HoldUsers(Sees(db, x), x.plan, now, None) <= HoldUsers(db, x.plan, now, Some(x.user)) + {x.user}
  {
    var db' := Sees(db, x);
    forall k | k in OfferRows(db', x.plan, now, None)
      ensures k.1 != x.user ==> k in OfferRows(db, x.plan, now, Some(x.user))
    { }
    forall c | c in PendingRows(db', x.plan, now, None)
      ensures db'.bookings[c].user != x.user ==>
          c in PendingRows(db, x.plan, now, Some(x.user)) && db'.bookings[c].user == db.bookings[c].user
    {
    }
  }

  lemma HoldingCommit(db: Db, x: Txn, now: int)
    requires TxnOk(db, x, now) && x.pc == Done(Holding)
    ensures Fits(Sees(db, x), x.plan, now)
  {
    hide HoldUsers, SeatedUsers;
    var db', p, u := Sees(db, x), x.plan, x.user;
    SeatingHolders(db, x, now);
    CardLe(Holders(db', p, now), HoldUsers(db, p, now, Some(u)) + {u});
    CardUnion(HoldUsers(db, p, now, Some(u)), {u});
  }

  // A seat given up makes its user a possible holder again, nobody else.
  lemma FreeingHolds(db: Db, x: Txn, now: int)
    requires WritesOk(db, x) && Frees(x)
    ensures HoldUsers(Base(db, x), x.plan, now, None) <= HoldUsers(db, x.plan, now, None)
  {
    hide HoldUsers;
    FreeingReservesNothing(db, x);
    NoNewHoldUsers(db, Base(db, x), x.plan, now, None);
  }

  lemma FreeingReservesNothing(db: Db, x: Txn)
    requires WritesOk(db, x) && Frees(x)
    ensures NoNewHolds(db, Base(db, x), x.plan)
  {
    BaseRows(db, x);
    assert forall b :: b in x.puts ==> x.puts[b].status.Cancelled?;
    assert forall k :: k in x.closed ==> !x.closed[k].status.Offered?;
    ReservesNothing(db, Base(db, x), x.puts, x.closed, x.plan);
    hide Base, WritesOk, Frees, NoNewHolds;
  }

  lemma ReservesNothing(
    db: Db, db': Db, puts: map<BookingId, Booking>, closed: map<SeatKey, Entry>, p: PlanId)
    requires db'.bookings == db.bookings + puts && db'.waitlist == db.waitlist + closed
    requires forall b :: b in puts ==> puts[b].status.Cancelled?
    requires forall k :: k in closed ==> !closed[k].status.Offered?
    ensures NoNewHolds(db, db', p)
  { }

  lemma BaseRows(db: Db, x: Txn)
    ensures Base(db, x).bookings == db.bookings + x.puts && Base(db, x).waitlist == db.waitlist + x.closed
  {
    assert db.waitlist + x.closed + map[] == db.waitlist + x.closed;
  }

  lemma FreeingSeats(db: Db, x: Txn)
    requires WritesOk(db, x) && Frees(x)
    ensures SeatedUsers(db, x.plan) <= SeatedUsers(Base(db, x), x.plan) + if x.puts == map[] then {} else {x.user}
  {
    var db' := Base(db, x);
    forall u | u in SeatedUsers(db, x.plan) ensures u in SeatedUsers(db', x.plan) || (u == x.user && x.puts != map[]) {
      var c :| c in Seated(db, x.plan) && db.bookings[c].user == u;
      if c !in x.puts {
        assert db'.bookings[c] == db.bookings[c];
        assert c in Seated(db', x.plan);
      }
    }
  }

  lemma OffersAdd(db: Db, x: Txn, now: int)
    requires WritesOk(db, x)
    ensures HoldUsers(Sees(db, x), x.plan, now, None) <=
        HoldUsers(Base(db, x), x.plan, now, None) + (set k | k in x.offers :: k.1)
    ensures SeatedUsers(Sees(db, x), x.plan) == SeatedUsers(Base(db, x), x.plan)
    ensures x.offers == map[] ==> Sees(db, x) == Base(db, x)
  {
    var db', db1, p := Sees(db, x), Base(db, x), x.plan;
    assert Seated(db', p) == Seated(db1, p);
    assert PendingRows(db', p, now, None) == PendingRows(db1, p, now, None);
    assert OfferRows(db', p, now, None) <= OfferRows(db1, p, now, None) + x.offers.Keys;
    if x.offers == map[] {
      assert x.(offers := map[]) == x;
    }
  }

  lemma OfferingCommit(db: Db, x: Txn, now: int)
    requires TxnOk(db, x, now) && x.pc == Done(Offering) && Fits(db, x.plan, now)
    ensures Fits(Sees(db, x), x.plan, now)
  {
    hide HoldUsers, SeatedUsers, Sees, Base;
    SeesPlan(db, x);
    OffersAdd(db, x, now);
    if x.offers == map[] {
      FreeingHolds(db, x, now);
      FreeingSeats(db, x);
      NothingOffered(db, x, now);
    } else {
      OffersSpared(db, x, now);
    }
  }

  lemma NothingOffered(db: Db, x: Txn, now: int)
    requires WritesOk(db, x) && Frees(x) && Fits(db, x.plan, now)
    requires HoldUsers(Base(db, x), x.plan, now, None) <= HoldUsers(db, x.plan, now, None)
    requires SeatedUsers(db, x.plan) <= SeatedUsers(Base(db, x), x.plan) + if x.puts == map[] then {} else {x.user}
    ensures db.plans[x.plan].confirmed + x.delta + |Holders(Base(db, x), x.plan, now)| <= db.plans[x.plan].capacity
  {
    hide HoldUsers, SeatedUsers, Sees, Base, WritesOk;
    var back := if x.puts == map[] then {} else {x.user};
    CardLe(Holders(Base(db, x), x.plan, now), Holders(db, x.plan, now) + back);
    CardUnion(Holders(db, x.plan, now), back);
  }

  lemma OffersSpared(db: Db, x: Txn, now: int)
    requires WritesOk(db, x) && x.plan in db.plans && SparesFor(db, x, now, |x.offers|) && x.offers != map[]
    requires HoldUsers(Sees(db, x), x.plan, now, None) <=
        HoldUsers(Base(db, x), x.plan, now, None) + (set k | k in x.offers :: k.1)
    ensures db.plans[x.plan].confirmed + x.delta + |Holders(Sees(db, x), x.plan, now)| <= db.plans[x.plan].capacity
  {
    hide HoldUsers, SeatedUsers, Sees, Base, WritesOk;
    var users := set k | k in x.offers :: k.1;
    CardImage(x.offers.Keys, (k: SeatKey) => k.1, users);
    CardLe(Holders(Sees(db, x), x.plan, now), HoldUsers(Base(db, x), x.plan, now, None) + users);
    CardUnion(HoldUsers(Base(db, x), x.plan, now, None), users);
  }

  lemma ReleasingSets(db: Db, x: Txn, now: int)
    requires WritesOk(db, x) && Clears(x) && x.closed == map[] && x.offers == map[]
    requires forall b :: b in x.puts ==> x.puts[b].status.Cancelled?
    ensures NoNewHolds(db, Sees(db, x), x.plan)
    ensures SeatedUsers(Sees(db, x), x.plan) == SeatedUsers(db, x.plan)
  {
    assert Seated(Sees(db, x), x.plan) == Seated(db, x.plan);
  }

  lemma ReleasingCommit(db: Db, x: Txn, now: int)
    requires TxnOk(db, x, now) && x.pc == Done(Releasing) && x.plan in db.plans && Fits(db, x.plan, now)
    ensures Fits(Sees(db, x), x.plan, now)
  {
    hide HoldUsers, SeatedUsers, Sees, NoNewHolds;
    ReleasingSets(db, x, now);
    NoNewHoldUsers(db, Sees(db, x), x.plan, now, None);
    SeesPlan(db, x);
    CardLe(Holders(Sees(db, x), x.plan, now), Holders(db, x.plan, now));
  }

  lemma CommitFits(db: Db, x: Txn, now: int, p: PlanId)
    requires TxnOk(db, x, now) && x.pc.Done? && p in db.plans && Fits(db, p, now)
    ensures p in Sees(db, x).plans && Fits(Sees(db, x), p, now)
  {
    hide StageOk, HoldUsers, Seated, SeatedUsers;
    if p != x.plan {
      CommitElsewhere(db, x, p);
      SameSeated(db, Sees(db, x), p);
      SameHolds(db, Sees(db, x), p, now, None);
      assert Holders(Sees(db, x), p, now) == Holders(db, p, now);
    } else {
      match x.pc.kind
      case Seating => SeatingCommit(db, x, now);
      case Holding => HoldingCommit(db, x, now);
      case Offering => OfferingCommit(db, x, now);
      case Releasing => ReleasingCommit(db, x, now);
      case Nothing => NothingWritten(db, x, now);
    }
  }

  lemma NothingWritten(db: Db, x: Txn, now: int)
    requires TxnOk(db, x, now) && x.pc == Done(Nothing)
    ensures Sees(db, x) == db
  {
    SeesUnwritten(db, x);
  }

  lemma CommitRows(db: Db, x: Txn, y: Txn)
    requires WritesOk(db, x) && WritesOk(db, y) && Apart(x, y)
    ensures var db' := Sees(db, x);
      && (forall b :: b in db.bookings ==> b in db'.bookings && db'.bookings[b].plan == db.bookings[b].plan
                                           && db'.bookings[b].user == db.bookings[b].user)
      && (forall b :: b in y.seen && b in db.bookings ==> b in db'.bookings && db'.bookings[b] == db.bookings[b])
      && (forall b :: b in y.puts && b !in y.seen && b !in db.bookings ==> b !in db'.bookings)
  {
    assert forall b :: b in x.puts && b in db.bookings ==> b in x.seen;
  }

  // A transaction that commits without the plan row took nothing from it.
  lemma UnlockedCommits(db: Db, x: Txn, now: int)
    requires TxnOk(db, x, now) && x.pc.Done? && !x.locked
    ensures (x.pc == Done(Releasing) && x.delta == 0) || (x.pc == Done(Nothing) && NoWrites(x))
  {
    hide Room, SparesFor;
  }

  lemma CommitKeepsHolds(db: Db, x: Txn, q: PlanId, now: int)
    requires TxnOk(db, x, now) && x.pc.Done? && q in db.plans && (q == x.plan ==> !x.locked)
    ensures var db' := Sees(db, x);
      && q in db'.plans && db'.plans[q].capacity == db.plans[q].capacity
        && db'.plans[q].confirmed == db.plans[q].confirmed
      && NoNewHolds(db, db', q)
  {
    if q == x.plan {
      UnlockedCommits(db, x, now);
      hide StageOk, WritesOk;
      if x.pc == Done(Nothing) {
        SeesUnwritten(db, x);
      } else {
        ReleasingSets(db, x, now);
      }
    } else {
      CommitElsewhere(db, x, q);
      hide StageOk, WritesOk, Sees;
    }
  }

  lemma CommitStable(db: Db, x: Txn, y: Txn, now: int)
    requires TxnOk(db, x, now) && TxnOk(db, y, now) && x.pc.Done? && Apart(x, y)
    ensures Stable(db, Sees(db, x), y)
  {
    hide StageOk, Sees, NoNewHolds;
    CommitRows(db, x, y);
    SamePlans(db, x);
    if y.locked && y.plan in db.plans {
      CommitKeepsHolds(db, x, y.plan, now);
    }
  }

  // ---- every move ----

  lemma QuietStable(s: Sys, db': Db, i: TxnId)
    requires QuietBookings(s.db, db') && QuietWaitlist(s.db, db') && QuietPlans(s.db, db') && Unclaimed(s, db')
    requires i in s.txns
    ensures Stable(s.db, db', s.txns[i])
  {
    forall b | b in db'.bookings && db'.bookings[b].status.PaymentPending?
      ensures b in s.db.bookings && s.db.bookings[b] == db'.bookings[b]
    {
      assert b in s.db.bookings;
    }
  }

  lemma QuietFits(db: Db, db': Db, p: PlanId, now: int)
    requires QuietBookings(db, db') && QuietWaitlist(db, db') && QuietPlans(db, db') && p in db.plans
    requires Fits(db, p, now)
    ensures p in db'.plans && Fits(db', p, now)
  {
    QuietSets(db, db', p, now);
    CardLe(Holders(db', p, now), Holders(db, p, now));
  }

  lemma QueueFits(db: Db, k: SeatKey, e: Entry, p: PlanId, now: int)
    requires e.status.Waiting? && p in db.plans && Fits(db, p, now)
    ensures Fits(db.(waitlist := db.waitlist[k := e]), p, now)
  {
    QueueingSets(db, k, e, p, now);
    CardLe(Holders(db.(waitlist := db.waitlist[k := e]), p, now), Holders(db, p, now));
  }

  lemma LaterFits(db: Db, p: PlanId, now: int, later: int)
    requires p in db.plans && now <= later && Fits(db, p, now)
    ensures Fits(db, p, later)
  {
    HoldsLapse(db, p, now, later, None);
    CardLe(Holders(db, p, later), Holders(db, p, now));
  }

  lemma LaterOk(db: Db, x: Txn, now: int, later: int)
    requires TxnOk(db, x, now) && now <= later
    ensures TxnOk(db, x, later)
  {
    hide HoldUsers, Sees, Base;
    HoldsLapse(db, x.plan, now, later, Some(x.user));
    CardLe(HoldUsers(db, x.plan, later, Some(x.user)), HoldUsers(db, x.plan, now, Some(x.user)));
    HoldsLapse(Base(db, x), x.plan, now, later, None);
    CardLe(HoldUsers(Base(db, x), x.plan, later, None), HoldUsers(Base(db, x), x.plan, now, None));
  }

  lemma DoKeeps(s: Sys, i: TxnId, keys: set<SeatKey>, s': Sys)
    requires SysInv(s) && Next(s, Do(i, keys), s')
    ensures SysInv(s')
  {
    hide Sees, Statement, StageOk, WritesOk, Fits, Stable, Apart;
    var x := s.txns[i];
    match Statement(Sees(s.db, x), x, keys)
    case Continue(x') =>
      StatementKeeps(s.db, x, keys, x', s.now);
      assert forall j :: j in s.txns && j != i ==> Apart(s.txns[j], x') by {
        ApartIsSymmetric();
      }
    case Abort =>
    case Commit =>
      DoneCommits(s.db, x, keys);
      SamePlans(s.db, x);
      forall p | p in s'.db.plans ensures Fits(s'.db, p, s.now) { CommitFits(s.db, x, s.now, p); }
      forall j | j in s'.txns ensures TxnOk(s'.db, s'.txns[j], s.now) {
        CommitStable(s.db, x, s.txns[j], s.now);
        StableKeeps(s.db, s'.db, s.txns[j], s.now);
      }
  }

  lemma ApartIsSymmetric()
    ensures forall x, y :: Apart(x, y) ==> Apart(y, x)
  {
  }

  lemma SamePlans(db: Db, x: Txn)
    ensures Sees(db, x).plans.Keys == db.plans.Keys
  {
  }

  lemma NextKeeps(s: Sys, m: Move, s': Sys)
    requires SysInv(s) && Next(s, m, s')
    ensures SysInv(s')
  {
    hide Sees, Statement, StageOk, WritesOk, Fits, Stable;
    match m
    case Begin(i, x) => BeginKeeps(s, i, x, s');
    case Do(i, keys) => DoKeeps(s, i, keys, s');
    case Rollback(i) =>
    case Quiet(db) =>
      forall p | p in s'.db.plans ensures Fits(s'.db, p, s.now) { QuietFits(s.db, db, p, s.now); }
      forall i | i in s.txns ensures TxnOk(db, s.txns[i], s.now) {
        QuietStable(s, db, i);
        StableKeeps(s.db, db, s.txns[i], s.now);
      }
    case Queue(k, e) =>
      forall p | p in s'.db.plans ensures Fits(s'.db, p, s.now) { QueueFits(s.db, k, e, p, s.now); }
      forall i | i in s.txns ensures TxnOk(s'.db, s.txns[i], s.now) {
        QueueStable(s.db, k, e, s.txns[i]);
        StableKeeps(s.db, s'.db, s.txns[i], s.now);
      }
    case Tick(to) =>
      forall p | p in s.db.plans ensures Fits(s.db, p, to) { LaterFits(s.db, p, s.now, to); }
      forall i | i in s.txns ensures TxnOk(s.db, s.txns[i], to) { LaterOk(s.db, s.txns[i], s.now, to); }
  }

  lemma FreshOk(db: Db, x: Txn, now: int)
    requires Fresh(x, now)
    ensures TxnOk(db, x, now)
  {
    hide Room, SparesFor;
  }

  lemma FreshApart(x: Txn, y: Txn, now: int)
    requires Fresh(x, now)
    ensures Apart(x, y) && Apart(y, x)
  {
  }

  lemma BeginKeeps(s: Sys, i: TxnId, x: Txn, s': Sys)
    requires SysInv(s) && Next(s, Begin(i, x), s')
    ensures SysInv(s')
  {
    hide Fits, TxnOk, Apart, Fresh;
    FreshOk(s.db, x, s.now);
    forall j | j in s.txns ensures Apart(x, s.txns[j]) && Apart(s.txns[j], x) { FreshApart(x, s.txns[j], s.now); }
  }

  lemma QueueStable(db: Db, k: SeatKey, e: Entry, y: Txn)
    requires e.status.Waiting?
    ensures Stable(db, db.(waitlist := db.waitlist[k := e]), y)
  {
  }

  ghost predicate History(ss: seq<Sys>, moves: seq<Move>) {
    && |ss| == |moves| + 1
    && forall n :: 0 <= n < |moves| ==> Next(ss[n], moves[n], ss[n + 1])
  }

  lemma {:induction false} HistoryKeeps(ss: seq<Sys>, moves: seq<Move>, n: nat)
    requires History(ss, moves) && SysInv(ss[0]) && n < |ss|
    ensures SysInv(ss[n])
  {
    hide Next, SysInv;
    if n > 0 {
      HistoryKeeps(ss, moves, n - 1);
      assert Next(ss[n - 1], moves[n - 1], ss[n]);
      NextKeeps(ss[n - 1], moves[n - 1], ss[n]);
    }
  }

  // However the statements of any number of transactions interleave, in every committed state at every later
  // clock value the confirmed seats plus the distinct people with an unexpired hold or offer and no seat fit the
  // plan; in particular confirmed_count never exceeds capacity.
  lemma InterleavingNeverOverfills(ss: seq<Sys>, moves: seq<Move>, n: nat, p: PlanId, later: int)
    requires History(ss, moves) && n < |ss| && ss[0].txns == map[]
    requires forall q :: q in ss[0].db.plans ==> Fits(ss[0].db, q, ss[0].now)
    requires p in ss[n].db.plans && ss[n].now <= later
    ensures ss[n].db.plans[p].confirmed + |Holders(ss[n].db, p, later)| <= ss[n].db.plans[p].capacity
    ensures ss[n].db.plans[p].confirmed <= ss[n].db.plans[p].capacity
  {
    HistoryKeeps(ss, moves, n);
    LaterFits(ss[n].db, p, ss[n].now, later);
  }

  // The jobs that run as one statement are quiet moves: they seat nobody and reserve nothing.
  lemma BookingJobsAreQuiet(w: World, s: Step)
    requires ForeignKeys(w.db) && (s.DoExpirePending? || s.DoCheckIn? || s.DoMarkNoShows?)
    ensures QuietBookings(w.db, Apply(w, s).db) && QuietWaitlist(w.db, Apply(w, s).db)
    ensures QuietPlans(w.db, Apply(w, s).db)
  {
  }

  lemma PlanJobsAreQuiet(w: World, s: Step)
    requires ForeignKeys(w.db) && (s.DoExpireOffers? || s.DoExpireWaitlist? || s.DoCancelPlan? || s.DoCompleteEnded?)
    ensures QuietBookings(w.db, Apply(w, s).db) && QuietWaitlist(w.db, Apply(w, s).db)
    ensures QuietPlans(w.db, Apply(w, s).db)
  {
    hide QuietBookings, QuietWaitlist, QuietPlans, ExpireOffers, ExpireWaitlist, CancelPlan, CompleteEnded;
    match s
    case DoExpireOffers(cut) => ExpiringOffersIsQuiet(w.db, cut);
    case DoExpireWaitlist(p) => ExpiringWaitlistIsQuiet(w.db, p);
    case DoCancelPlan(p) => ClosingPlansIsQuiet(w.db, p, 0);
    case DoCompleteEnded(now) => ClosingPlansIsQuiet(w.db, 0, now);
  }

  lemma ExpiringOffersIsQuiet(db: Db, cut: int)
    ensures var db' := ExpireOffers(db, cut); QuietBookings(db, db') && QuietWaitlist(db, db') && QuietPlans(db, db')
  { }

  lemma ExpiringWaitlistIsQuiet(db: Db, p: PlanId)
    ensures var db' := ExpireWaitlist(db, p); QuietBookings(db, db') && QuietWaitlist(db, db') && QuietPlans(db, db')
  { }

  lemma ClosingPlansIsQuiet(db: Db, p: PlanId, now: int)
    ensures var db' := CancelPlan(db, p); QuietBookings(db, db') && QuietWaitlist(db, db') && QuietPlans(db, db')
    ensures var db' := CompleteEnded(db, now); QuietBookings(db, db') && QuietWaitlist(db, db') && QuietPlans(db, db')
  { }
}
