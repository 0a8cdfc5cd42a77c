// The two models of the same code agree: a transaction whose statements run with nobody in between leaves the rows
// that its rule gives, and is rolled back exactly when the rule refuses.
module SeatInterleavingRefinement {
  import opened Finite
  import opened SeatTables
  import opened SeatRules
  import opened SeatSafety
  import opened SeatInterleaving
  import opened SeatInterleavingSafety

  // Statement after statement until the commit; nothing when the transaction is rolled back.
  function Alone(db: Db, x: Txn, keys: set<SeatKey>, n: nat): Option<Db>
    decreases n
  {
    match Statement(Sees(db, x), x, keys)
    case Commit => Some(Sees(db, x))
    case Abort => None
    case Continue(y) => if n == 0 then None else Alone(db, y, keys, n - 1)
  }

  const MOST: nat := 8

  // The rows that hold seats: the statement-level machine writes no others.
  ghost predicate SameSeatRows(r: Option<Db>, db: Db) {
    r.Some? && r.value.plans == db.plans && r.value.bookings == db.bookings && r.value.waitlist == db.waitlist
  }

  function Begun(pc: Pc, t: int, p: PlanId, u: UserId): Txn {
    Txn(pc, t, p, u, false, map[], map[], map[], map[], 0)
  }

  lemma Onward(db: Db, x: Txn, keys: set<SeatKey>, n: nat, y: Txn)
    requires n > 0 && Statement(Sees(db, x), x, keys) == Continue(y)
    ensures Alone(db, x, keys, n) == Alone(db, y, keys, n - 1)
  { }

  lemma Committed(db: Db, x: Txn, keys: set<SeatKey>, n: nat)
    requires x.pc.Done?
    ensures Alone(db, x, keys, n) == Some(Sees(db, x))
  { }

  // ---- taking a seat ----

  // The end of Create and of ConfirmPaid: the count, the waitlist entry, the commit.
  lemma SeatingAlone(db: Db, x: Txn, b: BookingId, n: nat)
    requires x.pc == SeatCount(b) && x.plan in db.plans && x.closed == map[] && x.offers == map[] && x.delta == 0
    requires n >= 2
    requires x.puts.Keys == {b}
    ensures SameSeatRows(Alone(db, x, {}, n), Seat(db.(bookings := db.bookings[b := x.puts[b]]), b, x.plan, x.user))
  {
    hide Statement, Sees, Seat, Close;
    var y := x.(pc := SeatClose(b), delta := 1);
    var closed := ClosedRow(db, x);
    var z := y.(pc := Done(Seating), closed := closed);
    SeatStatements(db, x, b);
    Onward(db, x, {}, n, y);
    Onward(db, y, {}, n - 1, z);
    Committed(db, z, {}, n - 2);
    SeatInView(db, z, b);
  }

  predicate Closes(db: Db, x: Txn) {
    var k := (x.plan, x.user);
    k in db.waitlist && (db.waitlist[k].status.Waiting? || db.waitlist[k].status.Offered?)
  }

  // The waitlist row a seat uses up.
  function ClosedRow(db: Db, x: Txn): map<SeatKey, Entry> {
    var k := (x.plan, x.user);
    if Closes(db, x) then map[k := db.waitlist[k].(status := Accepted)] else map[]
  }

  lemma SeatStatements(db: Db, x: Txn, b: BookingId)
    requires x.pc == SeatCount(b) && x.closed == map[] && x.offers == map[]
    ensures var y := x.(pc := SeatClose(b), delta := 1);
      && Statement(Sees(db, x), x, {}) == Continue(y)
      && Statement(Sees(db, y), y, {}) ==
           Continue(y.(pc := Done(Seating), closed := ClosedRow(db, x)))
  {
    var y := x.(pc := SeatClose(b), delta := 1);
    assert Sees(db, y).waitlist == db.waitlist;
  }

  lemma SeatInView(db: Db, z: Txn, b: BookingId)
    requires z.plan in db.plans && z.puts.Keys == {b} && z.offers == map[] && z.delta == 1
    requires z.closed == ClosedRow(db, z)
    ensures SameSeatRows(Some(Sees(db, z)), Seat(db.(bookings := db.bookings[b := z.puts[b]]), b, z.plan, z.user))
  {
    assert Sees(db, z).bookings == db.bookings[b := z.puts[b]];
    assert Sees(db, z).waitlist == Close(db.waitlist, (z.plan, z.user), Accepted);
  }

  // Where Create goes on once it is clear that the caller may book.
  function Checked(wall: int, id: BookingId, price: int): Pc {
    if price > 0 then CreateResume(wall, id, price) else InsertSeat(id, price)
  }

  // Up to the capacity check and the duplicate check nothing is written.
  lemma CreateChecks(db: Db, p: PlanId, u: UserId, t: int, wall: int, id: BookingId)
    requires p in db.plans && db.plans[p].status.Published?
    ensures var x := Begun(CreateLock(wall, id), t, p, u);
      var plan := db.plans[p];
      var full, booked := plan.confirmed + ActiveHolds(db, p, t, Some(u)) >= plan.capacity, HasConfirmed(db, p, u);
      Alone(db, x, {}, MOST) ==
        if full || booked then None
        else Alone(db, x.(locked := true, pc := Checked(wall, id, plan.price)), {}, MOST - 3)
  {
    hide ActiveHolds, HasConfirmed, Sees;
    var x, plan := Begun(CreateLock(wall, id), t, p, u), db.plans[p];
    var y := x.(locked := true, pc := CreateHolds(wall, id, plan.capacity, plan.confirmed, plan.price));
    var z := y.(pc := CreateExisting(wall, id, plan.price));
    SeesUnwritten(db, x);
    SeesUnwritten(db, y);
    SeesUnwritten(db, z);
    Onward(db, x, {}, MOST, y);
    if plan.confirmed + ActiveHolds(db, p, t, Some(u)) < plan.capacity {
      Onward(db, y, {}, MOST - 1, z);
      if !HasConfirmed(db, p, u) {
        Onward(db, z, {}, MOST - 2, z.(pc := Checked(wall, id, plan.price)));
      }
    }
  }

  lemma HoldingAlone(db: Db, x: Txn, wall: int, id: BookingId, price: int)
    requires x.pc == CreateResume(wall, id, price) && NoWrites(x) && x.seen == map[] && id !in db.bookings
    ensures var r := Alone(db, x, {}, MOST - 3);
      if OwnLiveHolds(db, x.plan, x.user, x.t) != {} then SameSeatRows(r, db)
      else SameSeatRows(r, db.(bookings := CancelAll(db.bookings, OwnPending(db, x.plan, x.user))
                                            [id := Booking(x.plan, x.user, PaymentPending, price,
                                              Some(wall + PAYMENT_HOLD))]))
  {
    hide OwnLiveHolds, ActiveHolds, HasConfirmed;
    SeesUnwritten(db, x);
    if OwnLiveHolds(db, x.plan, x.user, x.t) != {} {
      var y := x.(pc := Done(Nothing));
      SeesUnwritten(db, y);
      Onward(db, x, {}, MOST - 3, y);
      Committed(db, y, {}, MOST - 4);
    } else {
      var y := x.(pc := CreateClear(wall, id, price));
      SeesUnwritten(db, y);
      Onward(db, x, {}, MOST - 3, y);
      ClearingAlone(db, y, wall, id, price);
    }
  }

  lemma ClearingAlone(db: Db, y: Txn, wall: int, id: BookingId, price: int)
    requires y.pc == CreateClear(wall, id, price) && NoWrites(y) && id !in db.bookings
    ensures SameSeatRows(Alone(db, y, {}, MOST - 4),
              db.(bookings := CancelAll(db.bookings, OwnPending(db, y.plan, y.user))
                              [id := Booking(y.plan, y.user, PaymentPending, price, Some(wall + PAYMENT_HOLD))]))
  {
    hide ActiveHolds, HasConfirmed, Statement, Sees, CancelAll, OwnPending;
    SeesUnwritten(db, y);
    var own := OwnPending(db, y.plan, y.user);
    PendingKnown(db, y.plan, y.user);
    var cancelled := map b | b in own :: db.bookings[b].(status := Cancelled);
    var z := y.(pc := InsertHold(wall, id, price), seen := map b | b in own :: db.bookings[b], puts := cancelled);
    var row := Booking(y.plan, y.user, PaymentPending, price, Some(wall + PAYMENT_HOLD));
    var last := z.(pc := Done(Holding), puts := cancelled[id := row]);
    ClearStatement(db, y, wall, id, price);
    Onward(db, y, {}, MOST - 4, z);
    InsertStatement(db, z, wall, id, price);
    Onward(db, z, {}, MOST - 5, last);
    Committed(db, last, {}, MOST - 6);
    HoldInView(db, last, own, id, row);
  }

  lemma PendingKnown(db: Db, p: PlanId, u: UserId)
    ensures OwnPending(db, p, u) <= db.bookings.Keys
  { }

  lemma ClearStatement(db: Db, y: Txn, wall: int, id: BookingId, price: int)
    requires y.pc == CreateClear(wall, id, price)
    ensures var own := OwnPending(db, y.plan, y.user);
      own <= db.bookings.Keys && Statement(db, y, {}) ==
        Continue(y.(pc := InsertHold(wall, id, price), seen := map b | b in own :: db.bookings[b],
                    puts := map b | b in own :: db.bookings[b].(status := Cancelled)))
  { }

  lemma InsertStatement(db: Db, z: Txn, wall: int, id: BookingId, price: int)
    requires z.pc == InsertHold(wall, id, price) && id !in db.bookings && id !in z.puts
    ensures Statement(Sees(db, z), z, {}) ==
      Continue(z.(pc := Done(Holding),
        puts := z.puts[id := Booking(z.plan, z.user, PaymentPending, price, Some(wall + PAYMENT_HOLD))]))
  { }

  lemma HoldInView(db: Db, last: Txn, own: set<BookingId>, id: BookingId, row: Booking)
    requires own <= db.bookings.Keys && id !in db.bookings && last.closed == map[] && last.offers == map[]
    requires last.delta == 0
    requires last.puts == (map b | b in own :: db.bookings[b].(status := Cancelled))[id := row]
    ensures Sees(db, last) == db.(bookings := CancelAll(db.bookings, own)[id := row])
  {
    assert db.bookings + last.puts == CancelAll(db.bookings, own)[id := row];
    assert db.waitlist + last.closed + last.offers == db.waitlist;
    assert Sees(db, last).plans == db.plans;
  }

  // Create, statement by statement, is Create.
  lemma CreateRefines(db: Db, p: PlanId, u: UserId, t: int, wall: int, id: BookingId)
    requires id !in db.bookings
    ensures var r, kind := Alone(db, Begun(CreateLock(wall, id), t, p, u), {}, MOST), CreateKindOf(db, p, u, t);
      if kind.NoPlan? || kind.PlanFull? || kind.AlreadyBooked? then r == None
      else SameSeatRows(r, Create(db, p, u, t, wall, id))
  {
    hide ActiveHolds, HasConfirmed, OwnPending, OwnLiveHolds, Sees, Seat;
    var x := Begun(CreateLock(wall, id), t, p, u);
    SeesUnwritten(db, x);
    if p in db.plans && db.plans[p].status.Published? {
      CreateChecks(db, p, u, t, wall, id);
      var price := db.plans[p].price;
      var y := x.(locked := true, pc := if price > 0 then CreateResume(wall, id, price) else InsertSeat(id, price));
      SeesUnwritten(db, y);
      if price > 0 {
        HoldingAlone(db, y, wall, id, price);
      } else {
        var z := y.(pc := SeatCount(id), puts := map[id := Booking(p, u, Confirmed, price, None)]);
        Onward(db, y, {}, MOST - 3, z);
        SeatingAlone(db, z, id, MOST - 4);
      }
    }
  }

  // ConfirmPaid, statement by statement, is ConfirmPaid: it commits exactly when it seats the booking.
  lemma ConfirmPaidRefines(db: Db, b: BookingId, t: int)
    requires ForeignKeys(db)
    ensures var r := Alone(db, Begun(PaidRead(b), t, 0, 0), {}, MOST);
      if ConfirmKindOf(db, b, t).Seats? then SameSeatRows(r, ConfirmPaid(db, b, t)) else r == None
  {
    hide ActiveHolds, HasConfirmed, Sees, Seat, ForeignKeys;
    var x := Begun(PaidRead(b), t, 0, 0);
    SeesUnwritten(db, x);
    if b in db.bookings && (db.bookings[b].status.PaymentPending? || db.bookings[b].status.Cancelled?) {
      var row := db.bookings[b];
      BookedPlan(db, b);
      var y := Begun(PaidLock(b), t, row.plan, row.user);
      Onward(db, x, {}, MOST, y);
      PaidAlone(db, b, t);
    }
  }

  // From the plan lock on.
  lemma PaidAlone(db: Db, b: BookingId, t: int)
    requires ForeignKeys(db) && b in db.bookings && db.bookings[b].plan in db.plans
    requires db.bookings[b].status.PaymentPending? || db.bookings[b].status.Cancelled?
    ensures var row := db.bookings[b];
      var r := Alone(db, Begun(PaidLock(b), t, row.plan, row.user), {}, MOST - 1);
      if ConfirmKindOf(db, b, t).Seats? then SameSeatRows(r, ConfirmPaid(db, b, t)) else r == None
  {
    hide ActiveHolds, HasConfirmed, Sees, Seat, ForeignKeys, Statement;
    var row := db.bookings[b];
    var plan := db.plans[row.plan];
    var y := Begun(PaidLock(b), t, row.plan, row.user);
    var z := y.(locked := true, pc := PaidHolds(b, plan.capacity, plan.confirmed, plan.status.Published?));
    var w := z.(pc := PaidUpdate(b));
    var v := w.(pc := SeatCount(b), seen := map[b := row],
      puts := map[b := row.(status := Confirmed, expires := None)]);
    SeesUnwritten(db, y);
    SeesUnwritten(db, z);
    SeesUnwritten(db, w);
    PaidStatements(db, y, b);
    Onward(db, y, {}, MOST - 1, z);
    if plan.status.Published? && plan.confirmed + ActiveHolds(db, row.plan, t, Some(row.user)) < plan.capacity {
      Onward(db, z, {}, MOST - 2, w);
      Onward(db, w, {}, MOST - 3, v);
      SeatingAlone(db, v, b, MOST - 4);
    }
  }

  lemma PaidStatements(db: Db, y: Txn, b: BookingId)
    requires y.pc == PaidLock(b) && b in db.bookings && y.plan in db.plans
    ensures var row, plan := db.bookings[b], db.plans[y.plan];
      var z := y.(locked := true, pc := PaidHolds(b, plan.capacity, plan.confirmed, plan.status.Published?));
      var w := z.(pc := PaidUpdate(b));
      && Statement(db, y, {}) == Continue(z)
      && Statement(db, z, {}) ==
        (if !plan.status.Published? || plan.confirmed + ActiveHolds(db, y.plan, y.t, Some(y.user)) >= plan.capacity
                                  then Abort else Continue(w))
      && Statement(db, w, {}) ==
        Continue(w.(pc := SeatCount(b), seen := map[b := row],
          puts := map[b := row.(status := Confirmed, expires := None)]))
  {
    hide ActiveHolds;
  }

  lemma BookedPlan(db: Db, b: BookingId)
    requires ForeignKeys(db) && b in db.bookings
    ensures db.bookings[b].plan in db.plans
  { }

  // ---- offering and giving back ----

  // The whole view of a transaction that is about to look at the waitlist.
  lemma OfferingAlone(db: Db, x: Txn, wall: int, n: nat)
    requires x.pc == OfferRead(wall) && x.offers == map[] && x.plan in db.plans && n >= 3
    ensures var v := Sees(db, x);
      SameSeatRows(Alone(db, x, Within(v, x.plan, FreeSeats(v, x.plan, x.t)), n), OfferFreed(v, x.plan, x.t, wall))
  {
    hide ActiveHolds, HasConfirmed, Within, Sees, OwnPending, OwnLiveHolds;
    SeesPlan(db, x);
    var v, p := Sees(db, x), x.plan;
    var free := FreeSeats(v, p, x.t);
    var keys := Within(v, p, free);
    if !v.plans[p].status.Published? || v.plans[p].startsAt <= wall {
      var y := x.(pc := Done(Offering));
      Onward(db, x, keys, n, y);
      Committed(db, y, keys, n - 1);
      SameView(db, x, y);
    } else {
      var y := x.(pc := OfferHolds(wall, v.plans[p].capacity, v.plans[p].confirmed));
      var z := y.(pc := OfferUpdate(wall, free));
      SameView(db, x, y);
      SameView(db, x, z);
      Onward(db, x, keys, n, y);
      Onward(db, y, keys, n - 1, z);
      UpdatingAlone(db, z, keys, wall, free, n - 2);
    }
  }

  lemma SameView(db: Db, x: Txn, y: Txn)
    requires y.plan == x.plan && y.puts == x.puts && y.closed == x.closed && y.offers == x.offers && y.delta == x.delta
    ensures Sees(db, y) == Sees(db, x)
  { }

  lemma UpdatingAlone(db: Db, z: Txn, keys: set<SeatKey>, wall: int, free: int, n: nat)
    requires z.pc == OfferUpdate(wall, free) && z.offers == map[] && n >= 1
    requires keys == Within(Sees(db, z), z.plan, free)
    ensures SameSeatRows(Alone(db, z, keys, n), OfferTo(Sees(db, z), keys, wall))
  {
    hide Statement, Sees, Within;
    var v := Sees(db, z);
    WithinIsSmall(v, z.plan, free);
    WithinWaits(v, z.plan, free);
    UpdateStatement(v, z, keys, wall, free);
    if |keys| <= free {
      var last := z.(pc := Done(Offering),
        offers := map k | k in keys :: v.waitlist[k].(status := Offered, offerExpires := Some(wall + OFFER_TTL)));
      Onward(db, z, keys, n, last);
      Committed(db, last, keys, n - 1);
      OffersInView(db, z, last.offers);
      assert v.waitlist + last.offers == OfferTo(v, keys, wall).waitlist;
    } else {
      var last := z.(pc := Done(Offering));
      Onward(db, z, keys, n, last);
      Committed(db, last, keys, n - 1);
      SameView(db, z, last);
      assert OfferTo(v, {}, wall).waitlist == v.waitlist;
    }
  }

  lemma WithinWaits(v: Db, p: PlanId, free: int)
    ensures Within(v, p, free) <= WaitingRows(v, p) && WaitingRows(v, p) <= v.waitlist.Keys
  { }

  lemma UpdateStatement(v: Db, z: Txn, keys: set<SeatKey>, wall: int, free: int)
    requires z.pc == OfferUpdate(wall, free) && keys <= WaitingRows(v, z.plan) && keys <= v.waitlist.Keys
    ensures Statement(v, z, keys) ==
      if |keys| <= free
      then Continue(z.(pc := Done(Offering),
        offers := map k | k in keys :: v.waitlist[k].(status := Offered, offerExpires := Some(wall + OFFER_TTL))))
      else Continue(z.(pc := Done(Offering)))
  { }

  lemma OffersInView(db: Db, z: Txn, offers: map<SeatKey, Entry>)
    requires z.offers == map[]
    ensures var v := Sees(db, z);
      Sees(db, z.(pc := Done(Offering), offers := offers)) == v.(waitlist := v.waitlist + offers)
  { }

  // Cancel, statement by statement, is Cancel, for the rows its offer statement picks when nobody holds a lock.
  lemma CancelRefines(db: Db, b: BookingId, t: int, wall: int)
    requires ForeignKeys(db)
    ensures var x := Begun(CancelLock(b, wall), t, 0, 0);
      match CancelKindOf(db, b)
      case NotFound => forall keys :: Alone(db, x, keys, MOST) == None
      case Released => forall keys :: SameSeatRows(Alone(db, x, keys, MOST), Cancel(db, b, t, wall))
      case SeatFreed =>
        var p := db.bookings[b].plan;
        SameSeatRows(Alone(db, x, Within(FreeSeat(db, b), p, FreeSeats(FreeSeat(db, b), p, t)), MOST),
          Cancel(db, b, t, wall))
  {
    hide ActiveHolds, HasConfirmed, Sees, OfferFreed, Within, FreeSeats, ForeignKeys, OwnPending, OwnLiveHolds;
    var x := Begun(CancelLock(b, wall), t, 0, 0);
    SeesUnwritten(db, x);
    if b in db.bookings {
      BookedPlan(db, b);
      if db.bookings[b].status.Confirmed? {
        CancelSeatAlone(db, b, t, wall);
      } else {
        CancelRestAlone(db, b, t, wall);
      }
    }
  }

  lemma CancelRestAlone(db: Db, b: BookingId, t: int, wall: int)
    requires ForeignKeys(db) && b in db.bookings && !db.bookings[b].status.Confirmed?
    ensures var x := Begun(CancelLock(b, wall), t, 0, 0);
      forall keys :: if db.bookings[b].status.PaymentPending?
        then SameSeatRows(Alone(db, x, keys, MOST), Cancel(db, b, t, wall))
                     else Alone(db, x, keys, MOST) == None
  {
    hide ActiveHolds, HasConfirmed, Sees, OfferFreed, ForeignKeys, OwnPending, OwnLiveHolds;
    var x, row := Begun(CancelLock(b, wall), t, 0, 0), db.bookings[b];
    var y := x.(pc := CancelUpdate(b, wall), seen := map[b := row], plan := row.plan, user := row.user);
    SeesUnwritten(db, x);
    SeesUnwritten(db, y);
    forall keys
      ensures if row.status.PaymentPending? then SameSeatRows(Alone(db, x, keys, MOST), Cancel(db, b, t, wall))
          else Alone(db, x, keys, MOST) == None
    {
      Onward(db, x, keys, MOST, y);
      if row.status.PaymentPending? {
        var z := y.(puts := map[b := row.(status := Cancelled)], pc := Done(Releasing));
        Onward(db, y, keys, MOST - 1, z);
        Committed(db, z, keys, MOST - 2);
        ReleaseInView(db, z, b, row.(status := Cancelled));
      }
    }
  }

  lemma ReleaseInView(db: Db, z: Txn, b: BookingId, row: Booking)
    requires z.puts == map[b := row] && z.closed == map[] && z.offers == map[] && z.delta == 0
    ensures Sees(db, z) == db.(bookings := db.bookings[b := row])
  {
    assert db.bookings + z.puts == db.bookings[b := row];
    assert db.waitlist + z.closed + z.offers == db.waitlist;
    assert Sees(db, z).plans == db.plans;
  }

  lemma CancelSeatAlone(db: Db, b: BookingId, t: int, wall: int)
    requires ForeignKeys(db) && b in db.bookings && db.bookings[b].status.Confirmed?
    ensures var p, freed := db.bookings[b].plan, FreeSeat(db, b);
      SameSeatRows(Alone(db, Begun(CancelLock(b, wall), t, 0, 0), Within(freed, p, FreeSeats(freed, p, t)), MOST),
        Cancel(db, b, t, wall))
  {
    hide ActiveHolds, Statement, Sees, OfferFreed, Within, FreeSeats, FreeSeat, ForeignKeys;
    var x, row := Begun(CancelLock(b, wall), t, 0, 0), db.bookings[b];
    var p := row.plan;
    BookedPlan(db, b);
    FreedPlan(db, b);
    var y := x.(pc := CancelUpdate(b, wall), seen := map[b := row], plan := p, user := row.user);
    var z := y.(puts := map[b := row.(status := Cancelled)], pc := CancelCount(b, wall));
    var o := z.(locked := true, delta := -1, pc := OfferRead(wall));
    var freed := FreeSeat(db, b);
    var keys := Within(freed, p, FreeSeats(freed, p, t));
    SeesUnwritten(db, x);
    SeesUnwritten(db, y);
    ReleaseInView(db, z, b, row.(status := Cancelled));
    FreedInView(db, o, b);
    CancelStatements(db, Sees(db, z), x, b, wall, keys);
    Onward(db, x, keys, MOST, y);
    Onward(db, y, keys, MOST - 1, z);
    Onward(db, z, keys, MOST - 2, o);
    OfferingAlone(db, o, wall, MOST - 3);
    SameOffers(Sees(db, o), freed, p, t, wall);
  }

  lemma CancelStatements(db: Db, released: Db, x: Txn, b: BookingId, wall: int, keys: set<SeatKey>)
    requires x.pc == CancelLock(b, wall) && b in db.bookings && db.bookings[b].status.Confirmed?
    requires db.bookings[b].plan in released.plans
    ensures var row := db.bookings[b];
      var y := x.(pc := CancelUpdate(b, wall), seen := map[b := row], plan := row.plan, user := row.user);
      var z := y.(puts := map[b := row.(status := Cancelled)], pc := CancelCount(b, wall));
      && Statement(db, x, keys) == Continue(y) && Statement(db, y, keys) == Continue(z)
      && Statement(released, z, keys) == Continue(z.(locked := true, delta := -1, pc := OfferRead(wall)))
  { }

  lemma FreedPlan(db: Db, b: BookingId)
    requires ForeignKeys(db) && b in db.bookings
    ensures db.bookings[b].plan in FreeSeat(db, b).plans
  { }

  lemma FreedInView(db: Db, o: Txn, b: BookingId)
    requires ForeignKeys(db) && b in db.bookings && o.plan == db.bookings[b].plan
    requires o.puts == map[b := db.bookings[b].(status := Cancelled)] && o.closed == map[] && o.offers == map[]
    requires o.delta == -1
    ensures var v, freed := Sees(db, o), FreeSeat(db, b);
      o.plan in v.plans && v.plans == freed.plans && v.bookings == freed.bookings && v.waitlist == freed.waitlist
  {
    assert db.bookings + o.puts == FreeSeat(db, b).bookings;
    assert db.waitlist + o.closed + o.offers == db.waitlist;
  }

  // Offers depend on nothing but the rows that hold seats.
  lemma SameOffers(v: Db, db: Db, p: PlanId, t: int, wall: int)
    requires p in v.plans && v.plans == db.plans && v.bookings == db.bookings && v.waitlist == db.waitlist
    ensures FreeSeats(v, p, t) == FreeSeats(db, p, t)
    ensures Within(v, p, FreeSeats(v, p, t)) == Within(db, p, FreeSeats(db, p, t))
    ensures var a, c := OfferFreed(v, p, t, wall), OfferFreed(db, p, t, wall);
      a.plans == c.plans && a.bookings == c.bookings && a.waitlist == c.waitlist
  {
    assert OfferRows(v, p, t, None) == OfferRows(db, p, t, None)
      && PendingRows(v, p, t, None) == PendingRows(db, p, t, None);
    assert WaitingRows(v, p) == WaitingRows(db, p);
    forall k | k in WaitingRows(v, p) ensures Position(v, p, k) == Position(db, p, k) {
      assert (set j | j in WaitingRows(v, p) && Ahead(v.waitlist[j], v.waitlist[k])) ==
             (set j | j in WaitingRows(db, p) && Ahead(db.waitlist[j], db.waitlist[k]));
    }
  }

  // So are the offer run on its own and leaving the queue.
  lemma OfferForPlanRefines(db: Db, p: PlanId, t: int, wall: int)
    ensures var x := Begun(OfferLock(wall), t, p, 0);
      if p !in db.plans then forall keys :: Alone(db, x, keys, MOST) == None
      else SameSeatRows(Alone(db, x, Within(db, p, FreeSeats(db, p, t)), MOST), OfferForPlan(db, p, t, wall))
  {
    hide ActiveHolds, HasConfirmed, Sees, OfferFreed, Within, OwnPending, OwnLiveHolds;
    var x := Begun(OfferLock(wall), t, p, 0);
    SeesUnwritten(db, x);
    if p in db.plans {
      var y := x.(locked := true, pc := OfferRead(wall));
      SeesUnwritten(db, y);
      Onward(db, x, Within(db, p, FreeSeats(db, p, t)), MOST, y);
      OfferingAlone(db, y, wall, MOST - 1);
    }
  }

  lemma LeaveRefines(db: Db, p: PlanId, u: UserId, t: int, wall: int)
    requires p in db.plans
    ensures var left := db.(waitlist := Close(db.waitlist, (p, u), Left));
      SameSeatRows(Alone(db, Begun(LeaveLock(wall), t, p, u), Within(left, p, FreeSeats(left, p, t)), MOST),
        Leave(db, p, u, t, wall))
  {
    hide ActiveHolds, HasConfirmed, Sees, OfferFreed, Within, OwnPending, OwnLiveHolds;
    var x, k := Begun(LeaveLock(wall), t, p, u), (p, u);
    var left := db.(waitlist := Close(db.waitlist, k, Left));
    var keys := Within(left, p, FreeSeats(left, p, t));
    var y := x.(locked := true, pc := LeaveClose(wall));
    var closed := if k in db.waitlist && (db.waitlist[k].status.Waiting? || db.waitlist[k].status.Offered?)
                  then map[k := db.waitlist[k].(status := Left)] else map[];
    var z := y.(pc := OfferRead(wall), closed := closed);
    SeesUnwritten(db, x);
    SeesUnwritten(db, y);
    Onward(db, x, keys, MOST, y);
    Onward(db, y, keys, MOST - 1, z);
    LeftInView(db, z, k);
    OfferingAlone(db, z, wall, MOST - 2);
  }

  lemma LeftInView(db: Db, z: Txn, k: SeatKey)
    requires z.puts == map[] && z.offers == map[] && z.delta == 0
    requires z.closed == if k in db.waitlist && (db.waitlist[k].status.Waiting? || db.waitlist[k].status.Offered?)
                         then map[k := db.waitlist[k].(status := Left)] else map[]
    ensures Sees(db, z) == db.(waitlist := Close(db.waitlist, k, Left))
  {
    assert db.bookings + z.puts == db.bookings;
    assert db.waitlist + z.closed + z.offers == Close(db.waitlist, k, Left);
    assert Sees(db, z).plans == db.plans;
  }
}
