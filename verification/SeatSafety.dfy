// What every transaction of internal/bookings keeps, and safety over whole runs.
module SeatSafety {
  import opened Finite
  import opened SeatTables
  import opened SeatRules

  // ---- the invariant ----

  // Every participant row marked confirmed names a seated booking of that same plan and user.
  ghost predicate ParticipantsSeated(db: Db) {
    forall k :: k in db.participants && db.participants[k].confirmed ==>
      var b := db.participants[k].booking;
      b in db.bookings && db.bookings[b].plan == k.0 && db.bookings[b].user == k.1 && TakesSeat(db.bookings[b].status)
  }

  // Nobody queues for, or is offered, a seat they already booked.
  ghost predicate QueueUnbooked(db: Db) {
    forall k :: k in db.waitlist && (db.waitlist[k].status.Waiting? || db.waitlist[k].status.Offered?) ==>
      !HasConfirmed(db, k.0, k.1)
  }

  // One unfinished payment per person and plan.
  ghost predicate PendingUnique(db: Db) {
    forall b, c ::
      (&& b in db.bookings && c in db.bookings
       && db.bookings[b].status.PaymentPending? && db.bookings[c].status.PaymentPending?
       && db.bookings[b].plan == db.bookings[c].plan && db.bookings[b].user == db.bookings[c].user) ==> b == c
  }

  ghost predicate EntryIdsUnique(db: Db) {
    forall j, k :: j in db.waitlist && k in db.waitlist && db.waitlist[j].id == db.waitlist[k].id ==> j == k
  }

  ghost predicate TablesOk(db: Db) {
    ForeignKeys(db) && ParticipantsSeated(db) && QueueUnbooked(db) && PendingUnique(db) && EntryIdsUnique(db)
  }

  // The seat count is exact, and seats plus people holding one fit the plan. On a free plan even the
  // offer rows fit, because nobody can hold two.
  ghost predicate SeatsOk(db: Db, p: PlanId, now: int)
    requires p in db.plans
  {
    && db.plans[p].confirmed == |Seated(db, p)|
    && db.plans[p].confirmed + |Holders(db, p, now)| <= db.plans[p].capacity
    && (db.plans[p].price <= 0 ==> NothingPending(db, p)
                                   && db.plans[p].confirmed + |OfferRows(db, p, now, None)| <= db.plans[p].capacity)
  }

  ghost predicate NothingPending(db: Db, p: PlanId) {
    forall b :: b in db.bookings && db.bookings[b].plan == p ==> !db.bookings[b].status.PaymentPending?
  }

  ghost predicate Inv(w: World) {
    TablesOk(w.db) && forall p :: p in w.db.plans ==> SeatsOk(w.db, p, w.now)
  }

  // ---- plans a transaction does not touch ----

  ghost predicate SameRows(db: Db, db': Db, q: PlanId) {
    && (q in db.plans <==> q in db'.plans) && (q in db.plans ==> db'.plans[q] == db.plans[q])
    && (forall b :: b in db.bookings && db.bookings[b].plan == q ==>
      b in db'.bookings && db'.bookings[b] == db.bookings[b])
    && (forall b :: b in db'.bookings && db'.bookings[b].plan == q ==>
      b in db.bookings && db.bookings[b] == db'.bookings[b])
    && (forall k :: k in db.waitlist && k.0 == q ==> k in db'.waitlist && db'.waitlist[k] == db.waitlist[k])
    && (forall k :: k in db'.waitlist && k.0 == q ==> k in db.waitlist && db.waitlist[k] == db'.waitlist[k])
  }

  lemma SameSeated(db: Db, db': Db, q: PlanId)
    requires SameRows(db, db', q)
    ensures Seated(db', q) == Seated(db, q)
    ensures SeatedUsers(db', q) == SeatedUsers(db, q)
  {
    assert Seated(db', q) == Seated(db, q);
  }

  lemma SameHolds(db: Db, db': Db, q: PlanId, t: int, except: Option<UserId>)
    requires SameRows(db, db', q)
    ensures OfferRows(db', q, t, except) == OfferRows(db, q, t, except)
    ensures PendingRows(db', q, t, except) == PendingRows(db, q, t, except)
    ensures HoldUsers(db', q, t, except) == HoldUsers(db, q, t, except)
  {
    assert OfferRows(db', q, t, except) == OfferRows(db, q, t, except);
    assert PendingRows(db', q, t, except) == PendingRows(db, q, t, except);
  }

  lemma UntouchedPlan(db: Db, db': Db, q: PlanId, now: int)
    requires SameRows(db, db', q) && q in db.plans && SeatsOk(db, q, now)
    ensures SeatsOk(db', q, now)
  {
    SameSeated(db, db', q);
    SameHolds(db, db', q, now, None);
    assert Holders(db', q, now) == Holders(db, q, now);
  }

  // A change that moves no seat and reserves none.
  ghost predicate Shrinks(db: Db, db': Db, p: PlanId, now: int)
    requires p in db.plans
  {
    && p in db'.plans && db'.plans[p].capacity == db.plans[p].capacity
    && db'.plans[p].confirmed == db.plans[p].confirmed && db'.plans[p].price == db.plans[p].price
    && Seated(db', p) == Seated(db, p) && SeatedUsers(db', p) == SeatedUsers(db, p)
    && OfferRows(db', p, now, None) <= OfferRows(db, p, now, None)
    && HoldUsers(db', p, now, None) <= HoldUsers(db, p, now, None)
    && (NothingPending(db, p) ==> NothingPending(db', p))
  }

  lemma ShrinkingKeeps(db: Db, db': Db, p: PlanId, now: int)
    requires p in db.plans && SeatsOk(db, p, now) && Shrinks(db, db', p, now)
    ensures SeatsOk(db', p, now)
  {
    CardLe(OfferRows(db', p, now, None), OfferRows(db, p, now, None));
    CardLe(Holders(db', p, now), Holders(db, p, now));
  }

  // ---- taking a seat ----

  // The rows after a booking of (p, u) is confirmed and seated.
  function SeatBooking(db: Db, b: BookingId, row: Booking): Db
    requires row.plan in db.plans
  {
    Seat(db.(bookings := db.bookings[b := row]), b, row.plan, row.user)
  }

  ghost predicate MayBecome(db: Db, b: BookingId, row: Booking) {
    && row.status.Confirmed? && row.plan in db.plans
    && (b in db.bookings ==> db.bookings[b].plan == row.plan && db.bookings[b].user == row.user
                             && !TakesSeat(db.bookings[b].status))
  }

  lemma SeatingSeats(db: Db, b: BookingId, row: Booking)
    requires MayBecome(db, b, row)
    ensures Seated(SeatBooking(db, b, row), row.plan) == Seated(db, row.plan) + {b}
    ensures b !in Seated(db, row.plan)
    ensures row.user in SeatedUsers(SeatBooking(db, b, row), row.plan)
  {
    var db' := SeatBooking(db, b, row);
    assert Seated(db', row.plan) == Seated(db, row.plan) + {b};
    assert db'.bookings[b].user == row.user;
  }

  lemma SeatingHolds(db: Db, b: BookingId, row: Booking, now: int)
    requires MayBecome(db, b, row)
    ensures OfferRows(SeatBooking(db, b, row), row.plan, now, None) <= OfferRows(db, row.plan, now, Some(row.user))
    ensures HoldUsers(SeatBooking(db, b, row), row.plan, now, None) <=
        HoldUsers(db, row.plan, now, Some(row.user)) + {row.user}
  {
    var p, u := row.plan, row.user;
    var db' := SeatBooking(db, b, row);
    assert OfferRows(db', p, now, None) <= OfferRows(db, p, now, Some(u));
    forall c | c in PendingRows(db', p, now, None)
      ensures c in PendingRows(db, p, now, Some(u)) || db'.bookings[c].user == u
      ensures c in db.bookings && db'.bookings[c].user == db.bookings[c].user
    {
      assert c != b;
    }
  }

  // The guard `confirmed + holds >= capacity` is what keeps the plan from overfilling.
  lemma SeatingFits(db: Db, b: BookingId, row: Booking, t: int, now: int)
    requires MayBecome(db, b, row) && SeatsOk(db, row.plan, now) && t <= now
    requires db.plans[row.plan].confirmed + ActiveHolds(db, row.plan, t, Some(row.user)) < db.plans[row.plan].capacity
    ensures SeatsOk(SeatBooking(db, b, row), row.plan, now)
  {
    hide Seated, SeatedUsers, OfferRows, PendingRows, HoldUsers;
    var p, u := row.plan, row.user;
    var db' := SeatBooking(db, b, row);
    SeatingSeats(db, b, row);
    SeatingHolds(db, b, row, now);
    HoldsLapse(db, p, t, now, Some(u));
    HoldUsersAtMostRows(db, p, now, Some(u));
    CardLe(OfferRows(db', p, now, None), OfferRows(db, p, now, Some(u)));
    CardLe(Holders(db', p, now), HoldUsers(db, p, now, Some(u)));
    assert db.plans[p].price <= 0 ==> NothingPending(db', p);
  }

  lemma SeatingElsewhere(db: Db, b: BookingId, row: Booking, q: PlanId)
    requires MayBecome(db, b, row) && q != row.plan
    ensures SameRows(db, SeatBooking(db, b, row), q)
  {
  }

  lemma SeatingTables(db: Db, b: BookingId, row: Booking)
    requires TablesOk(db) && MayBecome(db, b, row)
    ensures TablesOk(SeatBooking(db, b, row))
  {
    var db' := SeatBooking(db, b, row);
    forall k | k in db'.waitlist && (db'.waitlist[k].status.Waiting? || db'.waitlist[k].status.Offered?)
      ensures !HasConfirmed(db', k.0, k.1)
    {
      assert k != (row.plan, row.user) && db'.waitlist[k] == db.waitlist[k];
      assert !HasConfirmed(db, k.0, k.1);
      forall c | c in db'.bookings && db'.bookings[c].plan == k.0 && db'.bookings[c].user == k.1
        ensures !db'.bookings[c].status.Confirmed?
      {
        assert c != b;
      }
    }
  }

  lemma SeatBookingKeeps(w: World, b: BookingId, row: Booking, t: int)
    requires Inv(w) && MayBecome(w.db, b, row) && t <= w.now
    requires w.db.plans[row.plan].confirmed
        + ActiveHolds(w.db, row.plan, t, Some(row.user)) < w.db.plans[row.plan].capacity
    ensures Inv(w.(db := SeatBooking(w.db, b, row)))
  {
    hide SeatsOk, ParticipantsSeated, QueueUnbooked, PendingUnique, EntryIdsUnique;
    var db' := SeatBooking(w.db, b, row);
    SeatingTables(w.db, b, row);
    forall q | q in db'.plans ensures SeatsOk(db', q, w.now) {
      if q == row.plan {
        SeatingFits(w.db, b, row, t, w.now);
      } else {
        SeatingElsewhere(w.db, b, row, q);
        UntouchedPlan(w.db, db', q, w.now);
      }
    }
  }

  // ---- holding a seat while paying ----

  function HoldSeat(db: Db, id: BookingId, p: PlanId, u: UserId, price: int, until: int): Db {
    db.(bookings :=
      CancelAll(db.bookings, OwnPending(db, p, u))[id := Booking(p, u, PaymentPending, price, Some(until))])
  }

  lemma HoldingSeats(db: Db, id: BookingId, p: PlanId, u: UserId, price: int, until: int)
    requires id !in db.bookings
    ensures Seated(HoldSeat(db, id, p, u, price, until), p) == Seated(db, p)
  {
  }

  lemma HoldingHolds(db: Db, id: BookingId, p: PlanId, u: UserId, price: int, until: int, now: int)
    requires id !in db.bookings
    ensures HoldUsers(HoldSeat(db, id, p, u, price, until), p, now, None) <= HoldUsers(db, p, now, Some(u)) + {u}
  {
    var db' := HoldSeat(db, id, p, u, price, until);
    forall c | c in PendingRows(db', p, now, None)
      ensures db'.bookings[c].user != u ==>
          c in PendingRows(db, p, now, Some(u)) && db'.bookings[c].user == db.bookings[c].user
    {
    }
    forall k | k in OfferRows(db', p, now, None) ensures k.1 != u ==> k in OfferRows(db, p, now, Some(u)) { }
  }

  lemma HoldingFits(db: Db, id: BookingId, p: PlanId, u: UserId, until: int, t: int, now: int)
    requires p in db.plans && id !in db.bookings && SeatsOk(db, p, now) && t <= now && db.plans[p].price > 0
    requires db.plans[p].confirmed + ActiveHolds(db, p, t, Some(u)) < db.plans[p].capacity
    ensures SeatsOk(HoldSeat(db, id, p, u, db.plans[p].price, until), p, now)
  {
    hide Seated, SeatedUsers, OfferRows, PendingRows, HoldUsers;
    var db' := HoldSeat(db, id, p, u, db.plans[p].price, until);
    HoldingSeats(db, id, p, u, db.plans[p].price, until);
    HoldingHolds(db, id, p, u, db.plans[p].price, until, now);
    HoldsLapse(db, p, t, now, Some(u));
    HoldUsersAtMostRows(db, p, now, Some(u));
    CardLe(Holders(db', p, now), HoldUsers(db, p, now, Some(u)) + {u});
    CardUnion(HoldUsers(db, p, now, Some(u)), {u});
  }

  lemma HoldingTables(db: Db, id: BookingId, p: PlanId, u: UserId, price: int, until: int)
    requires TablesOk(db) && p in db.plans && id !in db.bookings
    ensures TablesOk(HoldSeat(db, id, p, u, price, until))
  {
    var db' := HoldSeat(db, id, p, u, price, until);
    assert QueueUnbooked(db') by {
      forall k | k in db'.waitlist && HasConfirmed(db', k.0, k.1) ensures HasConfirmed(db, k.0, k.1) {
        var c :| c in db'.bookings && db'.bookings[c].plan == k.0 && db'.bookings[c].user == k.1
          && db'.bookings[c].status.Confirmed?;
        assert db.bookings[c].status.Confirmed?;
      }
    }
  }

  lemma HoldSeatKeeps(w: World, id: BookingId, p: PlanId, u: UserId, until: int, t: int)
    requires Inv(w) && p in w.db.plans && id !in w.db.bookings && t <= w.now && w.db.plans[p].price > 0
    requires w.db.plans[p].confirmed + ActiveHolds(w.db, p, t, Some(u)) < w.db.plans[p].capacity
    ensures Inv(w.(db := HoldSeat(w.db, id, p, u, w.db.plans[p].price, until)))
  {
    hide SeatsOk, ParticipantsSeated, QueueUnbooked, PendingUnique, EntryIdsUnique;
    var price := w.db.plans[p].price;
    var db' := HoldSeat(w.db, id, p, u, price, until);
    HoldingTables(w.db, id, p, u, price, until);
    forall q | q in db'.plans ensures SeatsOk(db', q, w.now) {
      if q == p {
        HoldingFits(w.db, id, p, u, until, t, w.now);
      } else {
        HoldingElsewhere(w.db, id, p, u, price, until, q);
        UntouchedPlan(w.db, db', q, w.now);
      }
    }
  }

  lemma HoldingElsewhere(db: Db, id: BookingId, p: PlanId, u: UserId, price: int, until: int, q: PlanId)
    requires id !in db.bookings && q != p
    ensures SameRows(db, HoldSeat(db, id, p, u, price, until), q)
  {
  }

  lemma CreateKeeps(w: World, p: PlanId, u: UserId, t: int, wall: int, id: BookingId)
    requires Inv(w) && t <= w.now && id !in w.db.bookings
    ensures Inv(w.(db := Create(w.db, p, u, t, wall, id)))
  {
    hide Seated, SeatedUsers, OfferRows, PendingRows, HoldUsers, SeatsOk, ParticipantsSeated, QueueUnbooked;
    hide PendingUnique, EntryIdsUnique;
    match CreateKindOf(w.db, p, u, t)
    case Booked => SeatBookingKeeps(w, id, Booking(p, u, Confirmed, w.db.plans[p].price, None), t);
    case Held => HoldSeatKeeps(w, id, p, u, wall + PAYMENT_HOLD, t);
    case _ =>
  }

  lemma ConfirmPaidKeeps(w: World, b: BookingId, t: int)
    requires Inv(w) && t <= w.now
    ensures Inv(w.(db := ConfirmPaid(w.db, b, t)))
  {
    hide Seated, SeatedUsers, OfferRows, PendingRows, HoldUsers, SeatsOk, ParticipantsSeated, QueueUnbooked;
    hide PendingUnique, EntryIdsUnique;
    if ConfirmKindOf(w.db, b, t).Seats? {
      SeatBookingKeeps(w, b, w.db.bookings[b].(status := Confirmed, expires := None), t);
    }
  }

  // ---- offering freed seats ----

  // At most `free` people stand within the first `free` positions.
  lemma WithinIsSmall(db: Db, p: PlanId, free: int)
    ensures free >= 0 ==> |Within(db, p, free)| <= free
    ensures free <= 0 ==> Within(db, p, free) == {}
  {
    hide Position;
    var keys := Within(db, p, free);
    forall k | k in WaitingRows(db, p) ensures Position(db, p, k) >= 1 {
      PositionPositive(db, p, k);
    }
    if keys != {} {
      LastWithin(db, p, keys);
    }
  }

  lemma PositionPositive(db: Db, p: PlanId, k: SeatKey)
    requires k in WaitingRows(db, p)
    ensures Position(db, p, k) >= 1
  {
    var ahead := set j | j in WaitingRows(db, p) && Ahead(db.waitlist[j], db.waitlist[k]);
    CardLe({k}, ahead);
  }

  // Among any waiting rows, one has a position no smaller than their number.
  lemma LastWithin(db: Db, p: PlanId, keys: set<SeatKey>)
    requires keys != {} && keys <= WaitingRows(db, p)
    ensures exists k :: k in keys && |keys| <= Position(db, p, k)
  {
    var le := (j: SeatKey, k: SeatKey) => j in db.waitlist && k in db.waitlist && Ahead(db.waitlist[j], db.waitlist[k]);
    var last := Greatest(keys, le);
    CardLe(keys, set j | j in WaitingRows(db, p) && Ahead(db.waitlist[j], db.waitlist[last]));
  }

  lemma OfferingSets(db: Db, p: PlanId, keys: set<SeatKey>, wall: int, now: int)
    requires forall k :: k in keys ==> k.0 == p
    ensures var db' := OfferTo(db, keys, wall);
      && Seated(db', p) == Seated(db, p) && SeatedUsers(db', p) == SeatedUsers(db, p)
      && OfferRows(db', p, now, None) <= OfferRows(db, p, now, None) + keys
      && PendingRows(db', p, now, None) == PendingRows(db, p, now, None)
      && HoldUsers(db', p, now, None) <= HoldUsers(db, p, now, None) + (set k | k in keys :: k.1)
      && (keys == {} ==>
        OfferRows(db', p, now, None) == OfferRows(db, p, now, None) && Holders(db', p, now) == Holders(db, p, now))
  {
    var db' := OfferTo(db, keys, wall);
    assert Seated(db', p) == Seated(db, p);
    assert OfferRows(db', p, now, None) <= OfferRows(db, p, now, None) + keys;
    assert PendingRows(db', p, now, None) == PendingRows(db, p, now, None);
    if keys == {} {
      assert OfferRows(db', p, now, None) == OfferRows(db, p, now, None);
    }
  }

  lemma OffersFit(db: Db, p: PlanId, keys: set<SeatKey>, t: int, wall: int, now: int)
    requires p in db.plans && SeatsOk(db, p, now) && t <= now
    requires keys != {} ==> |keys| <= FreeSeats(db, p, t)
    requires forall k :: k in keys ==> k.0 == p
    ensures SeatsOk(OfferTo(db, keys, wall), p, now)
  {
    hide Seated, SeatedUsers, OfferRows, PendingRows, HoldUsers;
    var db' := OfferTo(db, keys, wall);
    OfferingSets(db, p, keys, wall, now);
    if keys != {} {
      var users := set k | k in keys :: k.1;
      CardLe(OfferRows(db', p, now, None), OfferRows(db, p, now, None) + keys);
      CardUnion(OfferRows(db, p, now, None), keys);
      CardImage(keys, (k: SeatKey) => k.1, users);
      CardLe(Holders(db', p, now), HoldUsers(db, p, now, None) + users);
      CardUnion(HoldUsers(db, p, now, None), users);
      HoldsLapse(db, p, t, now, None);
      HoldUsersAtMostRows(db, p, now, None);
    }
    assert NothingPending(db, p) ==> NothingPending(db', p);
  }

  lemma OfferingTables(db: Db, keys: set<SeatKey>, wall: int)
    requires TablesOk(db) && forall k :: k in keys ==> k in db.waitlist && db.waitlist[k].status.Waiting?
    ensures TablesOk(OfferTo(db, keys, wall))
  {
    var db' := OfferTo(db, keys, wall);
    forall k | k in db'.waitlist ensures HasConfirmed(db', k.0, k.1) == HasConfirmed(db, k.0, k.1) { }
  }

  lemma OfferFreedKeeps(w: World, p: PlanId, t: int, wall: int)
    requires Inv(w) && p in w.db.plans && t <= w.now
    ensures Inv(w.(db := OfferFreed(w.db, p, t, wall)))
  {
    hide Seated, SeatedUsers, OfferRows, PendingRows, HoldUsers, SeatsOk, ParticipantsSeated, QueueUnbooked;
    hide PendingUnique, EntryIdsUnique;
    var free := FreeSeats(w.db, p, t);
    var keys := Within(w.db, p, free);
    WithinIsSmall(w.db, p, free);
    OfferToKeeps(w, p, keys, t, wall);
  }

  lemma OfferToKeeps(w: World, p: PlanId, keys: set<SeatKey>, t: int, wall: int)
    requires Inv(w) && p in w.db.plans && t <= w.now && keys <= WaitingRows(w.db, p)
    requires keys != {} ==> |keys| <= FreeSeats(w.db, p, t)
    ensures Inv(w.(db := OfferTo(w.db, keys, wall)))
  {
    hide SeatsOk, ParticipantsSeated, QueueUnbooked, PendingUnique, EntryIdsUnique;
    var db' := OfferTo(w.db, keys, wall);
    OfferingTables(w.db, keys, wall);
    forall q | q in db'.plans ensures SeatsOk(db', q, w.now) {
      if q == p {
        OffersFit(w.db, p, keys, t, wall, w.now);
      } else {
        assert SameRows(w.db, db', q);
        UntouchedPlan(w.db, db', q, w.now);
      }
    }
  }

  // ---- giving a seat back ----

  lemma FreeingSets(db: Db, b: BookingId, now: int)
    requires ForeignKeys(db) && b in db.bookings && db.bookings[b].status.Confirmed?
    ensures var p, db' := db.bookings[b].plan, FreeSeat(db, b);
      && b in Seated(db, p) && Seated(db', p) == Seated(db, p) - {b}
      && SeatedUsers(db, p) <= SeatedUsers(db', p) + {db.bookings[b].user}
      && OfferRows(db', p, now, None) == OfferRows(db, p, now, None)
      && HoldUsers(db', p, now, None) == HoldUsers(db, p, now, None)
  {
    var p, db' := db.bookings[b].plan, FreeSeat(db, b);
    assert Seated(db', p) == Seated(db, p) - {b};
    forall v | v in SeatedUsers(db, p) && v != db.bookings[b].user ensures v in SeatedUsers(db', p) {
      var c :| c in Seated(db, p) && db.bookings[c].user == v;
      assert c in Seated(db', p) && db'.bookings[c].user == v;
    }
    assert PendingRows(db', p, now, None) == PendingRows(db, p, now, None);
    assert OfferRows(db', p, now, None) == OfferRows(db, p, now, None);
  }

  lemma FreeSeatFits(db: Db, b: BookingId, now: int)
    requires ForeignKeys(db) && b in db.bookings && db.bookings[b].status.Confirmed?
    requires SeatsOk(db, db.bookings[b].plan, now)
    ensures SeatsOk(FreeSeat(db, b), db.bookings[b].plan, now)
  {
    hide Seated, SeatedUsers, OfferRows, PendingRows, HoldUsers;
    var p, u := db.bookings[b].plan, db.bookings[b].user;
    var db' := FreeSeat(db, b);
    FreeingSets(db, b, now);
    CardLe(Holders(db', p, now), Holders(db, p, now) + {u});
    CardUnion(Holders(db, p, now), {u});
    assert NothingPending(db, p) ==> NothingPending(db', p);
  }

  lemma FreeingTables(db: Db, b: BookingId)
    requires TablesOk(db) && b in db.bookings && db.bookings[b].status.Confirmed?
    ensures TablesOk(FreeSeat(db, b))
  {
    var db' := FreeSeat(db, b);
    forall k | k in db'.waitlist && HasConfirmed(db', k.0, k.1) ensures HasConfirmed(db, k.0, k.1) {
      var c :| c in db'.bookings && db'.bookings[c].plan == k.0 && db'.bookings[c].user == k.1
        && db'.bookings[c].status.Confirmed?;
      assert db.bookings[c] == db'.bookings[c];
    }
  }

  lemma FreeSeatKeeps(w: World, b: BookingId)
    requires Inv(w) && b in w.db.bookings && w.db.bookings[b].status.Confirmed?
    ensures Inv(w.(db := FreeSeat(w.db, b)))
  {
    hide SeatsOk, ParticipantsSeated, QueueUnbooked, PendingUnique, EntryIdsUnique;
    var db' := FreeSeat(w.db, b);
    FreeingTables(w.db, b);
    forall q | q in db'.plans ensures SeatsOk(db', q, w.now) {
      if q == w.db.bookings[b].plan {
        FreeSeatFits(w.db, b, w.now);
      } else {
        assert SameRows(w.db, db', q);
        UntouchedPlan(w.db, db', q, w.now);
      }
    }
  }

  // Rows whose status moves without touching a seat: every remaining transaction.
  ghost predicate QuietBookings(db: Db, db': Db) {
    && db'.bookings.Keys == db.bookings.Keys
    && forall b :: b in db.bookings ==>
        && db'.bookings[b] == db.bookings[b].(status := db'.bookings[b].status)
        && TakesSeat(db'.bookings[b].status) == TakesSeat(db.bookings[b].status)
        && (db'.bookings[b].status.PaymentPending? ==> db.bookings[b].status.PaymentPending?)
        && (db'.bookings[b].status.Confirmed? ==> db.bookings[b].status.Confirmed?)
  }

  ghost predicate QuietWaitlist(db: Db, db': Db) {
    && db'.waitlist.Keys == db.waitlist.Keys
    && forall k :: k in db.waitlist ==>
        && db'.waitlist[k].id == db.waitlist[k].id
        && (db'.waitlist[k].status.Offered? ==> db'.waitlist[k] == db.waitlist[k])
        && (db'.waitlist[k].status.Waiting? ==> db.waitlist[k].status.Waiting?)
  }

  ghost predicate QuietPlans(db: Db, db': Db) {
    && db'.plans.Keys == db.plans.Keys
    && forall p :: p in db.plans ==> db'.plans[p] == db.plans[p].(status := db'.plans[p].status)
  }

  ghost predicate QuietParticipants(db: Db, db': Db) {
    && db'.participants.Keys == db.participants.Keys
    && forall k :: k in db.participants ==>
      db'.participants[k] == db.participants[k].(checkedIn := db'.participants[k].checkedIn)
  }

  lemma QuietSets(db: Db, db': Db, p: PlanId, now: int)
    requires QuietBookings(db, db') && QuietWaitlist(db, db')
    ensures Seated(db', p) == Seated(db, p) && SeatedUsers(db', p) == SeatedUsers(db, p)
    ensures OfferRows(db', p, now, None) <= OfferRows(db, p, now, None)
    ensures HoldUsers(db', p, now, None) <= HoldUsers(db, p, now, None)
  {
    assert Seated(db', p) == Seated(db, p);
    assert OfferRows(db', p, now, None) <= OfferRows(db, p, now, None);
    assert PendingRows(db', p, now, None) <= PendingRows(db, p, now, None);
  }

  lemma QuietTables(db: Db, db': Db)
    requires TablesOk(db)
    requires QuietBookings(db, db') && QuietWaitlist(db, db') && QuietPlans(db, db') && QuietParticipants(db, db')
    ensures TablesOk(db')
  {
    forall k | k in db'.waitlist && HasConfirmed(db', k.0, k.1) ensures HasConfirmed(db, k.0, k.1) {
      var c :| c in db'.bookings && db'.bookings[c].plan == k.0 && db'.bookings[c].user == k.1
        && db'.bookings[c].status.Confirmed?;
      assert c in db.bookings && db.bookings[c].status.Confirmed?;
    }
  }

  lemma QuietKeeps(w: World, db': Db)
    requires Inv(w)
    requires QuietBookings(w.db, db') && QuietWaitlist(w.db, db') && QuietPlans(w.db, db')
    requires QuietParticipants(w.db, db')
    ensures Inv(w.(db := db'))
  {
    QuietTables(w.db, db');
    forall p | p in db'.plans ensures SeatsOk(db', p, w.now) {
      QuietSets(w.db, db', p, w.now);
      ShrinkingKeeps(w.db, db', p, w.now);
    }
  }

  lemma ExpirePendingKeeps(w: World, cut: int)
    requires Inv(w)
    ensures Inv(w.(db := ExpirePending(w.db, cut)))
  {
    hide ParticipantsSeated, QueueUnbooked, PendingUnique, EntryIdsUnique, SeatsOk;
    QuietKeeps(w, ExpirePending(w.db, cut));
  }

  lemma CheckInKeeps(w: World, b: BookingId)
    requires Inv(w)
    ensures Inv(w.(db := CheckIn(w.db, b)))
  {
    hide ParticipantsSeated, QueueUnbooked, PendingUnique, EntryIdsUnique, SeatsOk;
    QuietKeeps(w, CheckIn(w.db, b));
  }

  lemma MarkNoShowsKeeps(w: World, now: int)
    requires Inv(w)
    ensures Inv(w.(db := MarkNoShows(w.db, now)))
  {
    hide ParticipantsSeated, QueueUnbooked, PendingUnique, EntryIdsUnique, SeatsOk;
    QuietKeeps(w, MarkNoShows(w.db, now));
  }

  lemma ExpireOffersKeeps(w: World, cut: int)
    requires Inv(w)
    ensures Inv(w.(db := ExpireOffers(w.db, cut)))
  {
    hide ParticipantsSeated, QueueUnbooked, PendingUnique, EntryIdsUnique, SeatsOk;
    QuietKeeps(w, ExpireOffers(w.db, cut));
  }

  lemma ExpireWaitlistKeeps(w: World, p: PlanId)
    requires Inv(w)
    ensures Inv(w.(db := ExpireWaitlist(w.db, p)))
  {
    hide ParticipantsSeated, QueueUnbooked, PendingUnique, EntryIdsUnique, SeatsOk;
    QuietKeeps(w, ExpireWaitlist(w.db, p));
  }

  lemma CancelPlanKeeps(w: World, p: PlanId)
    requires Inv(w)
    ensures Inv(w.(db := CancelPlan(w.db, p)))
  {
    hide ParticipantsSeated, QueueUnbooked, PendingUnique, EntryIdsUnique, SeatsOk;
    QuietKeeps(w, CancelPlan(w.db, p));
  }

  lemma CompleteEndedKeeps(w: World, now: int)
    requires Inv(w)
    ensures Inv(w.(db := CompleteEnded(w.db, now)))
  {
    hide ParticipantsSeated, QueueUnbooked, PendingUnique, EntryIdsUnique, SeatsOk;
    QuietKeeps(w, CompleteEnded(w.db, now));
  }

  lemma CancelKeeps(w: World, b: BookingId, t: int, wall: int)
    requires Inv(w) && t <= w.now
    ensures Inv(w.(db := Cancel(w.db, b, t, wall)))
  {
    hide Seated, SeatedUsers, OfferRows, PendingRows, HoldUsers, SeatsOk, ParticipantsSeated, QueueUnbooked;
    hide PendingUnique, EntryIdsUnique;
    match CancelKindOf(w.db, b)
    case NotFound =>
    case Released => QuietKeeps(w, Cancel(w.db, b, t, wall));
    case SeatFreed =>
      FreeSeatKeeps(w, b);
      OfferFreedKeeps(w.(db := FreeSeat(w.db, b)), w.db.bookings[b].plan, t, wall);
  }

  // ---- the waitlist ----

  // The one row JoinWaitlist writes is a waiting one.
  lemma QueueingSets(db: Db, k: SeatKey, e: Entry, q: PlanId, now: int)
    requires e.status.Waiting?
    ensures var db' := db.(waitlist := db.waitlist[k := e]);
      && Seated(db', q) == Seated(db, q) && SeatedUsers(db', q) == SeatedUsers(db, q)
      && OfferRows(db', q, now, None) <= OfferRows(db, q, now, None)
      && HoldUsers(db', q, now, None) <= HoldUsers(db, q, now, None)
  {
    var db' := db.(waitlist := db.waitlist[k := e]);
    assert Seated(db', q) == Seated(db, q);
    assert OfferRows(db', q, now, None) <= OfferRows(db, q, now, None);
    assert PendingRows(db', q, now, None) == PendingRows(db, q, now, None);
  }

  lemma QueueingTables(db: Db, k: SeatKey, e: Entry)
    requires TablesOk(db) && k.0 in db.plans && !HasConfirmed(db, k.0, k.1)
    requires forall j :: j in db.waitlist && j != k ==> db.waitlist[j].id != e.id
    ensures TablesOk(db.(waitlist := db.waitlist[k := e]))
  {
    var db' := db.(waitlist := db.waitlist[k := e]);
    forall j | j in db'.waitlist ensures HasConfirmed(db', j.0, j.1) == HasConfirmed(db, j.0, j.1) { }
  }

  lemma QueueingKeeps(w: World, k: SeatKey, e: Entry)
    requires Inv(w) && e.status.Waiting? && k.0 in w.db.plans && !HasConfirmed(w.db, k.0, k.1)
    requires forall j :: j in w.db.waitlist && j != k ==> w.db.waitlist[j].id != e.id
    ensures Inv(w.(db := w.db.(waitlist := w.db.waitlist[k := e])))
  {
    hide ParticipantsSeated, QueueUnbooked, PendingUnique, EntryIdsUnique, SeatsOk;
    var db' := w.db.(waitlist := w.db.waitlist[k := e]);
    QueueingTables(w.db, k, e);
    forall q | q in db'.plans ensures SeatsOk(db', q, w.now) {
      QueueingSets(w.db, k, e, q, w.now);
      ShrinkingKeeps(w.db, db', q, w.now);
    }
  }

  lemma JoinKeeps(w: World, p: PlanId, u: UserId, t: int, wall: int, id: nat)
    requires Inv(w) && forall k :: k in w.db.waitlist ==> w.db.waitlist[k].id != id
    ensures Inv(w.(db := Join(w.db, p, u, t, wall, id)))
  {
    hide ParticipantsSeated, QueueUnbooked, PendingUnique, SeatsOk, ActiveHolds, ViewOf;
    var db, db' := w.db, Join(w.db, p, u, t, wall, id);
    if db' == db {
    } else if (p, u) !in db.waitlist {
      QueueingKeeps(w, (p, u), Entry(id, Waiting, t, None));
    } else {
      QueueingKeeps(w, (p, u), Entry(db.waitlist[(p, u)].id, Waiting, t, None));
    }
  }

  lemma LeaveKeeps(w: World, p: PlanId, u: UserId, t: int, wall: int)
    requires Inv(w) && t <= w.now
    ensures Inv(w.(db := Leave(w.db, p, u, t, wall)))
  {
    hide Seated, SeatedUsers, OfferRows, PendingRows, HoldUsers, SeatsOk, ParticipantsSeated, QueueUnbooked;
    hide PendingUnique, EntryIdsUnique;
    if p in w.db.plans {
      var db1 := w.db.(waitlist := Close(w.db.waitlist, (p, u), Left));
      QuietKeeps(w, db1);
      OfferFreedKeeps(w.(db := db1), p, t, wall);
    }
  }

  lemma AddPlanKeeps(w: World, p: PlanId, capacity: nat, price: int, startsAt: int, endsAt: int)
    requires Inv(w)
    ensures Inv(w.(db := AddPlan(w.db, p, capacity, price, startsAt, endsAt)))
  {
    hide ParticipantsSeated, PendingUnique, EntryIdsUnique, SeatsOk;
    var db, db' := w.db, AddPlan(w.db, p, capacity, price, startsAt, endsAt);
    AddingPlanTables(db, p, capacity, price, startsAt, endsAt);
    forall q | q in db'.plans ensures SeatsOk(db', q, w.now) {
      if q in db.plans {
        assert SameRows(db, db', q);
        UntouchedPlan(db, db', q, w.now);
      } else {
        NewPlanFits(db, q, capacity, price, startsAt, endsAt, w.now);
      }
    }
  }

  lemma AddingPlanTables(db: Db, p: PlanId, capacity: nat, price: int, startsAt: int, endsAt: int)
    requires TablesOk(db)
    ensures TablesOk(AddPlan(db, p, capacity, price, startsAt, endsAt))
  {
    var db' := AddPlan(db, p, capacity, price, startsAt, endsAt);
    forall k | k in db'.waitlist ensures HasConfirmed(db', k.0, k.1) == HasConfirmed(db, k.0, k.1) { }
  }

  lemma NewPlanFits(db: Db, p: PlanId, capacity: nat, price: int, startsAt: int, endsAt: int, now: int)
    requires ForeignKeys(db) && p !in db.plans
    ensures SeatsOk(AddPlan(db, p, capacity, price, startsAt, endsAt), p, now)
  {
    var db' := AddPlan(db, p, capacity, price, startsAt, endsAt);
    assert Seated(db', p) == {};
    assert OfferRows(db', p, now, None) == {};
    assert PendingRows(db', p, now, None) == {};
    assert Holders(db', p, now) == {};
  }

  lemma TickKeeps(w: World, to: int)
    requires Inv(w) && w.now <= to
    ensures Inv(World(w.db, to))
  {
    forall p | p in w.db.plans ensures SeatsOk(w.db, p, to) {
      HoldsLapse(w.db, p, w.now, to, None);
      LaterKeeps(w.db, p, w.now, to);
    }
  }

  lemma LaterKeeps(db: Db, p: PlanId, now: int, to: int)
    requires p in db.plans && SeatsOk(db, p, now) && now <= to
    ensures SeatsOk(db, p, to)
  {
    HoldsLapse(db, p, now, to, None);
    CardLe(OfferRows(db, p, to, None), OfferRows(db, p, now, None));
    CardLe(Holders(db, p, to), Holders(db, p, now));
  }

  // ---- every transaction, every run ----

  lemma StepKeeps(w: World, s: Step)
    requires Inv(w) && Enabled(w, s)
    ensures Inv(Apply(w, s))
  {
    hide Create, ConfirmPaid, Cancel, ExpirePending, CheckIn, MarkNoShows, Join, Leave, ExpireOffers, OfferFreed,
      ExpireWaitlist, CancelPlan, CompleteEnded, AddPlan;
    hide SeatsOk, ParticipantsSeated, QueueUnbooked, PendingUnique, EntryIdsUnique;
    match s
    case DoAddPlan(p, capacity, price, startsAt, endsAt) => AddPlanKeeps(w, p, capacity, price, startsAt, endsAt);
    case DoCreate(p, u, t, wall, id) => CreateKeeps(w, p, u, t, wall, id);
    case DoConfirmPaid(b, t) => ConfirmPaidKeeps(w, b, t);
    case DoCancel(b, t, wall) => CancelKeeps(w, b, t, wall);
    case DoJoin(p, u, t, wall, id) => JoinKeeps(w, p, u, t, wall, id);
    case DoLeave(p, u, t, wall) => LeaveKeeps(w, p, u, t, wall);
    case DoOfferForPlan(p, t, wall) => if p in w.db.plans { OfferFreedKeeps(w, p, t, wall); }
    case DoExpirePending(cut) => ExpirePendingKeeps(w, cut);
    case DoCheckIn(b) => CheckInKeeps(w, b);
    case DoMarkNoShows(now) => MarkNoShowsKeeps(w, now);
    case DoExpireOffers(cut) => ExpireOffersKeeps(w, cut);
    case DoExpireWaitlist(p) => ExpireWaitlistKeeps(w, p);
    case DoCancelPlan(p) => CancelPlanKeeps(w, p);
    case DoCompleteEnded(now) => CompleteEndedKeeps(w, now);
    case DoTick(to) => TickKeeps(w, to);
  }

  // A history of worlds, each reached from the one before by an enabled transaction.
  ghost predicate Run(ws: seq<World>, steps: seq<Step>) {
    && |ws| == |steps| + 1
    && forall i :: 0 <= i < |steps| ==>
        ForeignKeys(ws[i].db) && Enabled(ws[i], steps[i]) && ws[i + 1] == Apply(ws[i], steps[i])
  }

  lemma {:induction false} RunKeeps(ws: seq<World>, steps: seq<Step>, n: nat)
    requires Run(ws, steps) && Inv(ws[0]) && n < |ws|
    ensures Inv(ws[n])
  {
    if n > 0 {
      RunKeeps(ws, steps, n - 1);
      StepKeeps(ws[n - 1], steps[n - 1]);
    }
  }

  lemma EmptyOk(now: int)
    ensures Inv(World(EMPTY, now))
  {
  }

  // From the empty tables on, at every point of every run and at every later clock value: the count is
  // exact and never negative, seats plus people with an unexpired hold or offer fit the plan, and the
  // CHECK (confirmed_count <= capacity) of the schema never has to fire.
  lemma SeatBoundOverRuns(ws: seq<World>, steps: seq<Step>, n: nat, p: PlanId, later: int)
    requires Run(ws, steps) && ws[0].db == EMPTY && n < |ws| && p in ws[n].db.plans && ws[n].now <= later
    ensures 0 <= ws[n].db.plans[p].confirmed == |Seated(ws[n].db, p)|
    ensures ws[n].db.plans[p].confirmed + |Holders(ws[n].db, p, later)| <= ws[n].db.plans[p].capacity
    ensures ParticipantsSeated(ws[n].db)
  {
    EmptyOk(ws[0].now);
    RunKeeps(ws, steps, n);
    LaterKeeps(ws[n].db, p, ws[n].now, later);
  }
}
