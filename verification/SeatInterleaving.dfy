// The same transactions one statement at a time. Any number run at once; a statement waits while a row it
// writes or locks belongs to another transaction, writes show only after the commit, and a transaction may be
// rolled back at any point. The plan-row lock is all that orders the seat count.
// Participant and outbox rows are not written here: they hold no seat.
module SeatInterleaving {
  import opened Finite
  import opened SeatTables
  import opened SeatRules
  import opened SeatSafety

  type TxnId = nat

  datatype Kind = Seating | Holding | Offering | Releasing | Nothing

  // The next statement to run, with what earlier statements read.
  datatype Pc =
    // Create
    | CreateLock(wall: int, id: BookingId)
    | CreateHolds(wall: int, id: BookingId, capacity: int, confirmed: int, price: int)
    | CreateExisting(wall: int, id: BookingId, price: int)
    | CreateResume(wall: int, id: BookingId, price: int)
    | CreateClear(wall: int, id: BookingId, price: int)
    | InsertHold(wall: int, id: BookingId, price: int)
    | InsertSeat(id: BookingId, price: int)
    // seatConfirmedBooking
    | SeatCount(b: BookingId)
    | SeatClose(b: BookingId)
    // ConfirmPaid
    | PaidRead(b: BookingId)
    | PaidLock(b: BookingId)
    | PaidHolds(b: BookingId, capacity: int, confirmed: int, published: bool)
    | PaidUpdate(b: BookingId)
    // Cancel
    | CancelLock(b: BookingId, wall: int)
    | CancelUpdate(b: BookingId, wall: int)
    | CancelCount(b: BookingId, wall: int)
    // offerForPlan and LeaveWaitlist
    | OfferLock(wall: int)
    | LeaveLock(wall: int)
    | LeaveClose(wall: int)
    // offerFreedSeats
    | OfferRead(wall: int)
    | OfferHolds(wall: int, capacity: int, confirmed: int)
    | OfferUpdate(wall: int, free: int)
    // commit
    | Done(kind: Kind)

  // A transaction in flight: its own writes, the rows it locked as it found them, and whether it holds the plan row.
  datatype Txn = Txn(
    pc: Pc, t: int, plan: PlanId, user: UserId, locked: bool,
    puts: map<BookingId, Booking>, seen: map<BookingId, Booking>,
    closed: map<SeatKey, Entry>, offers: map<SeatKey, Entry>, delta: int)

  datatype Sys = Sys(db: Db, now: int, txns: map<TxnId, Txn>)

  // What the transaction itself sees: the committed rows under its own writes.
  function Sees(db: Db, x: Txn): Db {
    db.(bookings := db.bookings + x.puts,
        waitlist := db.waitlist + x.closed + x.offers,
        plans := if x.plan in db.plans
          then db.plans[x.plan := db.plans[x.plan].(confirmed := db.plans[x.plan].confirmed + x.delta)]
                 else db.plans)
  }

  datatype Effect = Continue(txn: Txn) | Commit | Abort

  // One statement. `keys` are the waiting rows the offer UPDATE picks; SKIP LOCKED may pass over some.
  function Statement(v: Db, x: Txn, keys: set<SeatKey>): Effect {
    var p, u := x.plan, x.user;
    match x.pc
    case CreateLock(wall, id) =>
      if p !in v.plans || !v.plans[p].status.Published? then Abort
      else Continue(x.(locked := true,
        pc := CreateHolds(wall, id, v.plans[p].capacity, v.plans[p].confirmed, v.plans[p].price)))
    case CreateHolds(wall, id, capacity, confirmed, price) =>
      if confirmed + ActiveHolds(v, p, x.t, Some(u)) >= capacity then Abort
      else Continue(x.(pc := CreateExisting(wall, id, price)))
    case CreateExisting(wall, id, price) =>
      if HasConfirmed(v, p, u) then Abort
      else Continue(x.(pc := if price > 0 then CreateResume(wall, id, price) else InsertSeat(id, price)))
    case CreateResume(wall, id, price) =>
      if OwnLiveHolds(v, p, u, x.t) != {} then Continue(x.(pc := Done(Nothing)))
      else Continue(x.(pc := CreateClear(wall, id, price)))
    case CreateClear(wall, id, price) =>
      var own := OwnPending(v, p, u);
      Continue(x.(pc := InsertHold(wall, id, price), seen := map b | b in own :: v.bookings[b],
                  puts := map b | b in own :: v.bookings[b].(status := Cancelled)))
    case InsertHold(wall, id, price) =>
      if id in v.bookings then Abort
      else Continue(x.(pc := Done(Holding),
        puts := x.puts[id := Booking(p, u, PaymentPending, price, Some(wall + PAYMENT_HOLD))]))
    case InsertSeat(id, price) =>
      if id in v.bookings then Abort
      else Continue(x.(pc := SeatCount(id), puts := map[id := Booking(p, u, Confirmed, price, None)]))
    case SeatCount(b) => Continue(x.(pc := SeatClose(b), delta := 1))
    case SeatClose(b) =>
      var k := (p, u);
      Continue(x.(pc := Done(Seating), closed :=
        if k in v.waitlist && (v.waitlist[k].status.Waiting? || v.waitlist[k].status.Offered?)
        then map[k := v.waitlist[k].(status := Accepted)] else map[]))
    case PaidRead(b) =>
      if b !in v.bookings then Abort
      else
        var row := v.bookings[b];
        if row.status.Confirmed? || row.status.Attended? then Abort
        else if !row.status.PaymentPending? && !row.status.Cancelled? then Abort
        else Continue(x.(pc := PaidLock(b), plan := row.plan, user := row.user))
    case PaidLock(b) =>
      if p !in v.plans then Abort
      else Continue(x.(locked := true,
        pc := PaidHolds(b, v.plans[p].capacity, v.plans[p].confirmed, v.plans[p].status.Published?)))
    case PaidHolds(b, capacity, confirmed, published) =>
      if !published || confirmed + ActiveHolds(v, p, x.t, Some(u)) >= capacity then Abort
      else Continue(x.(pc := PaidUpdate(b)))
    case PaidUpdate(b) =>
      if b !in v.bookings then Abort
      else Continue(x.(pc := SeatCount(b), seen := map[b := v.bookings[b]],
                       puts := map[b := v.bookings[b].(status := Confirmed, expires := None)]))
    case CancelLock(b, wall) =>
      if b !in v.bookings then Abort
      else Continue(x.(pc := CancelUpdate(b, wall), seen := map[b := v.bookings[b]],
                       plan := v.bookings[b].plan, user := v.bookings[b].user))
    case CancelUpdate(b, wall) =>
      if b !in v.bookings || (!v.bookings[b].status.Confirmed? && !v.bookings[b].status.PaymentPending?) then Abort
      else Continue(x.(puts := map[b := v.bookings[b].(status := Cancelled)],
                       pc := if v.bookings[b].status.PaymentPending? then Done(Releasing) else CancelCount(b, wall)))
    case CancelCount(b, wall) =>
      if p !in v.plans then Abort else Continue(x.(locked := true, delta := -1, pc := OfferRead(wall)))
    case OfferLock(wall) =>
      if p !in v.plans then Abort else Continue(x.(locked := true, pc := OfferRead(wall)))
    case LeaveLock(wall) =>
      if p !in v.plans then Abort else Continue(x.(locked := true, pc := LeaveClose(wall)))
    case LeaveClose(wall) =>
      var k := (p, u);
      Continue(x.(pc := OfferRead(wall), closed :=
        if k in v.waitlist && (v.waitlist[k].status.Waiting? || v.waitlist[k].status.Offered?)
        then map[k := v.waitlist[k].(status := Left)] else map[]))
    case OfferRead(wall) =>
      if p !in v.plans then Abort
      else if !v.plans[p].status.Published? || v.plans[p].startsAt <= wall then Continue(x.(pc := Done(Offering)))
      else Continue(x.(pc := OfferHolds(wall, v.plans[p].capacity, v.plans[p].confirmed)))
    case OfferHolds(wall, capacity, confirmed) =>
      Continue(x.(pc := OfferUpdate(wall, capacity - confirmed - ActiveHolds(v, p, x.t, None))))
    case OfferUpdate(wall, free) =>
      if keys <= WaitingRows(v, p) && |keys| <= free
      then Continue(x.(pc := Done(Offering),
        offers := map k | k in keys :: v.waitlist[k].(status := Offered, offerExpires := Some(wall + OFFER_TTL))))
      else Continue(x.(pc := Done(Offering)))
    case Done(_) => Commit
  }

  // ---- row locks ----

  ghost predicate Apart(x: Txn, y: Txn) {
    && !(x.locked && y.locked && x.plan == y.plan)
    && (x.seen.Keys + x.puts.Keys) !! (y.seen.Keys + y.puts.Keys)
    && (x.closed.Keys + x.offers.Keys) !! (y.closed.Keys + y.offers.Keys)
  }

  ghost predicate Unclaimed(s: Sys, db': Db) {
    forall i :: i in s.txns ==>
      && (forall b :: b in s.txns[i].seen && b in s.db.bookings ==>
        b in db'.bookings && db'.bookings[b] == s.db.bookings[b])
      && (forall k :: k in s.txns[i].closed.Keys + s.txns[i].offers.Keys && k in s.db.waitlist ==>
            k in db'.waitlist && db'.waitlist[k] == s.db.waitlist[k])
      && (s.txns[i].locked && s.txns[i].plan in s.db.plans ==>
            s.txns[i].plan in db'.plans && db'.plans[s.txns[i].plan] == s.db.plans[s.txns[i].plan])
  }

  ghost predicate Fresh(x: Txn, now: int) {
    && x.t <= now && !x.locked && x.delta == 0
    && x.puts == map[] && x.seen == map[] && x.closed == map[] && x.offers == map[]
    && (x.pc.CreateLock? || x.pc.PaidRead? || x.pc.CancelLock? || x.pc.OfferLock? || x.pc.LeaveLock?)
  }

  datatype Move =
    | Begin(i: TxnId, x: Txn)
    | Do(i: TxnId, keys: set<SeatKey>)
    | Rollback(i: TxnId)
    | Quiet(db: Db)               // a single-statement job, check-in or plan cancellation on rows nobody has locked
    | Queue(k: SeatKey, e: Entry) // JoinWaitlist's write, while nobody has the plan row
    | Tick(to: int)

  ghost predicate Next(s: Sys, m: Move, s': Sys) {
    match m
    case Begin(i, x) => i !in s.txns && Fresh(x, s.now) && s' == s.(txns := s.txns[i := x])
    case Do(i, keys) =>
      i in s.txns &&
      (match Statement(Sees(s.db, s.txns[i]), s.txns[i], keys)
       case Continue(x) =>
         (forall j :: j in s.txns && j != i ==> Apart(x, s.txns[j])) && s' == s.(txns := s.txns[i := x])
       case Commit => s' == s.(db := Sees(s.db, s.txns[i]), txns := s.txns - {i})
       case Abort => s' == s.(txns := s.txns - {i}))
    case Rollback(i) => i in s.txns && s' == s.(txns := s.txns - {i})
    case Quiet(db) =>
      QuietBookings(s.db, db) && QuietWaitlist(s.db, db) && QuietPlans(s.db, db) && Unclaimed(s, db)
        && s' == s.(db := db)
    case Queue(k, e) =>
      && e.status.Waiting? && (k in s.db.waitlist ==> !s.db.waitlist[k].status.Offered?)
      && (forall i :: i in s.txns ==>
        !(s.txns[i].locked && s.txns[i].plan == k.0) && k !in s.txns[i].closed.Keys + s.txns[i].offers.Keys)
      && s' == s.(db := s.db.(waitlist := s.db.waitlist[k := e]))
    case Tick(to) => s.now <= to && s' == s.(now := to)
  }

  // ---- what holds at every statement ----

  ghost predicate Fits(db: Db, p: PlanId, now: int)
    requires p in db.plans
  {
    db.plans[p].confirmed + |Holders(db, p, now)| <= db.plans[p].capacity
  }

  ghost predicate Room(db: Db, x: Txn, now: int)
    requires x.plan in db.plans
  {
    db.plans[x.plan].confirmed + |HoldUsers(db, x.plan, now, Some(x.user))| < db.plans[x.plan].capacity
  }

  // The transaction's view without the offers it made.
  function Base(db: Db, x: Txn): Db {
    Sees(db, x.(offers := map[]))
  }

  ghost predicate SparesFor(db: Db, x: Txn, now: int, n: int)
    requires x.plan in db.plans
  {
    var plan := db.plans[x.plan];
    n > 0 ==> plan.confirmed + x.delta + |HoldUsers(Base(db, x), x.plan, now, None)| + n <= plan.capacity
  }

  ghost predicate NoWrites(x: Txn) {
    x.puts == map[] && x.closed == map[] && x.offers == map[] && x.delta == 0
  }

  ghost predicate Owner(db: Db, x: Txn, b: BookingId) {
    b in db.bookings && db.bookings[b].plan == x.plan && db.bookings[b].user == x.user
  }

  ghost predicate Puts(x: Txn, b: BookingId) {
    b in x.puts && x.puts == map[b := x.puts[b]] && x.puts[b].status.Confirmed? && x.puts[b].user == x.user
  }

  // Old payment holds cancelled and, at most, new ones written under new ids.
  ghost predicate Clears(x: Txn) {
    forall b :: b in x.puts ==>
      if x.puts[b].status.PaymentPending? then b !in x.seen
      else x.puts[b].status.Cancelled? && b in x.seen && x.seen[b].status.PaymentPending?
  }

  // Nothing but, at most, one confirmed booking cancelled and taken off the count.
  ghost predicate Frees(x: Txn) {
    && x.locked && x.delta == -|x.puts| && |x.puts| <= 1
    && forall b :: b in x.puts ==> x.puts[b].status.Cancelled? && b in x.seen && x.seen[b].status.Confirmed?
                                   && x.seen[b].user == x.user
  }

  ghost predicate WritesOk(db: Db, x: Txn) {
    && (forall b :: b in x.seen ==> b in db.bookings && db.bookings[b] == x.seen[b])
    && (forall b :: b in x.puts ==> x.puts[b].plan == x.plan)
    && (forall b :: b in x.puts && b in x.seen ==> x.seen[b].plan == x.plan && x.seen[b].user == x.puts[b].user)
    && (forall b :: b in x.puts && b !in x.seen ==> b !in db.bookings)
    && (forall k :: k in x.closed ==> k.0 == x.plan && !x.closed[k].status.Offered?)
    && (forall k :: k in x.offers ==> k.0 == x.plan)
    && (x.locked ==> x.plan in db.plans)
  }

  ghost predicate StageOk(db: Db, x: Txn, now: int)
    requires WritesOk(db, x)
  {
    match x.pc
    case CreateLock(_, _) => NoWrites(x) && !x.locked
    case CreateHolds(_, _, capacity, confirmed, _) => NoWrites(x) && x.locked && Current(db, x, capacity, confirmed)
    case CreateExisting(_, _, _) => NoWrites(x) && x.locked && Room(db, x, now)
    case CreateResume(_, _, _) => NoWrites(x) && x.locked && Room(db, x, now)
    case CreateClear(_, _, _) => NoWrites(x) && x.locked && Room(db, x, now)
    case InsertHold(_, _, _) =>
      x.delta == 0 && x.closed == map[] && x.offers == map[] && x.locked && Room(db, x, now) && Clears(x)
      && forall b :: b in x.puts ==> x.puts[b].user == x.user
    case InsertSeat(_, _) => NoWrites(x) && x.locked && Room(db, x, now)
    case SeatCount(b) =>
      x.delta == 0 && x.closed == map[] && x.offers == map[] && x.locked && Room(db, x, now) && Puts(x, b)
    case SeatClose(b) =>
      x.delta == 1 && x.closed == map[] && x.offers == map[] && x.locked && Room(db, x, now) && Puts(x, b)
    case PaidRead(_) => NoWrites(x) && !x.locked
    case PaidLock(b) => NoWrites(x) && !x.locked && Owner(db, x, b)
    case PaidHolds(b, capacity, confirmed, _) =>
      NoWrites(x) && x.locked && Owner(db, x, b) && Current(db, x, capacity, confirmed)
    case PaidUpdate(b) => NoWrites(x) && x.locked && Owner(db, x, b) && Room(db, x, now)
    case CancelLock(_, _) => NoWrites(x) && !x.locked
    case CancelUpdate(b, _) => NoWrites(x) && !x.locked && Owner(db, x, b) && b in x.seen
    case CancelCount(b, _) =>
      && x.delta == 0 && x.closed == map[] && x.offers == map[] && !x.locked
      && b in x.puts && x.puts == map[b := x.puts[b]]
      && x.puts[b].status.Cancelled? && b in x.seen && x.seen[b].status.Confirmed? && x.seen[b].user == x.user
    case OfferLock(_) => NoWrites(x) && !x.locked
    case LeaveLock(_) => NoWrites(x) && !x.locked
    case LeaveClose(_) => NoWrites(x) && x.locked
    case OfferRead(_) => Frees(x) && x.offers == map[]
    case OfferHolds(_, capacity, confirmed) =>
      Frees(x) && x.offers == map[] && capacity == db.plans[x.plan].capacity
        && confirmed == db.plans[x.plan].confirmed + x.delta
    case OfferUpdate(_, free) => Frees(x) && x.offers == map[] && SparesFor(db, x, now, free)
    case Done(kind) =>
      match kind
      case Seating => x.delta == 1 && x.offers == map[] && x.locked && Room(db, x, now) && exists b :: Puts(x, b)
      case Holding =>
        x.delta == 0 && x.closed == map[] && x.offers == map[] && x.locked && Room(db, x, now) && Clears(x)
        && forall b :: b in x.puts ==> x.puts[b].user == x.user
      case Offering => Frees(x) && SparesFor(db, x, now, |x.offers|)
      case Releasing =>
        x.delta == 0 && x.closed == map[] && x.offers == map[] && Clears(x) && !x.locked
        && forall b :: b in x.puts ==> x.puts[b].status.Cancelled?
      case Nothing => NoWrites(x)
  }

  ghost predicate Current(db: Db, x: Txn, capacity: int, confirmed: int)
    requires x.plan in db.plans
  {
    capacity == db.plans[x.plan].capacity && confirmed == db.plans[x.plan].confirmed
  }

  ghost predicate TxnOk(db: Db, x: Txn, now: int) {
    x.t <= now && WritesOk(db, x) && StageOk(db, x, now)
  }

  ghost predicate SysInv(s: Sys) {
    && (forall p :: p in s.db.plans ==> Fits(s.db, p, s.now))
    && (forall i :: i in s.txns ==> TxnOk(s.db, s.txns[i], s.now))
    && (forall i, j :: i in s.txns && j in s.txns && i != j ==> Apart(s.txns[i], s.txns[j]))
  }
}
