// What each transaction of internal/bookings does to the rows. A transaction carries two clocks:
// `t` is the database's now(), frozen when the transaction began, and `wall` is the server's time.Now().
module SeatRules {
  import opened Finite
  import opened SeatTables

  // The foreign keys bookings.plan_id and waitlist_entries.plan_id.
  ghost predicate ForeignKeys(db: Db) {
    && (forall b :: b in db.bookings ==> db.bookings[b].plan in db.plans)
    && (forall k :: k in db.waitlist ==> k.0 in db.plans)
  }

  // ---- booking a seat ----

  // seatConfirmedBooking: the participant row, the seat count and the consumed waitlist entry.
  function Seat(db: Db, b: BookingId, p: PlanId, u: UserId): Db
    requires p in db.plans
  {
    db.(participants := db.participants[(p, u) := Participant(b, true, false)],
        plans := db.plans[p := db.plans[p].(confirmed := db.plans[p].confirmed + 1)],
        waitlist := Close(db.waitlist, (p, u), Accepted))
  }

  // UPDATE waitlist_entries ... WHERE status IN ('waiting','offered').
  function Close(waitlist: map<SeatKey, Entry>, k: SeatKey, to: EntryStatus): map<SeatKey, Entry> {
    if k in waitlist && (waitlist[k].status.Waiting? || waitlist[k].status.Offered?)
    then waitlist[k := waitlist[k].(status := to)]
    else waitlist
  }

  predicate HasConfirmed(db: Db, p: PlanId, u: UserId) {
    exists b :: b in db.bookings && db.bookings[b].plan == p && db.bookings[b].user == u
                && db.bookings[b].status.Confirmed?
  }

  function OwnPending(db: Db, p: PlanId, u: UserId): set<BookingId> {
    set b | b in db.bookings && db.bookings[b].plan == p && db.bookings[b].user == u
            && db.bookings[b].status.PaymentPending?
  }

  function OwnLiveHolds(db: Db, p: PlanId, u: UserId, t: int): set<BookingId> {
    set b | b in OwnPending(db, p, u) && After(db.bookings[b].expires, t)
  }

  datatype CreateKind = NoPlan | PlanFull | AlreadyBooked | Resumed | Held | Booked

  function CreateKindOf(db: Db, p: PlanId, u: UserId, t: int): CreateKind {
    if p !in db.plans || !db.plans[p].status.Published? then NoPlan
    else if db.plans[p].confirmed + ActiveHolds(db, p, t, Some(u)) >= db.plans[p].capacity then PlanFull
    else if HasConfirmed(db, p, u) then AlreadyBooked
    else if db.plans[p].price <= 0 then Booked
    else if OwnLiveHolds(db, p, u, t) != {} then Resumed
    else Held
  }

  function CancelAll(bookings: map<BookingId, Booking>, ids: set<BookingId>): map<BookingId, Booking> {
    map b | b in bookings :: if b in ids then bookings[b].(status := Cancelled) else bookings[b]
  }

  function Create(db: Db, p: PlanId, u: UserId, t: int, wall: int, id: BookingId): Db {
    match CreateKindOf(db, p, u, t)
    case Booked =>
      Seat(db.(bookings := db.bookings[id := Booking(p, u, Confirmed, db.plans[p].price, None)]), id, p, u)
    case Held =>
      db.(bookings := CancelAll(db.bookings, OwnPending(db, p, u))
                      [id := Booking(p, u, PaymentPending, db.plans[p].price, Some(wall + PAYMENT_HOLD))])
    case _ => db
  }

  datatype ConfirmKind = NoBooking | Already | SeatGone | Seats

  function ConfirmKindOf(db: Db, b: BookingId, t: int): ConfirmKind
    requires ForeignKeys(db)
  {
    if b !in db.bookings then NoBooking
    else
      var row := db.bookings[b];
      if row.status.Confirmed? || row.status.Attended? then Already
      else if !row.status.PaymentPending? && !row.status.Cancelled? then NoBooking
      else
        var plan := db.plans[row.plan];
        if !plan.status.Published? || plan.confirmed + ActiveHolds(db, row.plan, t, Some(row.user)) >= plan.capacity
        then SeatGone
        else Seats
  }

  function ConfirmPaid(db: Db, b: BookingId, t: int): Db
    requires ForeignKeys(db)
  {
    if ConfirmKindOf(db, b, t).Seats? then
      var row := db.bookings[b];
      Seat(db.(bookings := db.bookings[b := row.(status := Confirmed, expires := None)]), b, row.plan, row.user)
    else db
  }

  // ---- giving a seat back ----

  // The whole payment comes back when the host cancels, or when there is still a day to go.
  function RefundPercent(startsAt: int, now: int, byHost: bool): nat {
    if byHost || startsAt - now >= REFUND_FULL then 100 else 0
  }

  // offerFreedSeats: everybody whose position is within the free seats gets an offer.
  function OfferFreed(db: Db, p: PlanId, t: int, wall: int): Db
    requires p in db.plans
  {
    if !db.plans[p].status.Published? || db.plans[p].startsAt <= wall then db
    else OfferTo(db, Within(db, p, FreeSeats(db, p, t)), wall)
  }

  function Within(db: Db, p: PlanId, free: int): set<SeatKey> {
    set k | k in WaitingRows(db, p) && Position(db, p, k) <= free
  }

  function OfferTo(db: Db, keys: set<SeatKey>, wall: int): Db {
    db.(waitlist := map k | k in db.waitlist ::
          if k in keys then db.waitlist[k].(status := Offered, offerExpires := Some(wall + OFFER_TTL))
          else db.waitlist[k])
  }

  datatype CancelKind = NotFound | Released | SeatFreed

  function CancelKindOf(db: Db, b: BookingId): CancelKind {
    if b !in db.bookings then NotFound
    else if db.bookings[b].status.PaymentPending? then Released
    else if db.bookings[b].status.Confirmed? then SeatFreed
    else NotFound
  }

  // Everything Cancel does before it looks at the waitlist.
  function FreeSeat(db: Db, b: BookingId): Db
    requires ForeignKeys(db) && b in db.bookings
  {
    var p := db.bookings[b].plan;
    db.(bookings := db.bookings[b := db.bookings[b].(status := Cancelled)],
        plans := db.plans[p := db.plans[p].(confirmed := db.plans[p].confirmed - 1)],
        participants := map k | k in db.participants ::
          if db.participants[k].booking == b then db.participants[k].(confirmed := false) else db.participants[k])
  }

  function Cancel(db: Db, b: BookingId, t: int, wall: int): Db
    requires ForeignKeys(db)
  {
    match CancelKindOf(db, b)
    case NotFound => db
    case Released => db.(bookings := db.bookings[b := db.bookings[b].(status := Cancelled)])
    case SeatFreed => OfferFreed(FreeSeat(db, b), db.bookings[b].plan, t, wall)
  }

  function ExpirePending(db: Db, cut: int): Db {
    db.(bookings := CancelAll(db.bookings, set b | b in db.bookings && db.bookings[b].status.PaymentPending?
                                                  && db.bookings[b].expires.Some?
                                                    && db.bookings[b].expires.value <= cut))
  }

  // ---- attendance ----

  function CheckIn(db: Db, b: BookingId): Db {
    if b in db.bookings && db.bookings[b].status.Confirmed? then
      db.(bookings := db.bookings[b := db.bookings[b].(status := Attended)],
          checkins := db.checkins + {b},
          participants := map k | k in db.participants ::
            if db.participants[k].booking == b then db.participants[k].(checkedIn := true) else db.participants[k])
    else db
  }

  // Confirmed bookings of plans that ended long enough ago and whose host did use check-in.
  function Absent(db: Db, now: int): set<BookingId>
    requires ForeignKeys(db)
  {
    set b | b in db.bookings && db.bookings[b].status.Confirmed?
            && db.plans[db.bookings[b].plan].startsAt < db.plans[db.bookings[b].plan].endsAt
            && db.plans[db.bookings[b].plan].endsAt + NO_SHOW_GRACE < now
            && exists c :: c in db.checkins && c in db.bookings && db.bookings[c].plan == db.bookings[b].plan
  }

  function MarkNoShows(db: Db, now: int): Db
    requires ForeignKeys(db)
  {
    db.(bookings := map b | b in db.bookings ::
          if b in Absent(db, now) then db.bookings[b].(status := NoShow) else db.bookings[b])
  }

  // ---- the waitlist ----

  datatype View = Unlisted | InQueue(position: nat, total: nat) | HasOffer(until: int)

  // waitlistStatus
  function ViewOf(db: Db, p: PlanId, u: UserId, wall: int): View {
    if (p, u) !in db.waitlist then Unlisted
    else
      var e := db.waitlist[(p, u)];
      if e.status.Offered? && After(e.offerExpires, wall) then HasOffer(e.offerExpires.value)
      else if e.status.Waiting? then InQueue(Position(db, p, (p, u)), |WaitingRows(db, p)|)
      else Unlisted
  }

  datatype JoinKind = JoinNoPlan | JoinBooked | JoinOffered | JoinNotFull | Queued

  function JoinKindOf(db: Db, p: PlanId, u: UserId, t: int, wall: int): JoinKind {
    if p !in db.plans || !db.plans[p].status.Published? || db.plans[p].startsAt <= wall then JoinNoPlan
    else if HasConfirmed(db, p, u) then JoinBooked
    else if ViewOf(db, p, u, wall).HasOffer? then JoinOffered
    else if db.plans[p].confirmed + ActiveHolds(db, p, t, Some(u)) < db.plans[p].capacity then JoinNotFull
    else Queued
  }

  // A new or finished entry goes to the back; a waiting one keeps its place.
  function Join(db: Db, p: PlanId, u: UserId, t: int, wall: int, id: nat): Db {
    if !JoinKindOf(db, p, u, t, wall).Queued? then db
    else if (p, u) !in db.waitlist then
      db.(waitlist := db.waitlist[(p, u) := Entry(id, Waiting, t, None)])
    else
      var e := db.waitlist[(p, u)];
      if e.status.Left? || e.status.Expired? || e.status.Accepted?
      then db.(waitlist := db.waitlist[(p, u) := Entry(e.id, Waiting, t, None)])
      else db
  }

  function Leave(db: Db, p: PlanId, u: UserId, t: int, wall: int): Db {
    if p !in db.plans then db
    else OfferFreed(db.(waitlist := Close(db.waitlist, (p, u), Left)), p, t, wall)
  }

  // The UPDATE that opens SweepWaitlist.
  function ExpireOffers(db: Db, cut: int): Db {
    db.(waitlist := map k | k in db.waitlist ::
          if db.waitlist[k].status.Offered? && db.waitlist[k].offerExpires.Some?
             && db.waitlist[k].offerExpires.value <= cut
          then db.waitlist[k].(status := Expired) else db.waitlist[k])
  }

  function OfferForPlan(db: Db, p: PlanId, t: int, wall: int): Db {
    if p in db.plans then OfferFreed(db, p, t, wall) else db
  }

  function ExpireWaitlist(db: Db, p: PlanId): Db {
    db.(waitlist := map k | k in db.waitlist ::
          if k.0 == p && (db.waitlist[k].status.Waiting? || db.waitlist[k].status.Offered?)
          then db.waitlist[k].(status := Expired) else db.waitlist[k])
  }

  // ---- the plan itself ----

  function AddPlan(db: Db, p: PlanId, capacity: nat, price: int, startsAt: int, endsAt: int): Db {
    if p in db.plans then db
    else db.(plans := db.plans[p := Plan(capacity, 0, price, Published, startsAt, endsAt)])
  }

  function CancelPlan(db: Db, p: PlanId): Db {
    if p in db.plans then db.(plans := db.plans[p := db.plans[p].(status := CancelledPlan)]) else db
  }

  function Ended(db: Db, now: int): set<PlanId> {
    set p | p in db.plans && db.plans[p].status.Published? && db.plans[p].startsAt < db.plans[p].endsAt < now
  }

  function CompleteEnded(db: Db, now: int): Db {
    db.(plans := map p | p in db.plans ::
          if p in Ended(db, now) then db.plans[p].(status := Completed) else db.plans[p])
  }

  // ---- runs ----

  datatype Step =
    | DoAddPlan(p: PlanId, capacity: nat, price: int, startsAt: int, endsAt: int)
    | DoCreate(p: PlanId, u: UserId, t: int, wall: int, id: BookingId)
    | DoConfirmPaid(b: BookingId, t: int)
    | DoCancel(b: BookingId, t: int, wall: int)
    | DoExpirePending(cut: int)
    | DoCheckIn(b: BookingId)
    | DoMarkNoShows(now: int)
    | DoJoin(p: PlanId, u: UserId, t: int, wall: int, entry: nat)
    | DoLeave(p: PlanId, u: UserId, t: int, wall: int)
    | DoExpireOffers(cut: int)
    | DoOfferForPlan(p: PlanId, t: int, wall: int)
    | DoExpireWaitlist(p: PlanId)
    | DoCancelPlan(p: PlanId)
    | DoCompleteEnded(now: int)
    | DoTick(to: int)

  // The rows together with the latest time any transaction has seen.
  datatype World = World(db: Db, now: int)

  // Transactions start no later than the clock; generated ids are new; the waitlist of a plan is
  // expired by the handler of its cancellation event.
  ghost predicate Enabled(w: World, s: Step) {
    match s
    case DoCreate(p, u, t, wall, id) => t <= w.now && id !in w.db.bookings
    case DoConfirmPaid(b, t) => t <= w.now
    case DoCancel(b, t, wall) => t <= w.now
    case DoJoin(p, u, t, wall, id) => t <= w.now && forall k :: k in w.db.waitlist ==> w.db.waitlist[k].id != id
    case DoLeave(p, u, t, wall) => t <= w.now
    case DoExpireOffers(cut) => cut <= w.now
    case DoOfferForPlan(p, t, wall) => t <= w.now
    case DoExpireWaitlist(p) => p in w.db.plans && w.db.plans[p].status.CancelledPlan?
    case DoTick(to) => w.now <= to
    case _ => true
  }

  function Apply(w: World, s: Step): World
    requires ForeignKeys(w.db)
  {
    match s
    case DoAddPlan(p, capacity, price, startsAt, endsAt) =>
      w.(db := AddPlan(w.db, p, capacity, price, startsAt, endsAt))
    case DoCreate(p, u, t, wall, id) => w.(db := Create(w.db, p, u, t, wall, id))
    case DoConfirmPaid(b, t) => w.(db := ConfirmPaid(w.db, b, t))
    case DoCancel(b, t, wall) => w.(db := Cancel(w.db, b, t, wall))
    case DoExpirePending(cut) => w.(db := ExpirePending(w.db, cut))
    case DoCheckIn(b) => w.(db := CheckIn(w.db, b))
    case DoMarkNoShows(now) => w.(db := MarkNoShows(w.db, now))
    case DoJoin(p, u, t, wall, id) => w.(db := Join(w.db, p, u, t, wall, id))
    case DoLeave(p, u, t, wall) => w.(db := Leave(w.db, p, u, t, wall))
    case DoExpireOffers(cut) => w.(db := ExpireOffers(w.db, cut))
    case DoOfferForPlan(p, t, wall) => w.(db := OfferForPlan(w.db, p, t, wall))
    case DoExpireWaitlist(p) => w.(db := ExpireWaitlist(w.db, p))
    case DoCancelPlan(p) => w.(db := CancelPlan(w.db, p))
    case DoCompleteEnded(now) => w.(db := CompleteEnded(w.db, now))
    case DoTick(to) => w.(now := to)
  }
}
