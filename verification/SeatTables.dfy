// The rows of internal/bookings: plans, bookings, waitlist entries, participants and check-ins.
// Identifiers stand for UUIDs; times are integers in one unit (MINUTE gives the scale).
module SeatTables {
  import opened Finite

  type PlanId = nat
  type UserId = nat
  type BookingId = nat
  type SeatKey = (PlanId, UserId) // UNIQUE (plan_id, user_id)

  const MINUTE: int := 60
  const PAYMENT_HOLD: int := 15 * MINUTE
  const OFFER_TTL: int := 30 * MINUTE
  const NO_SHOW_GRACE: int := 120 * MINUTE
  const REFUND_FULL: int := 24 * 60 * MINUTE

  datatype PlanStatus = Draft | Published | FullPlan | CancelledPlan | Completed
  datatype Plan = Plan(capacity: nat, confirmed: int, price: int, status: PlanStatus, startsAt: int, endsAt: int)

  datatype BookingStatus = Initiated | PaymentPending | Confirmed | Cancelled | Refunded | NoShow | Attended
  datatype Booking = Booking(plan: PlanId, user: UserId, status: BookingStatus, price: int, expires: Option<int>)

  datatype EntryStatus = Waiting | Offered | Accepted | Expired | Left
  datatype Entry = Entry(id: nat, status: EntryStatus, created: int, offerExpires: Option<int>)

  datatype Participant = Participant(booking: BookingId, confirmed: bool, checkedIn: bool)

  datatype Db = Db(
    plans: map<PlanId, Plan>,
    bookings: map<BookingId, Booking>,
    waitlist: map<SeatKey, Entry>,
    participants: map<SeatKey, Participant>,
    checkins: set<BookingId>)

  const EMPTY: Db := Db(map[], map[], map[], map[], {})

  // expires_at > t in SQL: NULL is never greater.
  predicate After(expires: Option<int>, t: int) {
    expires.Some? && t < expires.value
  }

  // A booking in one of these states occupies a seat.
  predicate TakesSeat(s: BookingStatus) {
    s.Confirmed? || s.Attended? || s.NoShow?
  }

  function Seated(db: Db, p: PlanId): set<BookingId> {
    set b | b in db.bookings && db.bookings[b].plan == p && TakesSeat(db.bookings[b].status)
  }

  function SeatedUsers(db: Db, p: PlanId): set<UserId> {
    set b | b in Seated(db, p) :: db.bookings[b].user
  }

  // Unexpired offers on the plan held by anyone but `except`.
  function OfferRows(db: Db, p: PlanId, t: int, except: Option<UserId>): set<SeatKey> {
    set k | k in db.waitlist && k.0 == p && db.waitlist[k].status.Offered?
            && After(db.waitlist[k].offerExpires, t) && Some(k.1) != except
  }

  // Unexpired payment holds on the plan held by anyone but `except`.
  function PendingRows(db: Db, p: PlanId, t: int, except: Option<UserId>): set<BookingId> {
    set b | b in db.bookings && db.bookings[b].plan == p && db.bookings[b].status.PaymentPending?
            && After(db.bookings[b].expires, t) && Some(db.bookings[b].user) != except
  }

  // activeHolds counts rows: one user may appear twice.
  function ActiveHolds(db: Db, p: PlanId, t: int, except: Option<UserId>): nat {
    |OfferRows(db, p, t, except)| + |PendingRows(db, p, t, except)|
  }

  // The people behind those rows.
  function HoldUsers(db: Db, p: PlanId, t: int, except: Option<UserId>): set<UserId> {
    (set k | k in OfferRows(db, p, t, except) :: k.1)
    + (set b | b in PendingRows(db, p, t, except) :: db.bookings[b].user)
  }

  // People with a seat reserved for them that they do not occupy yet.
  function Holders(db: Db, p: PlanId, t: int): set<UserId> {
    HoldUsers(db, p, t, None) - SeatedUsers(db, p)
  }

  // Counting rows never undercounts people.
  lemma HoldUsersAtMostRows(db: Db, p: PlanId, t: int, except: Option<UserId>)
    ensures |HoldUsers(db, p, t, except)| <= ActiveHolds(db, p, t, except)
  {
    var offers := set k | k in OfferRows(db, p, t, except) :: k.1;
    var pending := set b | b in PendingRows(db, p, t, except) :: db.bookings[b].user;
    CardImage(OfferRows(db, p, t, except), (k: SeatKey) => k.1, offers);
    CardImage(PendingRows(db, p, t, except), b => if b in db.bookings then db.bookings[b].user else 0, pending);
    CardUnion(offers, pending);
  }

  // Holds only lapse as time passes.
  lemma HoldsLapse(db: Db, p: PlanId, t: int, later: int, except: Option<UserId>)
    requires t <= later
    ensures OfferRows(db, p, later, except) <= OfferRows(db, p, t, except)
    ensures PendingRows(db, p, later, except) <= PendingRows(db, p, t, except)
    ensures HoldUsers(db, p, later, except) <= HoldUsers(db, p, t, except)
    ensures Holders(db, p, later) <= Holders(db, p, t)
    ensures ActiveHolds(db, p, later, except) <= ActiveHolds(db, p, t, except)
  {
    CardLe(OfferRows(db, p, later, except), OfferRows(db, p, t, except));
    CardLe(PendingRows(db, p, later, except), PendingRows(db, p, t, except));
  }

  // The waitlist queue: ORDER BY created_at, id.
  predicate Ahead(a: Entry, b: Entry) {
    a.created < b.created || (a.created == b.created && a.id <= b.id)
  }

  function WaitingRows(db: Db, p: PlanId): set<SeatKey> {
    set k | k in db.waitlist && k.0 == p && db.waitlist[k].status.Waiting?
  }

  // The position waitlistStatus reports: how many waiting rows are not behind this one.
  function Position(db: Db, p: PlanId, k: SeatKey): nat
    requires k in db.waitlist
  {
    |set j | j in WaitingRows(db, p) && Ahead(db.waitlist[j], db.waitlist[k])|
  }

  function FreeSeats(db: Db, p: PlanId, t: int): int
    requires p in db.plans
  {
    db.plans[p].capacity - db.plans[p].confirmed - ActiveHolds(db, p, t, None)
  }
}
