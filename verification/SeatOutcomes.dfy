// What a caller finds in the tables afterwards: every row each transaction writes, what it writes there, and that
// it writes no other - told in the tables' own words.
module SeatOutcomes {
  import opened Finite
  import opened SeatTables
  import opened SeatRules

  // ---- rows that stay ----

  ghost predicate OthersStay<K(!new), V(!new)>(m: map<K, V>, m': map<K, V>, k: K) {
    forall j :: j != k ==> (j in m' <==> j in m) && (j in m ==> m'[j] == m[j])
  }

  // ---- who counts as holding a seat ----

  // An unexpired reservation of somebody else: an offer, or a booking that waits for its payment.
  ghost predicate OffersTo(db: Db, k: SeatKey, p: PlanId, t: int, u: UserId) {
    && k in db.waitlist && k.0 == p && k.1 != u && db.waitlist[k].status == Offered
    && db.waitlist[k].offerExpires.Some? && db.waitlist[k].offerExpires.value > t
  }

  ghost predicate PaysFor(db: Db, b: BookingId, p: PlanId, t: int, u: UserId) {
    && b in db.bookings && db.bookings[b].plan == p && db.bookings[b].user != u
      && db.bookings[b].status == PaymentPending
    && db.bookings[b].expires.Some? && db.bookings[b].expires.value > t
  }

  // A plan has room for a person when the seats taken and everybody else's unexpired reservations leave one.
  ghost predicate RoomFor(db: Db, p: PlanId, t: int, u: UserId)
    requires p in db.plans
  {
    var offers := set k | k in db.waitlist && OffersTo(db, k, p, t, u);
    var payments := set b | b in db.bookings && PaysFor(db, b, p, t, u);
    |offers| + |payments| < db.plans[p].capacity - db.plans[p].confirmed
  }

  lemma RoomMeans(db: Db, p: PlanId, t: int, u: UserId)
    requires p in db.plans
    ensures RoomFor(db, p, t, u) <==> db.plans[p].confirmed + ActiveHolds(db, p, t, Some(u)) < db.plans[p].capacity
  {
    assert (set k | k in db.waitlist && OffersTo(db, k, p, t, u)) == OfferRows(db, p, t, Some(u));
    assert (set b | b in db.bookings && PaysFor(db, b, p, t, u)) == PendingRows(db, p, t, Some(u));
  }

  // ---- taking a seat ----

  // Booking b sits: the participant row is its own, confirmed and not checked in; the plan counts one more; a live
  // waitlist row of the person is used up; no other row changes.
  ghost predicate Sits(db: Db, db': Db, b: BookingId, p: PlanId, u: UserId) {
    && b in db'.bookings && db'.bookings[b].status == Confirmed && db'.bookings[b].plan == p
      && db'.bookings[b].user == u
    && OthersStay(db.bookings, db'.bookings, b)
    && (p, u) in db'.participants && db'.participants[(p, u)].booking == b
    && db'.participants[(p, u)].confirmed && !db'.participants[(p, u)].checkedIn
    && OthersStay(db.participants, db'.participants, (p, u))
    && p in db.plans && p in db'.plans && db'.plans[p] == db.plans[p].(confirmed := db.plans[p].confirmed + 1)
    && OthersStay(db.plans, db'.plans, p)
    && ((p, u) in db'.waitlist <==> (p, u) in db.waitlist)
    && ((p, u) in db.waitlist ==>
          var e := db.waitlist[(p, u)];
          db'.waitlist[(p, u)] == if e.status == Waiting || e.status == Offered then e.(status := Accepted) else e)
    && OthersStay(db.waitlist, db'.waitlist, (p, u))
    && db'.checkins == db.checkins
  }

  lemma BookedSits(db: Db, p: PlanId, u: UserId, t: int, wall: int, id: BookingId)
    requires CreateKindOf(db, p, u, t).Booked?
    ensures var db' := Create(db, p, u, t, wall, id);
      Sits(db, db', id, p, u) && db'.bookings[id].price == db.plans[p].price && db'.bookings[id].expires == None
  {
    hide ActiveHolds, HasConfirmed, OwnLiveHolds;
  }

  lemma PaidSits(db: Db, b: BookingId, t: int)
    requires ForeignKeys(db) && ConfirmKindOf(db, b, t).Seats?
    ensures var db', row := ConfirmPaid(db, b, t), db.bookings[b];
      Sits(db, db', b, row.plan, row.user) && db'.bookings[b].price == row.price && db'.bookings[b].expires == None
  {
    hide ActiveHolds;
  }

  ghost predicate HasSeat(db: Db, p: PlanId, u: UserId) {
    exists b ::
      b in db.bookings && db.bookings[b].plan == p && db.bookings[b].user == u && db.bookings[b].status == Confirmed
  }

  // Which of the answers a booking gets.
  lemma CreateAnswers(db: Db, p: PlanId, u: UserId, t: int)
    ensures var kind := CreateKindOf(db, p, u, t);
      if p !in db.plans || db.plans[p].status != Published then kind.NoPlan?
      else if !RoomFor(db, p, t, u) then kind.PlanFull?
      else if HasSeat(db, p, u)
      then kind.AlreadyBooked?
      else if db.plans[p].price <= 0 then kind.Booked?
      else if exists b :: OwnHold(db, b, p, u) && db.bookings[b].expires.Some? && db.bookings[b].expires.value > t
      then kind.Resumed?
      else kind.Held?
  {
    hide ActiveHolds, RoomFor;
    if p in db.plans {
      RoomMeans(db, p, t, u);
    }
    if b :| OwnHold(db, b, p, u) && db.bookings[b].expires.Some? && db.bookings[b].expires.value > t {
      assert b in OwnLiveHolds(db, p, u, t);
    }
  }

  ghost predicate OwnHold(db: Db, b: BookingId, p: PlanId, u: UserId) {
    b in db.bookings && db.bookings[b].plan == p && db.bookings[b].user == u && db.bookings[b].status == PaymentPending
  }

  lemma ConfirmAnswers(db: Db, b: BookingId, t: int)
    requires ForeignKeys(db)
    ensures var kind := ConfirmKindOf(db, b, t);
      if b !in db.bookings then kind.NoBooking?
      else
        var row := db.bookings[b];
        if row.status == Confirmed || row.status == Attended then kind.Already?
        else if row.status != PaymentPending && row.status != Cancelled then kind.NoBooking?
        else if db.plans[row.plan].status == Published && RoomFor(db, row.plan, t, row.user) then kind.Seats?
        else kind.SeatGone?
  {
    hide ActiveHolds, RoomFor;
    if b in db.bookings {
      RoomMeans(db, db.bookings[b].plan, t, db.bookings[b].user);
    }
  }

  // Anything but a seat or a hold leaves every table as it was.
  lemma RefusalsChangeNothing(db: Db, p: PlanId, u: UserId, t: int, wall: int, id: BookingId, b: BookingId)
    ensures !CreateKindOf(db, p, u, t).Booked? && !CreateKindOf(db, p, u, t).Held? ==>
        Create(db, p, u, t, wall, id) == db
    ensures ForeignKeys(db) && !ConfirmKindOf(db, b, t).Seats? ==> ConfirmPaid(db, b, t) == db
  {
    hide ActiveHolds, HasConfirmed, OwnLiveHolds, OwnPending;
  }

  // A hold is a new booking that waits for its payment; older ones of the same person on the plan are finished.
  lemma HeldOutcome(db: Db, p: PlanId, u: UserId, t: int, wall: int, id: BookingId)
    requires CreateKindOf(db, p, u, t).Held? && id !in db.bookings
    ensures var db' := Create(db, p, u, t, wall, id);
      && db' == db.(bookings := db'.bookings) && db'.bookings.Keys == db.bookings.Keys + {id}
      && db'.bookings[id] == Booking(p, u, PaymentPending, db.plans[p].price, Some(wall + 15 * 60))
      && forall b :: b in db.bookings ==>
           db'.bookings[b] == if OwnHold(db, b, p, u) then db.bookings[b].(status := Cancelled) else db.bookings[b]
  {
    hide ActiveHolds, HasConfirmed, OwnLiveHolds;
  }

  // The hold keeps a seat from others for fifteen minutes, to the moment.
  lemma HoldLasts(db: Db, p: PlanId, u: UserId, t: int, wall: int, id: BookingId, later: int, v: UserId)
    requires CreateKindOf(db, p, u, t).Held? && id !in db.bookings && u != v
    ensures PaysFor(Create(db, p, u, t, wall, id), id, p, later, v) <==> later < wall + 900
  {
    HeldOutcome(db, p, u, t, wall, id);
  }

  // ---- offers ----

  // Exactly the people who are not behind more waiting people than there are free seats get an offer, good for
  // thirty minutes; nothing else changes. There is no offer once the plan is closed or has started.
  lemma OfferOutcome(db: Db, p: PlanId, t: int, wall: int)
    requires p in db.plans
    ensures var db' := OfferFreed(db, p, t, wall);
      && db' == db.(waitlist := db'.waitlist) && db'.waitlist.Keys == db.waitlist.Keys
      && forall k :: k in db.waitlist ==>
           db'.waitlist[k] ==
             if Receives(db, k, p, t, wall)
               then db.waitlist[k].(status := Offered, offerExpires := Some(wall + 30 * 60))
             else db.waitlist[k]
  {
    hide ActiveHolds;
    FreeMeans(db, p, t);
  }

  ghost predicate Receives(db: Db, k: SeatKey, p: PlanId, t: int, wall: int)
    requires p in db.plans
  {
    && db.plans[p].status == Published && db.plans[p].startsAt > wall
    && k in db.waitlist && k.0 == p && db.waitlist[k].status == Waiting
    && (var ahead := set j | j in db.waitlist && Precedes(db, j, k, p); |ahead| < Free(db, p, t))
  }

  // j waits on the plan and joined before k: by time, then by id.
  ghost predicate Precedes(db: Db, j: SeatKey, k: SeatKey, p: PlanId)
    requires k in db.waitlist
  {
    && j in db.waitlist && j.0 == p && j != k && db.waitlist[j].status == Waiting
    && (db.waitlist[j].created < db.waitlist[k].created
        || (db.waitlist[j].created == db.waitlist[k].created && db.waitlist[j].id <= db.waitlist[k].id))
  }

  // Seats nobody sits on and nobody has reserved.
  ghost function Free(db: Db, p: PlanId, t: int): int
    requires p in db.plans
  {
    db.plans[p].capacity - db.plans[p].confirmed
    - |set k | k in db.waitlist && k.0 == p && db.waitlist[k].status == Offered
               && db.waitlist[k].offerExpires.Some? && db.waitlist[k].offerExpires.value > t|
    - |set b | b in db.bookings && db.bookings[b].plan == p && db.bookings[b].status == PaymentPending
               && db.bookings[b].expires.Some? && db.bookings[b].expires.value > t|
  }

  lemma FreeMeans(db: Db, p: PlanId, t: int)
    requires p in db.plans
    ensures Free(db, p, t) == FreeSeats(db, p, t)
    ensures forall k :: k in WaitingRows(db, p) ==>
        Position(db, p, k) == |set j | j in db.waitlist && Precedes(db, j, k, p)| + 1
  {
    assert (set k | k in db.waitlist && k.0 == p && db.waitlist[k].status == Offered
               && db.waitlist[k].offerExpires.Some? && db.waitlist[k].offerExpires.value > t) ==
                 OfferRows(db, p, t, None);
    assert (set b | b in db.bookings && db.bookings[b].plan == p && db.bookings[b].status == PaymentPending
               && db.bookings[b].expires.Some? && db.bookings[b].expires.value > t) == PendingRows(db, p, t, None);
    forall k | k in WaitingRows(db, p)
      ensures Position(db, p, k) == |set j | j in db.waitlist && Precedes(db, j, k, p)| + 1
    {
      PositionMeans(db, p, k);
    }
  }

  lemma PositionMeans(db: Db, p: PlanId, k: SeatKey)
    requires k in WaitingRows(db, p)
    ensures Position(db, p, k) == |set j | j in db.waitlist && Precedes(db, j, k, p)| + 1
  {
    var before := set j | j in db.waitlist && Precedes(db, j, k, p);
    assert (set j | j in WaitingRows(db, p) && Ahead(db.waitlist[j], db.waitlist[k])) == before + {k};
  }

  // ---- giving a seat back ----

  // What Cancel does before it makes offers: the booking is cancelled, the plan counts one less, and the participant
  // rows of that booking are no longer confirmed.
  lemma FreeSeatOutcome(db: Db, b: BookingId)
    requires ForeignKeys(db) && CancelKindOf(db, b).SeatFreed?
    ensures var db', p := FreeSeat(db, b), db.bookings[b].plan;
      && b in db'.bookings && db'.bookings[b] == db.bookings[b].(status := Cancelled)
      && OthersStay(db.bookings, db'.bookings, b)
      && db'.plans.Keys == db.plans.Keys && db'.plans[p] == db.plans[p].(confirmed := db.plans[p].confirmed - 1)
      && OthersStay(db.plans, db'.plans, p)
      && db'.participants.Keys == db.participants.Keys
      && (forall k :: k in db.participants ==>
            var row := db.participants[k];
            db'.participants[k] == if row.booking == b then row.(confirmed := false) else row)
      && db'.waitlist == db.waitlist && db'.checkins == db.checkins
  { }

  lemma CancelOutcome(db: Db, b: BookingId, t: int, wall: int)
    requires ForeignKeys(db)
    ensures var db' := Cancel(db, b, t, wall);
      if b !in db.bookings || (db.bookings[b].status != Confirmed && db.bookings[b].status != PaymentPending) then
        CancelKindOf(db, b).NotFound? && db' == db
      else if db.bookings[b].status == PaymentPending then
        CancelKindOf(db, b).Released? && db' == db.(bookings := db.bookings[b := db.bookings[b].(status := Cancelled)])
      else
        CancelKindOf(db, b).SeatFreed? && db' == OfferFreed(FreeSeat(db, b), db.bookings[b].plan, t, wall)
  { }

  // The event of a cancellation asks for the whole payment when the host cancels or at least a day is left, and for
  // nothing otherwise; the later the cancellation, the less it can be.
  lemma RefundShares(startsAt: int, now: int, byHost: bool)
    ensures RefundPercent(startsAt, now, byHost) == if byHost || now + 24 * 3600 <= startsAt then 100 else 0
    ensures forall later :: later >= now ==>
        RefundPercent(startsAt, later, byHost) <= RefundPercent(startsAt, now, byHost)
  { }

  // ---- jobs ----

  lemma ExpirePendingOutcome(db: Db, cut: int)
    ensures var db' := ExpirePending(db, cut);
      && db' == db.(bookings := db'.bookings) && db'.bookings.Keys == db.bookings.Keys
      && forall b :: b in db.bookings ==>
           var row := db.bookings[b];
           db'.bookings[b] ==
             if row.status == PaymentPending && row.expires.Some? && row.expires.value <= cut
               then row.(status := Cancelled) else row
  { }

  lemma CheckInOutcome(db: Db, b: BookingId)
    ensures var db' := CheckIn(db, b);
      if b in db.bookings && db.bookings[b].status == Confirmed then
        && db'.bookings == db.bookings[b := db.bookings[b].(status := Attended)]
        && db'.plans == db.plans && db'.waitlist == db.waitlist
        && (forall c :: c in db'.checkins <==> c in db.checkins || c == b)
        && db'.participants.Keys == db.participants.Keys
        && forall k :: k in db.participants ==>
             var row := db.participants[k];
             db'.participants[k] == if row.booking == b then row.(checkedIn := true) else row
      else db' == db
  { }

  // Two hours after a plan with a real end is over, those who never came - if anybody was checked in at all.
  lemma NoShowOutcome(db: Db, now: int)
    requires ForeignKeys(db)
    ensures var db' := MarkNoShows(db, now);
      && db' == db.(bookings := db'.bookings) && db'.bookings.Keys == db.bookings.Keys
      && forall b :: b in db.bookings ==>
           var row, plan := db.bookings[b], db.plans[db.bookings[b].plan];
           db'.bookings[b] ==
             if (&& row.status == Confirmed && plan.endsAt > plan.startsAt && now - plan.endsAt > 2 * 60 * 60
                 && exists c :: c in db.checkins && c in db.bookings && db.bookings[c].plan == row.plan)
             then row.(status := NoShow) else row
  { }

  lemma PlanJobsOutcome(db: Db, p: PlanId, now: int)
    ensures var db' := CompleteEnded(db, now);
      && db' == db.(plans := db'.plans) && db'.plans.Keys == db.plans.Keys
      && forall q :: q in db.plans ==>
           var plan := db.plans[q];
           db'.plans[q] ==
             if plan.status == Published && plan.endsAt > plan.startsAt && plan.endsAt < now
               then plan.(status := Completed)
             else plan
    ensures var db' := CancelPlan(db, p);
      && db' == db.(plans := db'.plans) && OthersStay(db.plans, db'.plans, p) && (p in db'.plans <==> p in db.plans)
      && (p in db.plans ==> db'.plans[p] == db.plans[p].(status := CancelledPlan))
  { }

  lemma WaitlistJobsOutcome(db: Db, p: PlanId, cut: int)
    ensures var db' := ExpireOffers(db, cut);
      && db' == db.(waitlist := db'.waitlist) && db'.waitlist.Keys == db.waitlist.Keys
      && forall k :: k in db.waitlist ==>
           var e := db.waitlist[k];
           db'.waitlist[k] ==
             if e.status == Offered && e.offerExpires.Some? && e.offerExpires.value <= cut then e.(status := Expired)
               else e
    ensures var db' := ExpireWaitlist(db, p);
      && db' == db.(waitlist := db'.waitlist) && db'.waitlist.Keys == db.waitlist.Keys
      && forall k :: k in db.waitlist ==>
           var e := db.waitlist[k];
           db'.waitlist[k] ==
             if k.0 == p && (e.status == Waiting || e.status == Offered) then e.(status := Expired) else e
  { }

  // ---- joining and leaving ----

  lemma ViewOutcome(db: Db, p: PlanId, u: UserId, wall: int)
    ensures var v, k := ViewOf(db, p, u, wall), (p, u);
      if k in db.waitlist && db.waitlist[k].status == Waiting then
        && v.InQueue? && v.position == |set j | j in db.waitlist && Precedes(db, j, k, p)| + 1
        && v.total == |set j | j in db.waitlist && j.0 == p && db.waitlist[j].status == Waiting|
      else if (&& k in db.waitlist && db.waitlist[k].status == Offered
               && db.waitlist[k].offerExpires.Some? && db.waitlist[k].offerExpires.value > wall)
      then v == HasOffer(db.waitlist[k].offerExpires.value)
      else v == Unlisted
  {
    if (p, u) in WaitingRows(db, p) {
      PositionMeans(db, p, (p, u));
      assert WaitingRows(db, p) == set j | j in db.waitlist && j.0 == p && db.waitlist[j].status == Waiting;
    }
  }

  // Joining is for a plan that can still be attended, people without a booking or a live offer, and no room for them.
  lemma JoinAnswers(db: Db, p: PlanId, u: UserId, t: int, wall: int)
    ensures var kind, k := JoinKindOf(db, p, u, t, wall), (p, u);
      if p !in db.plans || db.plans[p].status != Published || db.plans[p].startsAt <= wall then kind.JoinNoPlan?
      else if HasSeat(db, p, u)
      then kind.JoinBooked?
      else if (&& k in db.waitlist && db.waitlist[k].status == Offered
               && db.waitlist[k].offerExpires.Some? && db.waitlist[k].offerExpires.value > wall)
      then kind.JoinOffered?
      else if RoomFor(db, p, t, u) then kind.JoinNotFull?
      else kind.Queued?
  {
    hide ActiveHolds, RoomFor;
    ViewOutcome(db, p, u, wall);
    if p in db.plans {
      RoomMeans(db, p, t, u);
    }
  }

  lemma JoinOutcome(db: Db, p: PlanId, u: UserId, t: int, wall: int, id: nat)
    ensures var db', k := Join(db, p, u, t, wall, id), (p, u);
      if !JoinKindOf(db, p, u, t, wall).Queued? then db' == db
      else
        && db' == db.(waitlist := db'.waitlist) && OthersStay(db.waitlist, db'.waitlist, k) && k in db'.waitlist
        && db'.waitlist[k] ==
             if k !in db.waitlist then Entry(id, Waiting, t, None)
             else if db.waitlist[k].status == Waiting || db.waitlist[k].status == Offered then db.waitlist[k]
             else Entry(db.waitlist[k].id, Waiting, t, None)
  {
    hide JoinKindOf;
  }

  lemma LeaveOutcome(db: Db, p: PlanId, u: UserId, t: int, wall: int)
    ensures var db', k := Leave(db, p, u, t, wall), (p, u);
      if p !in db.plans then db' == db
      else if k in db.waitlist && (db.waitlist[k].status == Waiting || db.waitlist[k].status == Offered)
      then db' == OfferFreed(db.(waitlist := db.waitlist[k := db.waitlist[k].(status := Left)]), p, t, wall)
      else db' == OfferFreed(db, p, t, wall)
  {
    hide OfferFreed;
    assert db.(waitlist := db.waitlist) == db;
  }
}
