// What a person holding an offer can rely on, what a closed plan can no longer do, and two things the
// code does not guarantee.
module SeatGuarantees {
  import opened Finite
  import opened SeatTables
  import opened SeatRules
  import opened SeatSafety

  // ---- an unexpired offer on a free plan is worth a seat ----

  ghost predicate OfferOpen(w: World, p: PlanId, u: UserId, until: int) {
    && p in w.db.plans && w.db.plans[p].price <= 0
    && (p, u) in w.db.waitlist && w.db.waitlist[(p, u)].status.Offered?
    && w.db.waitlist[(p, u)].offerExpires == Some(until)
  }

  // Offers of others that lapsed while a transaction that began at t was waiting for the plan.
  function LapsedSince(db: Db, p: PlanId, u: UserId, t: int, now: int): set<SeatKey> {
    OfferRows(db, p, t, Some(u)) - OfferRows(db, p, now, Some(u))
  }

  // What a transaction that began at t counts against a person with a live offer: everybody's live offers but
  // theirs, and the ones that have lapsed since.
  lemma FreePlanRows(db: Db, p: PlanId, u: UserId, t: int, now: int)
    requires t <= now && NothingPending(db, p) && (p, u) in OfferRows(db, p, now, None)
    ensures ActiveHolds(db, p, t, Some(u)) == |OfferRows(db, p, now, None)| - 1 + |LapsedSince(db, p, u, t, now)|
  {
    assert PendingRows(db, p, t, Some(u)) == {};
    assert OfferRows(db, p, now, None) == OfferRows(db, p, now, Some(u)) + {(p, u)};
    assert OfferRows(db, p, t, Some(u)) == OfferRows(db, p, now, Some(u)) + LapsedSince(db, p, u, t, now);
  }

  // Whenever the claim began: it is booked if and only if the seats taken, the live offers and the offers that
  // lapsed since the claim began fit the plan, and otherwise it is told the plan is full - never already booked.
  lemma OfferClaimedIff(w: World, p: PlanId, u: UserId, until: int, t: int)
    requires Inv(w) && OfferOpen(w, p, u, until) && w.now < until && w.db.plans[p].status.Published? && t <= w.now
    ensures CreateKindOf(w.db, p, u, t).Booked? <==>
      w.db.plans[p].confirmed + |OfferRows(w.db, p, w.now, None)| + |LapsedSince(w.db, p, u, t, w.now)| <=
        w.db.plans[p].capacity
    ensures !CreateKindOf(w.db, p, u, t).Booked? ==> CreateKindOf(w.db, p, u, t).PlanFull?
  {
    hide ActiveHolds, HasConfirmed, Seated, Holders, ParticipantsSeated, PendingUnique, EntryIdsUnique;
    FreePlanRows(w.db, p, u, t, w.now);
    assert SeatsOk(w.db, p, w.now);
    assert QueueUnbooked(w.db) && (p, u) in w.db.waitlist;
  }

  // So neither plan-full nor already-booked can come back, unless somebody's offer lapsed in between.
  lemma OfferIsClaimable(w: World, p: PlanId, u: UserId, until: int, t: int)
    requires Inv(w) && OfferOpen(w, p, u, until) && w.now < until && w.db.plans[p].status.Published? && t <= w.now
    requires LapsedSince(w.db, p, u, t, w.now) == {}
    ensures CreateKindOf(w.db, p, u, t).Booked?
  {
    hide CreateKindOf;
    OfferClaimedIff(w, p, u, until, t);
    assert SeatsOk(w.db, p, w.now);
  }

  // A claim that begins now counts nothing that lapsed.
  lemma NothingLapsedYet(db: Db, p: PlanId, u: UserId, now: int)
    ensures LapsedSince(db, p, u, now, now) == {}
  { }

  // Transactions of the person themselves on this plan.
  predicate Own(w: World, s: Step, p: PlanId, u: UserId) {
    match s
    case DoCreate(q, v, _, _, _) => q == p && v == u
    case DoJoin(q, v, _, _, _) => q == p && v == u
    case DoLeave(q, v, _, _) => q == p && v == u
    case DoConfirmPaid(b, _) => b in w.db.bookings && w.db.bookings[b].plan == p && w.db.bookings[b].user == u
    case _ => false
  }

  lemma PlansOnlyClose(w: World, s: Step, p: PlanId)
    requires ForeignKeys(w.db) && p in w.db.plans
    ensures var w' := Apply(w, s);
      && p in w'.db.plans && w'.db.plans[p].price == w.db.plans[p].price
      && (w'.db.plans[p].status.Published? ==> w.db.plans[p].status.Published?)
  {
    hide ActiveHolds, HasConfirmed, Within, ViewOf, OwnPending, OwnLiveHolds, FreeSeats, Absent;
  }

  // Others leave the offered entry alone: the offer survives every transaction that is not the person's
  // own, until it expires or the plan closes.
  lemma OfferStands(w: World, s: Step, w': World, p: PlanId, u: UserId, until: int)
    requires ForeignKeys(w.db) && Enabled(w, s) && w' == Apply(w, s)
    requires OfferOpen(w, p, u, until) && !Own(w, s, p, u)
    requires p in w'.db.plans && w'.now < until && w'.db.plans[p].status.Published?
    ensures w.now < until && w.db.plans[p].status.Published?
    ensures OfferOpen(w', p, u, until)
  {
    hide ActiveHolds, HasConfirmed, ViewOf, OwnPending, OwnLiveHolds, Absent, OfferFreed;
    PlansOnlyClose(w, s, p);
    NowAdvances(w, s);
    match s
    case DoCancel(b, t, wall) =>
      if CancelKindOf(w.db, b).SeatFreed? {
        OfferedStays(FreeSeat(w.db, b), w.db.bookings[b].plan, t, wall, (p, u));
      }
    case DoLeave(q, v, t, wall) =>
      if q in w.db.plans {
        OfferedStays(w.db.(waitlist := Close(w.db.waitlist, (q, v), Left)), q, t, wall, (p, u));
      }
    case DoOfferForPlan(q, t, wall) =>
      if q in w.db.plans {
        OfferedStays(w.db, q, t, wall, (p, u));
      }
    case _ =>
  }

  // An offer run only writes rows that wait.
  lemma OfferedStays(db: Db, q: PlanId, t: int, wall: int, k: SeatKey)
    requires q in db.plans && k in db.waitlist && db.waitlist[k].status.Offered?
    ensures k in OfferFreed(db, q, t, wall).waitlist && OfferFreed(db, q, t, wall).waitlist[k] == db.waitlist[k]
  {
    hide Position, FreeSeats;
  }

  lemma NowAdvances(w: World, s: Step)
    requires ForeignKeys(w.db) && Enabled(w, s)
    ensures w.now <= Apply(w, s).now
  {
    hide Create, ConfirmPaid, Cancel, MarkNoShows, Join, Leave, OfferForPlan;
  }

  lemma {:induction false} OfferStandsOverRuns(ws: seq<World>, steps: seq<Step>, p: PlanId, u: UserId, until: int)
    requires Run(ws, steps) && Inv(ws[0]) && OfferOpen(ws[0], p, u, until)
    requires forall i :: 0 <= i < |steps| ==> !Own(ws[i], steps[i], p, u)
    requires p in ws[|steps|].db.plans && ws[|steps|].now < until && ws[|steps|].db.plans[p].status.Published?
    ensures OfferOpen(ws[|steps|], p, u, until)
    ensures var w := ws[|steps|]; forall t :: t <= w.now ==>
      (CreateKindOf(w.db, p, u, t).Booked? <==>
        w.db.plans[p].confirmed + |OfferRows(w.db, p, w.now, None)| + |LapsedSince(w.db, p, u, t, w.now)| <=
          w.db.plans[p].capacity)
    ensures CreateKindOf(ws[|steps|].db, p, u, ws[|steps|].now).Booked?
  {
    hide SeatsOk, TablesOk, Apply, CreateKindOf, LapsedSince, OfferRows;
    var n := |steps|;
    if n > 0 {
      var w, s := ws[n - 1], steps[n - 1];
      assert ws[n] == Apply(w, s);
      RunKeeps(ws, steps, n - 1);
      KnownBefore(ws, steps, p, n - 1);
      PlansOnlyClose(w, s, p);
      NowAdvances(w, s);
      assert Run(ws[..n], steps[..n - 1]);
      OfferStandsOverRuns(ws[..n], steps[..n - 1], p, u, until);
      OfferStands(w, s, ws[n], p, u, until);
    }
    RunKeeps(ws, steps, n);
    var w := ws[n];
    NothingLapsedYet(w.db, p, u, w.now);
    OfferIsClaimable(w, p, u, until, w.now);
    forall t | t <= w.now
      ensures CreateKindOf(w.db, p, u, t).Booked? <==>
        w.db.plans[p].confirmed + |OfferRows(w.db, p, w.now, None)| + |LapsedSince(w.db, p, u, t, w.now)| <=
          w.db.plans[p].capacity
    {
      OfferClaimedIff(w, p, u, until, t);
    }
  }

  // Two free seats: user 2's offer lapsed at 11, user 1's lives until 100, user 3 is next in the queue.
  function LapsingOffer(third: Entry): Db {
    EMPTY.(plans := map[1 := Plan(2, 0, 0, Published, 1000, 2000)],
           waitlist := map[(1, 1) := Entry(1, Offered, 0, Some(100)), (1, 2) := Entry(2, Offered, 1, Some(11)),
             (1, 3) := third])
  }

  const QUEUED: Entry := Entry(3, Waiting, 2, None)
  const PROMOTED: Entry := Entry(3, Offered, 2, Some(12 + OFFER_TTL))

  lemma LapsingRows(third: Entry, t: int, except: Option<UserId>)
    requires 10 <= t < 100 && (third == QUEUED || third == PROMOTED)
    ensures OfferRows(LapsingOffer(third), 1, t, except) ==
      (if Some(1) != except then {(1, 1)} else {}) + (if t < 11 && Some(2) != except then {(1, 2)} else {})
      + (if third == PROMOTED && Some(3) != except then {(1, 3)} else {})
  { }

  lemma LapsingIsLegal()
    ensures Inv(World(LapsingOffer(QUEUED), 12))
  {
    hide SeatsOk;
    LapsingFits();
  }

  lemma LapsingFits()
    ensures SeatsOk(LapsingOffer(QUEUED), 1, 12)
  {
    var db := LapsingOffer(QUEUED);
    assert Seated(db, 1) == {};
    LapsingRows(QUEUED, 12, None);
    assert PendingRows(db, 1, 12, None) == {};
    HoldUsersAtMostRows(db, 1, 12, None);
    CardLe(Holders(db, 1, 12), HoldUsers(db, 1, 12, None));
  }

  lemma ThirdIsPromoted()
    ensures OfferFreed(LapsingOffer(QUEUED), 1, 12, 12) == LapsingOffer(PROMOTED)
  {
    var db := LapsingOffer(QUEUED);
    LapsingRows(QUEUED, 12, None);
    assert PendingRows(db, 1, 12, None) == {};
    assert WaitingRows(db, 1) == {(1, 3)};
    assert (set j | j in WaitingRows(db, 1) && Ahead(db.waitlist[j], db.waitlist[(1, 3)])) == {(1, 3)};
    assert Within(db, 1, 1) == {(1, 3)};
  }

  // A claim that began before user 2's offer lapsed and got the plan after user 3 was offered that seat counts both
  // rows: user 1 is told the plan is full although their own offer is alive.
  lemma EarlyClaimTurnedAway()
    ensures var w := World(LapsingOffer(QUEUED), 12);
      var offer, claim := DoOfferForPlan(1, 12, 12), DoCreate(1, 1, 10, 12, 9);
      && Inv(w) && Enabled(w, offer)
      && var w' := Apply(w, offer);
        && Inv(w') && Enabled(w', claim) && OfferOpen(w', 1, 1, 100) && w'.now == 12 && w'.db.plans[1].status.Published?
        && CreateKindOf(w'.db, 1, 1, 10).PlanFull? && CreateKindOf(w'.db, 1, 1, 12).Booked?
  {
    hide SeatsOk, CreateKindOf, Apply, SeatSafety.Inv;
    var w, offer := World(LapsingOffer(QUEUED), 12), DoOfferForPlan(1, 12, 12);
    LapsingIsLegal();
    LegalLinks(w);
    ThirdIsPromoted();
    PromotedWorld();
    StepKeeps(w, offer);
    ClaimTurnedAway();
    NothingLapsedYet(LapsingOffer(PROMOTED), 1, 1, 12);
    OfferIsClaimable(World(LapsingOffer(PROMOTED), 12), 1, 1, 100, 12);
  }

  lemma LegalLinks(w: World)
    requires Inv(w)
    ensures ForeignKeys(w.db)
  {
    hide SeatsOk;
  }

  lemma PromotedWorld()
    requires ForeignKeys(LapsingOffer(QUEUED)) && OfferFreed(LapsingOffer(QUEUED), 1, 12, 12) == LapsingOffer(PROMOTED)
    ensures Apply(World(LapsingOffer(QUEUED), 12), DoOfferForPlan(1, 12, 12)) == World(LapsingOffer(PROMOTED), 12)
  {
    hide OfferFreed;
  }

  lemma ClaimTurnedAway()
    ensures CreateKindOf(LapsingOffer(PROMOTED), 1, 1, 10).PlanFull?
  {
    LapsingRows(PROMOTED, 10, Some(1));
  }

  lemma {:induction false} KnownBefore(ws: seq<World>, steps: seq<Step>, p: PlanId, n: nat)
    requires Run(ws, steps) && Inv(ws[0]) && p in ws[0].db.plans && n < |ws|
    ensures p in ws[n].db.plans
  {
    hide Apply, SeatsOk;
    if n > 0 {
      KnownBefore(ws, steps, p, n - 1);
      RunKeeps(ws, steps, n - 1);
      PlansOnlyClose(ws[n - 1], steps[n - 1], p);
    }
  }

  // ---- a plan that is no longer published ----

  // No seat is taken, and every payment hold or offer left is one that was there before.
  ghost predicate OnlyReleases(db: Db, db': Db, p: PlanId)
    requires p in db.plans && p in db'.plans
  {
    && db'.plans[p].confirmed <= db.plans[p].confirmed
    && (forall b :: b in db'.bookings && db'.bookings[b].plan == p && db'.bookings[b].status.PaymentPending? ==>
          b in db.bookings && db.bookings[b] == db'.bookings[b])
    && (forall k :: k in db'.waitlist && k.0 == p && db'.waitlist[k].status.Offered? ==>
          k in db.waitlist && db.waitlist[k] == db'.waitlist[k])
  }

  lemma ClosedOffers(db: Db, q: PlanId, t: int, wall: int, p: PlanId)
    requires q in db.plans && p in db.plans && !db.plans[p].status.Published?
    ensures OnlyReleases(db, OfferFreed(db, q, t, wall), p)
  {
    hide Position, FreeSeats;
  }

  lemma ClosedCreate(db: Db, q: PlanId, u: UserId, t: int, wall: int, id: BookingId, p: PlanId)
    requires ForeignKeys(db) && id !in db.bookings && p in db.plans && !db.plans[p].status.Published?
    ensures p in Create(db, q, u, t, wall, id).plans && OnlyReleases(db, Create(db, q, u, t, wall, id), p)
  {
    hide ActiveHolds, HasConfirmed, OwnLiveHolds;
  }

  lemma ClosedConfirm(db: Db, b: BookingId, t: int, p: PlanId)
    requires ForeignKeys(db) && p in db.plans && !db.plans[p].status.Published?
    ensures p in ConfirmPaid(db, b, t).plans && OnlyReleases(db, ConfirmPaid(db, b, t), p)
  {
    hide ActiveHolds;
  }

  lemma ClosedJobs(w: World, s: Step, p: PlanId)
    requires ForeignKeys(w.db) && Enabled(w, s) && p in w.db.plans && !w.db.plans[p].status.Published?
    requires !s.DoCreate? && !s.DoConfirmPaid? && !s.DoCancel? && !s.DoLeave? && !s.DoOfferForPlan?
    ensures p in Apply(w, s).db.plans && OnlyReleases(w.db, Apply(w, s).db, p)
  {
    hide ActiveHolds, HasConfirmed, ViewOf, Absent, Create, ConfirmPaid, Cancel, Leave, OfferFreed;
  }

  lemma ClosedCancel(w: World, b: BookingId, t: int, wall: int, p: PlanId)
    requires ForeignKeys(w.db) && p in w.db.plans && !w.db.plans[p].status.Published?
    ensures p in Cancel(w.db, b, t, wall).plans && OnlyReleases(w.db, Cancel(w.db, b, t, wall), p)
  {
    hide OfferFreed;
    if CancelKindOf(w.db, b).SeatFreed? {
      assert OnlyReleases(w.db, FreeSeat(w.db, b), p);
      ClosedOffers(FreeSeat(w.db, b), w.db.bookings[b].plan, t, wall, p);
      PlansOnlyClose(w, DoCancel(b, t, wall), p);
    }
  }

  lemma ClosedLeave(w: World, q: PlanId, u: UserId, t: int, wall: int, p: PlanId)
    requires ForeignKeys(w.db) && p in w.db.plans && !w.db.plans[p].status.Published?
    ensures p in Leave(w.db, q, u, t, wall).plans && OnlyReleases(w.db, Leave(w.db, q, u, t, wall), p)
  {
    hide OfferFreed;
    if q in w.db.plans {
      ClosedOffers(w.db.(waitlist := Close(w.db.waitlist, (q, u), Left)), q, t, wall, p);
      PlansOnlyClose(w, DoLeave(q, u, t, wall), p);
    }
  }

  lemma SameIsReleasing(db: Db, p: PlanId)
    requires p in db.plans
    ensures OnlyReleases(db, db, p)
  { }

  lemma ClosedPlanStays(w: World, s: Step, p: PlanId)
    requires ForeignKeys(w.db) && Enabled(w, s) && p in w.db.plans && !w.db.plans[p].status.Published?
    ensures p in Apply(w, s).db.plans && !Apply(w, s).db.plans[p].status.Published?
    ensures OnlyReleases(w.db, Apply(w, s).db, p)
  {
    hide Create, ConfirmPaid, Cancel, Leave, OfferFreed, OnlyReleases, ExpirePending, CheckIn, MarkNoShows;
    hide Join, ExpireOffers, ExpireWaitlist, AddPlan, CancelPlan, CompleteEnded;
    PlansOnlyClose(w, s, p);
    match s
    case DoCreate(q, u, t, wall, id) => ClosedCreate(w.db, q, u, t, wall, id, p);
    case DoConfirmPaid(b, t) => ClosedConfirm(w.db, b, t, p);
    case DoCancel(b, t, wall) => ClosedCancel(w, b, t, wall, p);
    case DoLeave(q, u, t, wall) => ClosedLeave(w, q, u, t, wall, p);
    case DoOfferForPlan(q, t, wall) =>
      if q in w.db.plans {
        ClosedOffers(w.db, q, t, wall, p);
      } else {
        SameIsReleasing(w.db, p);
      }
    case _ => ClosedJobs(w, s, p);
  }

  lemma {:induction false} ClosedPlanOverRuns(ws: seq<World>, steps: seq<Step>, p: PlanId, n: nat)
    requires Run(ws, steps) && n < |ws| && p in ws[0].db.plans && !ws[0].db.plans[p].status.Published?
    ensures p in ws[n].db.plans && !ws[n].db.plans[p].status.Published?
    ensures OnlyReleases(ws[0].db, ws[n].db, p)
  {
    hide Apply;
    if n > 0 {
      ClosedPlanOverRuns(ws, steps, p, n - 1);
      ClosedPlanStays(ws[n - 1], steps[n - 1], p);
    }
  }

  // ---- when a payment hold is honoured ----

  function OfferUsers(db: Db, p: PlanId, t: int, except: Option<UserId>): set<UserId> {
    set k | k in OfferRows(db, p, t, except) :: k.1
  }

  function PendingUsers(db: Db, p: PlanId, t: int, except: Option<UserId>): set<UserId> {
    set b | b in PendingRows(db, p, t, except) :: db.bookings[b].user
  }

  // People counted twice: their offer stays in place after they start paying.
  function DoubleHolders(db: Db, p: PlanId, t: int, except: Option<UserId>): set<UserId> {
    OfferUsers(db, p, t, except) * PendingUsers(db, p, t, except)
  }

  lemma RowsArePeoplePlusDoubles(db: Db, p: PlanId, t: int, except: Option<UserId>)
    requires PendingUnique(db)
    ensures ActiveHolds(db, p, t, except) == |HoldUsers(db, p, t, except)| + |DoubleHolders(db, p, t, except)|
  {
    var offers, pending := OfferUsers(db, p, t, except), PendingUsers(db, p, t, except);
    CardInjective(OfferRows(db, p, t, except), (k: SeatKey) => k.1, offers);
    CardInjective(PendingRows(db, p, t, except), b => if b in db.bookings then db.bookings[b].user else 0, pending);
    assert HoldUsers(db, p, t, except) == offers + pending;
  }

  // A payment for a waiting or cancelled booking, confirmed by a transaction that began at any time t, is seated if
  // and only if the plan is published and the others with a hold at t, each counted once more for a second row, leave
  // room.
  lemma HoldHonouredIff(w: World, b: BookingId, t: int)
    requires Inv(w) && b in w.db.bookings
    requires w.db.bookings[b].status.PaymentPending? || w.db.bookings[b].status.Cancelled?
    ensures var row := w.db.bookings[b];
      ConfirmKindOf(w.db, b, t).Seats? <==>
        && w.db.plans[row.plan].status.Published?
        && w.db.plans[row.plan].confirmed + |HoldUsers(w.db, row.plan, t, Some(row.user))|
           + |DoubleHolders(w.db, row.plan, t, Some(row.user))| < w.db.plans[row.plan].capacity
  {
    RowsArePeoplePlusDoubles(w.db, w.db.bookings[b].plan, t, Some(w.db.bookings[b].user));
  }

  lemma HoldsOfOthers(db: Db, b: BookingId, t: int)
    requires b in db.bookings && db.bookings[b].status.PaymentPending? && After(db.bookings[b].expires, t)
    ensures var p, u := db.bookings[b].plan, db.bookings[b].user;
      u !in HoldUsers(db, p, t, Some(u)) && HoldUsers(db, p, t, Some(u)) + {u} <= HoldUsers(db, p, t, None)
  {
    var p, u := db.bookings[b].plan, db.bookings[b].user;
    assert b in PendingRows(db, p, t, None);
    assert OfferRows(db, p, t, Some(u)) <= OfferRows(db, p, t, None);
    assert PendingRows(db, p, t, Some(u)) <= PendingRows(db, p, t, None);
  }

  // So on a published plan an unexpired hold is always honoured when nobody else holds two rows, no holder sits
  // already, and nobody else's last hold lapsed since the transaction began.
  lemma HoldHonoured(w: World, b: BookingId, t: int)
    requires Inv(w) && b in w.db.bookings && w.db.bookings[b].status.PaymentPending?
    requires t <= w.now && After(w.db.bookings[b].expires, w.now)
    requires w.db.plans[w.db.bookings[b].plan].status.Published?
    requires var p, u := w.db.bookings[b].plan, w.db.bookings[b].user;
      && DoubleHolders(w.db, p, t, Some(u)) == {}
      && HoldUsers(w.db, p, t, Some(u)) == HoldUsers(w.db, p, w.now, Some(u))
      && HoldUsers(w.db, p, w.now, None) !! SeatedUsers(w.db, p)
    ensures ConfirmKindOf(w.db, b, t).Seats?
  {
    hide Seated, SeatedUsers, HoldUsers, DoubleHolders, OfferRows, ParticipantsSeated, QueueUnbooked;
    hide PendingUnique, ConfirmKindOf;
    var db, p, u := w.db, w.db.bookings[b].plan, w.db.bookings[b].user;
    HoldHonouredIff(w, b, t);
    HoldsOfOthers(db, b, w.now);
    var others := HoldUsers(db, p, w.now, Some(u));
    assert Holders(db, p, w.now) == HoldUsers(db, p, w.now, None);
    CardLe(others + {u}, HoldUsers(db, p, w.now, None));
    assert SeatsOk(db, p, w.now);
  }

  // A paid plan with two free seats, one of them offered to user 1 until time 100.
  const ONE_OFFER: Db := EMPTY.(plans := map[1 := Plan(2, 0, 500, Published, 1000, 2000)],
                                waitlist := map[(1, 1) := Entry(1, Offered, 0, Some(100))])

  function Paying(db: Db, u: UserId, id: BookingId): Db {
    db.(bookings := db.bookings[id := Booking(1, u, PaymentPending, 500, Some(10 + PAYMENT_HOLD))])
  }

  lemma StrangerStartsPaying()
    ensures Create(ONE_OFFER, 1, 2, 10, 10, 12) == Paying(ONE_OFFER, 2, 12)
  {
    var db := ONE_OFFER;
    assert OfferRows(db, 1, 10, Some(2)) == {(1, 1)} && PendingRows(db, 1, 10, Some(2)) == {};
    assert OwnPending(db, 1, 2) == {} && !HasConfirmed(db, 1, 2);
  }

  lemma OfferedStartsPaying()
    ensures Create(Paying(ONE_OFFER, 2, 12), 1, 1, 10, 10, 11) == Paying(Paying(ONE_OFFER, 2, 12), 1, 11)
  {
    var db := Paying(ONE_OFFER, 2, 12);
    assert OfferRows(db, 1, 10, Some(1)) == {} && PendingRows(db, 1, 10, Some(1)) == {12};
    assert OwnPending(db, 1, 1) == {} && !HasConfirmed(db, 1, 1);
  }

  lemma StrangerTurnedAway()
    ensures var db := Paying(Paying(ONE_OFFER, 2, 12), 1, 11);
      ForeignKeys(db) && ConfirmKindOf(db, 12, 10).SeatGone?
  {
    var db := Paying(Paying(ONE_OFFER, 2, 12), 1, 11);
    assert OfferRows(db, 1, 10, Some(2)) == {(1, 1)} && PendingRows(db, 1, 10, Some(2)) == {11};
  }

  // It is not always honoured. User 2 takes the other seat and starts paying, then user 1 starts paying too:
  // user 1's two rows fill the plan, and user 2's payment is turned away although its hold is alive.
  lemma HoldNotHonoured()
    ensures var db := Create(Create(ONE_OFFER, 1, 2, 10, 10, 12), 1, 1, 10, 10, 11);
      && Inv(World(ONE_OFFER, 10)) && ForeignKeys(db)
      && 12 in db.bookings && After(db.bookings[12].expires, 10) && ConfirmKindOf(db, 12, 10).SeatGone?
  {
    hide Create, ConfirmKindOf, TablesOk, SeatsOk;
    OneOfferOk(ONE_OFFER);
    StrangerStartsPaying();
    OfferedStartsPaying();
    StrangerTurnedAway();
  }

  lemma OneOfferOk(db: Db)
    requires db == ONE_OFFER
    ensures Inv(World(db, 10))
  {
    hide SeatsOk;
    OneOfferFits(db);
  }

  lemma OneOfferFits(db: Db)
    requires db == ONE_OFFER
    ensures SeatsOk(db, 1, 10)
  {
    assert Seated(db, 1) == {};
    assert OfferRows(db, 1, 10, None) == {(1, 1)} && PendingRows(db, 1, 10, None) == {};
    HoldUsersAtMostRows(db, 1, 10, None);
    CardLe(Holders(db, 1, 10), HoldUsers(db, 1, 10, None));
  }
}
