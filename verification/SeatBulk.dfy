// Transactions that run over many rows: the sweep of expired offers and the fan-out of a plan's cancellation.
module SeatBulk {
  import opened Finite
  import opened SeatTables
  import opened SeatRules
  import opened SeatSafety
  import opened SeatQueue
  import opened SeatOutcomes

  // ---- picking the head of the queue ----

  lemma FrontExists(db: Db, p: PlanId, left: set<SeatKey>)
    requires left <= WaitingRows(db, p) && left != {}
    ensures exists k :: k in left && forall j :: j in left ==> j in db.waitlist && Ahead(db.waitlist[k], db.waitlist[j])
  {
    var le := (j: SeatKey, k: SeatKey) => j in db.waitlist && k in db.waitlist && Ahead(db.waitlist[k], db.waitlist[j]);
    var k := Greatest(left, le);
    assert forall j :: j in left ==> le(j, k);
  }

  lemma WithinIsAhead(db: Db, p: PlanId, n: nat, j: SeatKey, k: SeatKey)
    requires EntryIdsUnique(db) && j in Within(db, p, n) && k in WaitingRows(db, p) && k !in Within(db, p, n)
    ensures j in db.waitlist && Ahead(db.waitlist[j], db.waitlist[k])
  {
    hide Position;
    if !Ahead(db.waitlist[j], db.waitlist[k]) {
      PositionsTellApart(db, p, k, j);
    }
  }

  // The frontmost of those outside the first n positions stands at position n + 1.
  lemma NextInQueue(db: Db, p: PlanId, n: nat, left: set<SeatKey>, k: SeatKey)
    requires EntryIdsUnique(db) && left == WaitingRows(db, p) - Within(db, p, n) && n == |Within(db, p, n)|
    requires k in left && forall j :: j in left ==> j in db.waitlist && Ahead(db.waitlist[k], db.waitlist[j])
    ensures Within(db, p, n + 1) == Within(db, p, n) + {k} && |Within(db, p, n + 1)| == n + 1
    ensures left - {k} == WaitingRows(db, p) - Within(db, p, n + 1)
  {
    assert NotBehind(db, p, k) == Within(db, p, n) + {k} by {
      forall j | j in WaitingRows(db, p) ensures j in NotBehind(db, p, k) <==> j in Within(db, p, n) + {k} {
        if j in Within(db, p, n) {
          WithinIsAhead(db, p, n, j, k);
        } else if j != k {
          assert Ahead(db.waitlist[k], db.waitlist[j]);
          assert db.waitlist[k].id != db.waitlist[j].id;
        }
      }
    }
    assert Position(db, p, k) == n + 1;
    forall j | j in WaitingRows(db, p) ensures j in Within(db, p, n + 1) <==> j in Within(db, p, n) + {k} {
      PositionsDiffer(db, p, j, k);
    }
  }

  lemma EveryoneWithin(db: Db, p: PlanId, n: nat, more: int)
    requires WaitingRows(db, p) - Within(db, p, n) == {} && n <= more
    ensures Within(db, p, more) == Within(db, p, n)
  {
    hide Position;
    forall k | k in WaitingRows(db, p) ensures k in Within(db, p, n) {
      assert k !in WaitingRows(db, p) - Within(db, p, n);
    }
  }

  ghost predicate InQueueOrder(db: Db, heads: seq<SeatKey>) {
    forall i, j :: 0 <= i < j < |heads| ==>
      heads[i] in db.waitlist && heads[j] in db.waitlist && Ahead(db.waitlist[heads[i]], db.waitlist[heads[j]])
  }

  // Oldest first, and among those of one moment the smaller id.
  lemma QueueOrderMeans(db: Db, heads: seq<SeatKey>, i: nat, j: nat)
    requires InQueueOrder(db, heads) && i < j < |heads|
    ensures heads[i] in db.waitlist && heads[j] in db.waitlist
    ensures var a, b := db.waitlist[heads[i]], db.waitlist[heads[j]];
      a.created <= b.created && (a.created == b.created ==> a.id <= b.id)
  { }

  // These are the people at positions 1..|heads|, in order.
  ghost predicate IsHead(db: Db, p: PlanId, heads: seq<SeatKey>) {
    && (forall k :: k in heads <==> k in Within(db, p, |heads|))
    && |heads| == |Within(db, p, |heads|)|
    && InQueueOrder(db, heads)
  }

  lemma NobodyWithin(db: Db, p: PlanId)
    ensures Within(db, p, 0) == {} && IsHead(db, p, [])
  {
    WithinIsSmall(db, p, 0);
  }

  lemma ExtendHead(db: Db, p: PlanId, heads: seq<SeatKey>, left: set<SeatKey>, k: SeatKey)
    requires EntryIdsUnique(db) && IsHead(db, p, heads) && left == WaitingRows(db, p) - Within(db, p, |heads|)
    requires k in left && forall j :: j in left ==> j in db.waitlist && Ahead(db.waitlist[k], db.waitlist[j])
    ensures IsHead(db, p, heads + [k]) && left - {k} == WaitingRows(db, p) - Within(db, p, |heads + [k]|)
  {
    hide Within, EntryIdsUnique;
    NextInQueue(db, p, |heads|, left, k);
    forall i | 0 <= i < |heads| ensures heads[i] in db.waitlist && Ahead(db.waitlist[heads[i]], db.waitlist[k]) {
      assert heads[i] in heads;
      WithinIsAhead(db, p, |heads|, heads[i], k);
    }
  }

  lemma HeadIsWithin(db: Db, p: PlanId, heads: seq<SeatKey>, n: int)
    requires IsHead(db, p, heads) && (if n >= 0 then |heads| <= n else heads == [])
    requires |heads| < n ==> WaitingRows(db, p) - Within(db, p, |heads|) == {}
    ensures (forall k :: k in heads <==> k in Within(db, p, n)) && |heads| == |Within(db, p, n)|
  {
    hide Within;
    if n <= 0 {
      WithinIsSmall(db, p, n);
      WithinIsSmall(db, p, |heads|);
    } else if |heads| < n {
      EveryoneWithin(db, p, |heads|, n);
    }
  }

  ghost predicate NewlyOffered(db: Db, db': Db, k: SeatKey) {
    k in db.waitlist && k in db'.waitlist && db.waitlist[k].status.Waiting? && db'.waitlist[k].status.Offered?
  }

  lemma OfferingNobody(db: Db, wall: int)
    ensures OfferTo(db, {}, wall) == db && forall k :: !NewlyOffered(db, db, k)
  {
    assert OfferTo(db, {}, wall).waitlist == db.waitlist;
  }

  lemma OfferedRows(db: Db, p: PlanId, free: int, wall: int, db': Db)
    requires db' == db.(waitlist := map k | k in db.waitlist ::
      if k in Within(db, p, free) then db.waitlist[k].(status := Offered, offerExpires := Some(wall + OFFER_TTL))
        else db.waitlist[k])
    ensures db' == OfferTo(db, Within(db, p, free), wall)
    ensures forall k :: k in Within(db, p, free) <==> NewlyOffered(db, db', k)
  {
    hide Position;
  }

  // ---- the sweep ----

  function Stale(db: Db, cut: int): set<SeatKey> {
    set k | k in db.waitlist && db.waitlist[k].status.Offered? && db.waitlist[k].offerExpires.Some?
            && db.waitlist[k].offerExpires.value <= cut
  }

  function StalePlans(db: Db, cut: int): set<PlanId> {
    set k | k in Stale(db, cut) :: k.0
  }

  // The people of one plan who get an offer when its seats are looked at.
  function Receiving(db: Db, p: PlanId, t: int, wall: int): set<SeatKey> {
    if p in db.plans && db.plans[p].status.Published? && wall < db.plans[p].startsAt
    then Within(db, p, FreeSeats(db, p, t)) else {}
  }

  // Offers made on each of these plans as it stands in db.
  function SweepPart(db: Db, done: set<PlanId>, wall: int, t: int): Db {
    db.(waitlist := map k | k in db.waitlist ::
          if k.0 in done && k in Receiving(db, k.0, t, wall)
          then db.waitlist[k].(status := Offered, offerExpires := Some(wall + OFFER_TTL)) else db.waitlist[k])
  }

  function Sweep(db: Db, cut: int, t: int): Db {
    SweepPart(ExpireOffers(db, cut), StalePlans(db, cut), cut, t)
  }

  lemma SweepStart(db: Db, cut: int, t: int)
    requires EntryIdsUnique(db)
    ensures SweepPart(ExpireOffers(db, cut), StalePlans(db, cut) - StalePlans(db, cut), cut, t) == ExpireOffers(db, cut)
    ensures EntryIdsUnique(ExpireOffers(db, cut))
  {
    assert StalePlans(db, cut) - StalePlans(db, cut) == {};
    assert SweepPart(ExpireOffers(db, cut), {}, cut, t).waitlist == ExpireOffers(db, cut).waitlist;
  }

  // Offering on other plans does not change who receives on this one.
  lemma ReceivingElsewhere(db: Db, done: set<PlanId>, p: PlanId, t: int, wall: int)
    requires p !in done
    ensures Receiving(SweepPart(db, done, wall, t), p, t, wall) == Receiving(db, p, t, wall)
  {
    var db' := SweepPart(db, done, wall, t);
    assert OfferRows(db', p, t, None) == OfferRows(db, p, t, None);
    assert PendingRows(db', p, t, None) == PendingRows(db, p, t, None);
    assert WaitingRows(db', p) == WaitingRows(db, p);
    forall k | k in WaitingRows(db, p) ensures Position(db', p, k) == Position(db, p, k) {
      assert NotBehind(db', p, k) == NotBehind(db, p, k);
    }
  }

  lemma OfferingIsReceiving(db: Db, p: PlanId, t: int, wall: int)
    ensures OfferForPlan(db, p, t, wall) == OfferTo(db, Receiving(db, p, t, wall), wall)
  {
    hide Within, FreeSeats;
    assert OfferTo(db, {}, wall).waitlist == db.waitlist;
  }

  lemma SweepNext(db: Db, done: set<PlanId>, p: PlanId, wall: int, t: int)
    requires p !in done && EntryIdsUnique(db)
    ensures OfferForPlan(SweepPart(db, done, wall, t), p, t, wall) == SweepPart(db, done + {p}, wall, t)
    ensures EntryIdsUnique(SweepPart(db, done + {p}, wall, t))
  {
    var part := SweepPart(db, done, wall, t);
    OfferingIsReceiving(part, p, t, wall);
    ReceivingElsewhere(db, done, p, t, wall);
    SweepMeets(db, done, p, Receiving(db, p, t, wall), wall, t);
  }

  lemma ReceivingIsLocal(db: Db, p: PlanId, t: int, wall: int)
    ensures forall k :: k in Receiving(db, p, t, wall) ==> k.0 == p && k in db.waitlist
  {
    hide Position, FreeSeats;
  }

  lemma SweepMeets(db: Db, done: set<PlanId>, p: PlanId, keys: set<SeatKey>, wall: int, t: int)
    requires p !in done && EntryIdsUnique(db) && keys == Receiving(db, p, t, wall)
    ensures OfferTo(SweepPart(db, done, wall, t), keys, wall) == SweepPart(db, done + {p}, wall, t)
    ensures EntryIdsUnique(SweepPart(db, done + {p}, wall, t))
  {
    hide Receiving;
    ReceivingIsLocal(db, p, t, wall);
    var part, whole := SweepPart(db, done, wall, t), SweepPart(db, done + {p}, wall, t);
    assert OfferTo(part, keys, wall).waitlist == whole.waitlist;
  }

  ghost predicate Lapses(db: Db, k: SeatKey, cut: int) {
    && k in db.waitlist && db.waitlist[k].status == Offered
    && db.waitlist[k].offerExpires.Some? && db.waitlist[k].offerExpires.value <= cut
  }

  ghost predicate HasLapse(db: Db, p: PlanId, cut: int) {
    exists j :: Lapses(db, j, cut) && j.0 == p
  }

  // Offers whose time is up expire; on every plan that had one, the people next in line for its free seats get one.
  lemma SweepOutcome(db: Db, cut: int, t: int)
    requires ForeignKeys(db)
    ensures var db', lapsed := Sweep(db, cut, t), ExpireOffers(db, cut);
      && db' == db.(waitlist := db'.waitlist) && db'.waitlist.Keys == db.waitlist.Keys
      && forall k :: k in db.waitlist ==>
           var e := db.waitlist[k];
           db'.waitlist[k] ==
             if Lapses(db, k, cut) then e.(status := Expired)
             else if HasLapse(db, k.0, cut) && Receives(lapsed, k, k.0, t, cut)
             then e.(status := Offered, offerExpires := Some(cut + 30 * 60))
             else e
  {
    hide Receives, Receiving, HasLapse, StalePlans, Lapses;
    var lapsed := ExpireOffers(db, cut);
    forall k | k in db.waitlist
      ensures k in Receiving(lapsed, k.0, t, cut) ==> lapsed.waitlist[k].status == Waiting
      ensures k in Receiving(lapsed, k.0, t, cut) <==> Receives(lapsed, k, k.0, t, cut)
      ensures k.0 in StalePlans(db, cut) <==> HasLapse(db, k.0, cut)
      ensures lapsed.waitlist[k] ==
        if Lapses(db, k, cut) then db.waitlist[k].(status := Expired) else db.waitlist[k]
    {
      ReceivingReceives(lapsed, k, t, cut);
      StaleMeans(db, k, cut);
    }
  }

  lemma StaleMeans(db: Db, k: SeatKey, cut: int)
    requires k in db.waitlist
    ensures k in Stale(db, cut) <==> Lapses(db, k, cut)
    ensures k.0 in StalePlans(db, cut) <==> HasLapse(db, k.0, cut)
    ensures ExpireOffers(db, cut).waitlist[k] ==
        if Lapses(db, k, cut) then db.waitlist[k].(status := Expired) else db.waitlist[k]
  {
    if j :| Lapses(db, j, cut) && j.0 == k.0 {
      assert j in Stale(db, cut);
    }
  }

  lemma ReceivingReceives(db: Db, k: SeatKey, t: int, wall: int)
    requires k in db.waitlist && k.0 in db.plans
    ensures k in Receiving(db, k.0, t, wall) <==> Receives(db, k, k.0, t, wall)
    ensures k in Receiving(db, k.0, t, wall) ==> db.waitlist[k].status == Waiting
  {
    hide Free, FreeSeats, Position, Precedes;
    FreeMeans(db, k.0, t);
  }

  // ---- the fan-out ----

  function ConfirmedOf(db: Db, p: PlanId): set<BookingId> {
    set b | b in db.bookings && db.bookings[b].plan == p && db.bookings[b].status.Confirmed?
  }

  // Bookings of people who came or failed to: attended and no_show.
  function Came(db: Db, p: PlanId): set<BookingId> {
    set b | b in db.bookings && db.bookings[b].plan == p
      && (db.bookings[b].status.Attended? || db.bookings[b].status.NoShow?)
  }

  lemma FanOutStep(w: World, p: PlanId, b: BookingId, t: int, wall: int)
    requires Inv(w) && p in w.db.plans && !w.db.plans[p].status.Published? && b in ConfirmedOf(w.db, p) && t <= w.now
    ensures ForeignKeys(w.db) && EntryIdsUnique(w.db)
    ensures var db' := Cancel(w.db, b, t, wall);
      && CancelKindOf(w.db, b).SeatFreed? && Inv(w.(db := db'))
      && p in db'.plans && db'.plans[p].status == w.db.plans[p].status && db'.waitlist == w.db.waitlist
      && ConfirmedOf(db', p) == ConfirmedOf(w.db, p) - {b} && Came(db', p) == Came(w.db, p)
  {
    hide SeatsOk, ParticipantsSeated, QueueUnbooked, PendingUnique, EntryIdsUnique;
    CancelKeeps(w, b, t, wall);
    assert Cancel(w.db, b, t, wall) == FreeSeat(w.db, b);
  }

  lemma SameBookings(db: Db, db': Db, p: PlanId)
    requires db'.bookings == db.bookings
    ensures Came(db', p) == Came(db, p) && ConfirmedOf(db', p) == ConfirmedOf(db, p)
  {
  }

  lemma SeatsAreArrivals(db: Db, p: PlanId, now: int)
    requires p in db.plans && SeatsOk(db, p, now) && ConfirmedOf(db, p) == {}
    ensures db.plans[p].confirmed == |Came(db, p)|
  {
    assert Seated(db, p) == Came(db, p) + ConfirmedOf(db, p);
  }
}
