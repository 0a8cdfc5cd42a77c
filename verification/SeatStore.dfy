// The transactions of internal/bookings as they run: rows updated in place, events appended to the outbox.
module SeatStore {
  import opened Finite
  import opened SeatTables
  import opened SeatRules
  import opened SeatSafety
  import opened SeatQueue
  import opened SeatBulk
  import opened SeatOutcomes

  datatype Event =
    | BookingConfirmed(booking: BookingId)
    | BookingCancelled(booking: BookingId, refundPercent: nat)
    | BookingNoShow(booking: BookingId)
    | PlanCompleted(plan: PlanId)
    | PlanCancelled(plan: PlanId)
    | SeatOffered(plan: PlanId, user: UserId)

  class Store {
    var plans: map<PlanId, Plan>
    var bookings: map<BookingId, Booking>
    var waitlist: map<SeatKey, Entry>
    var participants: map<SeatKey, Participant>
    var checkins: set<BookingId>
    var outbox: seq<Event>

    constructor ()
      ensures Rows() == EMPTY && outbox == []
    {
      plans, bookings, waitlist, participants, checkins, outbox := map[], map[], map[], map[], {}, [];
    }

    function Rows(): Db
      reads this
    {
      Db(plans, bookings, waitlist, participants, checkins)
    }

    // activeHolds
    method CountHolds(p: PlanId, t: int, except: Option<UserId>) returns (n: nat)
      ensures n == ActiveHolds(Rows(), p, t, except)
      ensures n >= |HoldUsers(Rows(), p, t, except)|
    {
      var offered := set k | k in waitlist && k.0 == p && waitlist[k].status.Offered?
                             && After(waitlist[k].offerExpires, t) && Some(k.1) != except;
      var paying := set b | b in bookings && bookings[b].plan == p && bookings[b].status.PaymentPending?
                            && After(bookings[b].expires, t) && Some(bookings[b].user) != except;
      n := |offered| + |paying|;
      assert offered == OfferRows(Rows(), p, t, except) && paying == PendingRows(Rows(), p, t, except);
      HoldUsersAtMostRows(Rows(), p, t, except);
    }

    method FindActive(p: PlanId, u: UserId) returns (found: set<BookingId>)
      ensures found != {} <==> HasConfirmed(Rows(), p, u)
      ensures forall b :: b in found ==>
          b in bookings && bookings[b].plan == p && bookings[b].user == u && bookings[b].status.Confirmed?
    {
      found := set b | b in bookings && bookings[b].plan == p && bookings[b].user == u && bookings[b].status.Confirmed?;
      if HasConfirmed(Rows(), p, u) {
        var b :| b in bookings && bookings[b].plan == p && bookings[b].user == u && bookings[b].status.Confirmed?;
        assert b in found;
      }
    }

    method Create(p: PlanId, u: UserId, t: int, wall: int, id: BookingId) returns (kind: CreateKind, booking: BookingId)
      requires id !in bookings
      modifies this
      ensures kind == CreateKindOf(old(Rows()), p, u, t)
      ensures Rows() == SeatRules.Create(old(Rows()), p, u, t, wall, id)
      ensures kind.Booked? ==> Sits(old(Rows()), Rows(), id, p, u)
      ensures kind.Booked? || kind.Held? ==> booking == id
      ensures kind.Resumed? ==> booking in OwnLiveHolds(Rows(), p, u, t)
      ensures outbox == old(outbox) + if kind.Booked? then [BookingConfirmed(id)] else []
    {
      hide ActiveHolds, HasConfirmed, Sits, CancelAll, OwnLiveHolds, OwnPending;
      booking := id;
      if p !in plans || !plans[p].status.Published? {
        return NoPlan, id;
      }
      var holds := CountHolds(p, t, Some(u));
      if plans[p].confirmed + holds >= plans[p].capacity {
        return PlanFull, id;
      }
      var existing := FindActive(p, u);
      if existing != {} {
        return AlreadyBooked, id;
      }
      if plans[p].price > 0 {
        kind, booking := ResumeOrHold(p, u, t, wall, id);
        return;
      }
      BookedSits(Rows(), p, u, t, wall, id);
      bookings := bookings[id := Booking(p, u, Confirmed, plans[p].price, None)];
      SeatConfirmedBooking(id, p, u);
      return Booked, id;
    }

    // A priced booking: the person's own unexpired hold again, or a new one in place of any older.
    method ResumeOrHold(p: PlanId, u: UserId, t: int, wall: int, id: BookingId)
      returns (kind: CreateKind, booking: BookingId)
      requires p in plans && id !in bookings
      modifies this`bookings
      ensures kind == if OwnLiveHolds(old(Rows()), p, u, t) != {} then Resumed else Held
      ensures kind.Resumed? ==> booking in OwnLiveHolds(Rows(), p, u, t) && Rows() == old(Rows())
      ensures kind.Held? ==>
        && booking == id
        && bookings == CancelAll(old(bookings), OwnPending(old(Rows()), p, u))
           [id := Booking(p, u, PaymentPending, plans[p].price, Some(wall + PAYMENT_HOLD))]
    {
      hide CancelAll;
      var pending := set b | b in bookings && bookings[b].plan == p && bookings[b].user == u
        && bookings[b].status.PaymentPending?;
      assert pending == OwnPending(Rows(), p, u);
      var live := set b | b in pending && After(bookings[b].expires, t);
      assert live == OwnLiveHolds(Rows(), p, u, t);
      if live != {} {
        booking :| booking in live;
        return Resumed, booking;
      }
      bookings := CancelAll(bookings, pending);
      bookings := bookings[id := Booking(p, u, PaymentPending, plans[p].price, Some(wall + PAYMENT_HOLD))];
      return Held, id;
    }

    method SeatConfirmedBooking(b: BookingId, p: PlanId, u: UserId)
      requires p in plans
      modifies this
      ensures Rows() == Seat(old(Rows()), b, p, u)
      ensures (p, u) in participants && participants[(p, u)] == Participant(b, true, false)
      ensures OthersStay(old(participants), participants, (p, u)) && OthersStay(old(plans), plans, p)
      ensures plans[p] == old(plans)[p].(confirmed := old(plans)[p].confirmed + 1)
      ensures outbox == old(outbox) + [BookingConfirmed(b)]
    {
      participants := participants[(p, u) := Participant(b, true, false)];
      plans := plans[p := plans[p].(confirmed := plans[p].confirmed + 1)];
      if (p, u) in waitlist && (waitlist[(p, u)].status.Waiting? || waitlist[(p, u)].status.Offered?) {
        waitlist := waitlist[(p, u) := waitlist[(p, u)].(status := Accepted)];
      }
      outbox := outbox + [BookingConfirmed(b)];
    }

    method ConfirmPaid(b: BookingId, t: int) returns (kind: ConfirmKind)
      requires ForeignKeys(Rows())
      modifies this
      ensures kind == ConfirmKindOf(old(Rows()), b, t)
      ensures Rows() == SeatRules.ConfirmPaid(old(Rows()), b, t)
      ensures kind.Seats? ==> Sits(old(Rows()), Rows(), b, old(bookings)[b].plan, old(bookings)[b].user)
      ensures outbox == old(outbox) + if kind.Seats? then [BookingConfirmed(b)] else []
    {
      hide ActiveHolds, Sits;
      if ConfirmKindOf(Rows(), b, t).Seats? {
        PaidSits(Rows(), b, t);
      }
      if b !in bookings {
        return NoBooking;
      }
      var row := bookings[b];
      if row.status.Confirmed? || row.status.Attended? {
        return Already;
      }
      if !row.status.PaymentPending? && !row.status.Cancelled? {
        return NoBooking;
      }
      var holds := CountHolds(row.plan, t, Some(row.user));
      if !plans[row.plan].status.Published? || plans[row.plan].confirmed + holds >= plans[row.plan].capacity {
        return SeatGone;
      }
      bookings := bookings[b := row.(status := Confirmed, expires := None)];
      SeatConfirmedBooking(b, row.plan, row.user);
      return Seats;
    }

    // ---- offers ----

    // SELECT ... WHERE status = 'waiting' ORDER BY created_at, id LIMIT n
    method HeadOfQueue(p: PlanId, n: int) returns (heads: seq<SeatKey>)
      requires EntryIdsUnique(Rows())
      ensures forall k :: k in heads <==> k in Within(Rows(), p, n)
      ensures |heads| == |Within(Rows(), p, n)|
      ensures InQueueOrder(Rows(), heads)
    {
      hide Position, EntryIdsUnique, InQueueOrder, Within;
      ghost var db := Rows();
      heads := [];
      var left := set k | k in waitlist && k.0 == p && waitlist[k].status.Waiting?;
      assert left == WaitingRows(db, p);
      NobodyWithin(db, p);
      while |heads| < n && left != {}
        invariant left == WaitingRows(db, p) - Within(db, p, |heads|) && IsHead(db, p, heads)
        invariant if n >= 0 then |heads| <= n else heads == []
        decreases left
      {
        FrontExists(db, p, left);
        var k :| k in left && forall j :: j in left ==> j in waitlist && Ahead(waitlist[k], waitlist[j]);
        ExtendHead(db, p, heads, left, k);
        heads := heads + [k];
        left := left - {k};
      }
      HeadIsWithin(db, p, heads, n);
    }

    method Notify(offered: seq<SeatKey>)
      modifies this`outbox
      ensures outbox == old(outbox) + Notices(offered)
    {
      for i := 0 to |offered|
        invariant outbox == old(outbox) + Notices(offered[..i])
      {
        outbox := outbox + [SeatOffered(offered[i].0, offered[i].1)];
        assert offered[..i + 1] == offered[..i] + [offered[i]];
      }
      assert offered[..|offered|] == offered;
    }

    method OfferFreedSeats(p: PlanId, t: int, wall: int) returns (offered: seq<SeatKey>)
      requires p in plans && EntryIdsUnique(Rows())
      modifies this`waitlist, this`outbox
      ensures Rows() == OfferFreed(old(Rows()), p, t, wall)
      ensures outbox == old(outbox) + Notices(offered) && Tells(Notices(offered), old(Rows()), Rows())
      ensures forall k :: k in offered <==> NewlyOffered(old(Rows()), Rows(), k)
      ensures |offered| <= if FreeSeats(old(Rows()), p, t) <= 0 then 0 else FreeSeats(old(Rows()), p, t)
    {
      hide Within, EntryIdsUnique, OfferTo, NewlyOffered, Tells;
      offered := [];
      ghost var db := Rows();
      OfferingNobody(db, wall);
      TellingNobody(db);
      if !plans[p].status.Published? || plans[p].startsAt <= wall {
        return;
      }
      var holds := CountHolds(p, t, None);
      var free := plans[p].capacity - plans[p].confirmed - holds;
      WithinIsSmall(db, p, free);
      if free <= 0 {
        return;
      }
      offered := HeadOfQueue(p, free);
      var chosen := set k | k in offered;
      assert chosen == Within(db, p, free);
      waitlist := map k | k in waitlist ::
        if k in chosen then waitlist[k].(status := Offered, offerExpires := Some(wall + OFFER_TTL)) else waitlist[k];
      OfferedRows(db, p, free, wall, Rows());
      NoticesTell(offered, chosen, db, Rows());
      Notify(offered);
    }

    method OfferForPlan(p: PlanId, t: int, wall: int) returns (found: bool)
      requires EntryIdsUnique(Rows())
      modifies this`waitlist, this`outbox
      ensures found <==> p in plans
      ensures Rows() == SeatRules.OfferForPlan(old(Rows()), p, t, wall)
      ensures old(outbox) <= outbox && Tells(outbox[|old(outbox)|..], old(Rows()), Rows())
    {
      hide Tells, OfferFreed, NewlyOffered;
      TellingNobody(Rows());
      assert outbox[|outbox|..] == [];
      found := p in plans;
      if found {
        var _ := OfferFreedSeats(p, t, wall);
      }
    }

    // ---- giving seats back ----

    method Cancel(b: BookingId, t: int, wall: int, byHost: bool) returns (kind: CancelKind)
      requires ForeignKeys(Rows()) && EntryIdsUnique(Rows())
      modifies this
      ensures kind == CancelKindOf(old(Rows()), b)
      ensures Rows() == SeatRules.Cancel(old(Rows()), b, t, wall)
      ensures !kind.SeatFreed? ==> outbox == old(outbox)
      ensures kind.SeatFreed? ==>
        var startsAt := old(plans)[old(bookings)[b].plan].startsAt;
        && |old(outbox)| < |outbox| && old(outbox) <= outbox
        && Tells(outbox[|old(outbox)|..|outbox| - 1], old(Rows()), Rows())
        && outbox[|outbox| - 1] == BookingCancelled(b, if byHost || wall + 24 * 3600 <= startsAt then 100 else 0)
    {
      hide Tells, OfferFreed, NewlyOffered;
      if b !in bookings || (!bookings[b].status.Confirmed? && !bookings[b].status.PaymentPending?) {
        return NotFound;
      }
      var prev := bookings[b];
      bookings := bookings[b := prev.(status := Cancelled)];
      if prev.status.PaymentPending? {
        return Released;
      }
      var startsAt := plans[prev.plan].startsAt;
      plans := plans[prev.plan := plans[prev.plan].(confirmed := plans[prev.plan].confirmed - 1)];
      participants := map k | k in participants ::
        if participants[k].booking == b then participants[k].(confirmed := false) else participants[k];
      ghost var freed := Rows();
      var offered := OfferFreedSeats(prev.plan, t, wall);
      SameWaitersTell(Notices(offered), old(Rows()), freed, Rows());
      assert outbox[|old(outbox)|..] == Notices(offered);
      outbox := outbox + [BookingCancelled(b, RefundPercent(startsAt, wall, byHost))];
      return SeatFreed;
    }

    method ExpirePending(now: int) returns (released: nat)
      modifies this`bookings
      ensures Rows() == SeatRules.ExpirePending(old(Rows()), now)
      ensures released == |set b | b in old(bookings) && old(bookings)[b] != bookings[b]|
    {
      var due := set b | b in bookings && bookings[b].status.PaymentPending? && bookings[b].expires.Some?
                         && bookings[b].expires.value <= now;
      bookings := CancelAll(bookings, due);
      released := |due|;
      assert due == set b | b in old(bookings) && old(bookings)[b] != bookings[b];
    }

    // ---- attendance ----

    method CheckIn(b: BookingId) returns (ok: bool)
      modifies this
      ensures ok <==> b in old(bookings) && old(bookings)[b].status.Confirmed?
      ensures Rows() == SeatRules.CheckIn(old(Rows()), b) && outbox == old(outbox)
    {
      if b !in bookings || !bookings[b].status.Confirmed? {
        return false;
      }
      bookings := bookings[b := bookings[b].(status := Attended)];
      checkins := checkins + {b};
      participants := map k | k in participants ::
        if participants[k].booking == b then participants[k].(checkedIn := true) else participants[k];
      return true;
    }

    method MarkNoShows(now: int) returns (marked: seq<BookingId>)
      requires ForeignKeys(Rows())
      modifies this`bookings, this`outbox
      ensures Rows() == SeatRules.MarkNoShows(old(Rows()), now)
      ensures (forall b :: b in marked <==> b in Absent(old(Rows()), now)) && |marked| == |Absent(old(Rows()), now)|
      ensures outbox == old(outbox) + NoShows(marked)
      ensures forall i :: 0 <= i < |marked| ==> outbox[|old(outbox)| + i] == BookingNoShow(marked[i])
    {
      var absent := FindAbsent(now);
      hide Absent;
      bookings := map b | b in bookings :: if b in absent then bookings[b].(status := NoShow) else bookings[b];
      assert Rows() == SeatRules.MarkNoShows(old(Rows()), now);
      marked := EnqueueNoShows(absent);
    }

    method FindAbsent(now: int) returns (absent: set<BookingId>)
      requires ForeignKeys(Rows())
      ensures absent == Absent(Rows(), now)
    {
      var used := set c | c in checkins && c in bookings :: bookings[c].plan;
      absent := set b | b in bookings && bookings[b].status.Confirmed?
        && plans[bookings[b].plan].startsAt < plans[bookings[b].plan].endsAt
        && plans[bookings[b].plan].endsAt + NO_SHOW_GRACE < now && bookings[b].plan in used;
    }

    method EnqueueNoShows(absent: set<BookingId>) returns (marked: seq<BookingId>)
      modifies this`outbox
      ensures (forall b :: b in marked <==> b in absent) && |marked| == |absent|
      ensures outbox == old(outbox) + NoShows(marked)
    {
      marked := [];
      var left := absent;
      while left != {}
        invariant left <= absent && (forall b :: b in marked <==> b in absent - left) && |marked| + |left| == |absent|
        invariant outbox == old(outbox) + NoShows(marked)
      {
        var b :| b in left;
        outbox := outbox + [BookingNoShow(b)];
        assert (marked + [b])[..|marked|] == marked;
        marked, left := marked + [b], left - {b};
      }
    }

    method CompleteEndedPlans(now: int) returns (ids: seq<PlanId>)
      modifies this`plans, this`outbox
      ensures Rows() == CompleteEnded(old(Rows()), now)
      ensures (forall p :: p in ids <==> p in Ended(old(Rows()), now)) && |ids| == |Ended(old(Rows()), now)|
      ensures outbox == old(outbox) + Completions(ids)
      ensures forall i :: 0 <= i < |ids| ==> outbox[|old(outbox)| + i] == PlanCompleted(ids[i])
    {
      var ended := set p | p in plans && plans[p].status.Published? && plans[p].startsAt < plans[p].endsAt < now;
      assert ended == Ended(Rows(), now);
      plans := map p | p in plans :: if p in ended then plans[p].(status := Completed) else plans[p];
      ids := [];
      var left := ended;
      while left != {}
        invariant left <= ended && (forall p :: p in ids <==> p in ended - left) && |ids| + |left| == |ended|
        invariant outbox == old(outbox) + Completions(ids)
        invariant plans == CompleteEnded(old(Rows()), now).plans
      {
        var p :| p in left;
        outbox := outbox + [PlanCompleted(p)];
        assert (ids + [p])[..|ids|] == ids;
        ids, left := ids + [p], left - {p};
      }
    }

    // ---- the waitlist ----

    method WaitlistStatus(p: PlanId, u: UserId, wall: int) returns (v: View)
      ensures v == ViewOf(Rows(), p, u, wall)
    {
      if (p, u) !in waitlist {
        return Unlisted;
      }
      var e := waitlist[(p, u)];
      if e.status.Offered? && After(e.offerExpires, wall) {
        return HasOffer(e.offerExpires.value);
      }
      if e.status.Waiting? {
        var ahead := set j | j in waitlist && j.0 == p && waitlist[j].status.Waiting? && Ahead(waitlist[j], e);
        var all := set j | j in waitlist && j.0 == p && waitlist[j].status.Waiting?;
        assert ahead == NotBehind(Rows(), p, (p, u)) && all == WaitingRows(Rows(), p);
        return InQueue(|ahead|, |all|);
      }
      return Unlisted;
    }

    method JoinWaitlist(p: PlanId, u: UserId, t: int, wall: int, id: nat) returns (kind: JoinKind, v: View)
      modifies this`waitlist
      ensures kind == JoinKindOf(old(Rows()), p, u, t, wall)
      ensures Rows() == Join(old(Rows()), p, u, t, wall, id)
      ensures kind.JoinOffered? || kind.Queued? ==> v == ViewOf(Rows(), p, u, wall)
    {
      v := Unlisted;
      if p !in plans || !plans[p].status.Published? || plans[p].startsAt <= wall {
        return JoinNoPlan, v;
      }
      var booked := FindActive(p, u);
      if booked != {} {
        return JoinBooked, v;
      }
      v := WaitlistStatus(p, u, wall);
      if v.HasOffer? {
        return JoinOffered, v;
      }
      var holds := CountHolds(p, t, Some(u));
      if plans[p].confirmed + holds < plans[p].capacity {
        return JoinNotFull, v;
      }
      if (p, u) !in waitlist {
        waitlist := waitlist[(p, u) := Entry(id, Waiting, t, None)];
      } else if waitlist[(p, u)].status.Left? || waitlist[(p, u)].status.Expired? || waitlist[(p, u)].status.Accepted? {
        waitlist := waitlist[(p, u) := Entry(waitlist[(p, u)].id, Waiting, t, None)];
      }
      v := WaitlistStatus(p, u, wall);
      return Queued, v;
    }

    method LeaveWaitlist(p: PlanId, u: UserId, t: int, wall: int) returns (found: bool)
      requires EntryIdsUnique(Rows())
      modifies this`waitlist, this`outbox
      ensures found <==> p in plans
      ensures Rows() == Leave(old(Rows()), p, u, t, wall)
      ensures old(outbox) <= outbox && Tells(outbox[|old(outbox)|..], old(Rows()), Rows())
    {
      hide Tells, OfferFreed, NewlyOffered;
      TellingNobody(Rows());
      assert outbox[|outbox|..] == [];
      if p !in plans {
        return false;
      }
      if (p, u) in waitlist && (waitlist[(p, u)].status.Waiting? || waitlist[(p, u)].status.Offered?) {
        waitlist := waitlist[(p, u) := waitlist[(p, u)].(status := Left)];
      }
      var offered := OfferFreedSeats(p, t, wall);
      LeavingTells(Notices(offered), old(Rows()), (p, u), t, wall);
      return true;
    }

    // Whatever order the affected plans come in, the result is the same.
    method SweepWaitlist(now: int, t: int) returns (n: nat)
      requires ForeignKeys(Rows()) && EntryIdsUnique(Rows())
      modifies this`waitlist, this`outbox
      ensures Rows() == Sweep(old(Rows()), now, t)
      ensures n == |Stale(old(Rows()), now)|
      ensures old(outbox) <= outbox && Tells(outbox[|old(outbox)|..], old(Rows()), Rows())
    {
      hide EntryIdsUnique, SeatRules.OfferForPlan, Tells, Swept, Sweep;
      ghost var before := Rows();
      var stale := set k | k in waitlist && waitlist[k].status.Offered? && waitlist[k].offerExpires.Some?
                           && waitlist[k].offerExpires.value <= now;
      assert stale == Stale(before, now);
      n := |stale|;
      waitlist := map k | k in waitlist :: if k in stale then waitlist[k].(status := Expired) else waitlist[k];
      assert waitlist == ExpireOffers(before, now).waitlist;
      var left := set k | k in stale :: k.0;
      assert left == StalePlans(before, now);
      SweptNobody(before, now, t);
      assert outbox[|outbox|..] == [];
      while left != {}
        invariant left <= StalePlans(before, now) && old(outbox) <= outbox
        invariant Swept(before, StalePlans(before, now) - left, now, t, Rows(), outbox[|old(outbox)|..])
      {
        var p :| p in left;
        ghost var was, told := Rows(), outbox;
        SweptRows(before, StalePlans(before, now) - left, now, t, was, told[|old(outbox)|..]);
        var _ := OfferForPlan(p, t, now);
        SweptNext(before, StalePlans(before, now) - left, p, now, t, was, told[|old(outbox)|..], Rows(),
          outbox[|told|..]);
        assert outbox[|old(outbox)|..] == told[|old(outbox)|..] + outbox[|told|..];
        assert StalePlans(before, now) - (left - {p}) == (StalePlans(before, now) - left) + {p};
        left := left - {p};
      }
      assert StalePlans(before, now) - {} == StalePlans(before, now);
      SweptEverywhere(before, now, t, Rows(), outbox[|old(outbox)|..]);
    }

    method ExpireWaitlistForPlan(p: PlanId)
      modifies this`waitlist
      ensures Rows() == ExpireWaitlist(old(Rows()), p)
    {
      waitlist := map k | k in waitlist ::
        if k.0 == p && (waitlist[k].status.Waiting? || waitlist[k].status.Offered?)
        then waitlist[k].(status := Expired) else waitlist[k];
    }

    // ---- the cancellation fan-out ----

    method CancelPlan(p: PlanId) returns (found: bool)
      modifies this`plans, this`outbox
      ensures found <==> p in old(plans)
      ensures Rows() == SeatRules.CancelPlan(old(Rows()), p)
      ensures outbox == old(outbox) + if found then [PlanCancelled(p)] else []
    {
      found := p in plans;
      if found {
        plans := plans[p := plans[p].(status := CancelledPlan)];
        outbox := outbox + [PlanCancelled(p)];
      }
    }

    // Every confirmed booking of a closed plan is cancelled, each with the full refund in its event.
    method CancelAllForPlan(p: PlanId, t: int, wall: int, ghost now: int) returns (ok: bool)
      requires Inv(World(Rows(), now)) && t <= now && p in plans && !plans[p].status.Published?
      modifies this
      ensures ok && Inv(World(Rows(), now)) && p in plans && plans[p].status == old(plans)[p].status
      ensures ConfirmedOf(Rows(), p) == {} && waitlist == old(waitlist)
      ensures Came(Rows(), p) == Came(old(Rows()), p)
      ensures forall b :: b in ConfirmedOf(old(Rows()), p) ==> BookingCancelled(b, 100) in outbox
    {
      hide SeatsOk, TablesOk, Came, SeatRules.Cancel;
      var ids := set b | b in bookings && bookings[b].plan == p && bookings[b].status.Confirmed?;
      assert ids == ConfirmedOf(Rows(), p);
      ghost var all := ids;
      while ids != {}
        invariant ids == ConfirmedOf(Rows(), p) && ids <= all && Inv(World(Rows(), now))
        invariant p in plans && plans[p].status == old(plans)[p].status && waitlist == old(waitlist)
        invariant Came(Rows(), p) == Came(old(Rows()), p)
        invariant forall b :: b in all - ids ==> BookingCancelled(b, 100) in outbox
      {
        var b :| b in ids;
        FanOutStep(World(Rows(), now), p, b, t, wall);
        ghost var was := outbox;
        var kind := Cancel(b, t, wall, true);
        assert forall e :: e in was ==> e in outbox;
        if kind.NotFound? {
          return false;
        }
        ids := ids - {b};
      }
      return true;
    }

    // The handler of PLAN_CANCELLED, run to completion: nobody is confirmed, waiting or offered any more, and
    // the seat count is the number of people who were there or failed to show up.
    method HandlePlanCancelled(p: PlanId, t: int, wall: int, ghost now: int) returns (ok: bool)
      requires Inv(World(Rows(), now)) && t <= now && p in plans && plans[p].status.CancelledPlan?
      modifies this
      ensures ok && Inv(World(Rows(), now)) && p in plans && plans[p].status.CancelledPlan?
      ensures ConfirmedOf(Rows(), p) == {}
      ensures forall k :: k in waitlist && k.0 == p ==> !waitlist[k].status.Waiting? && !waitlist[k].status.Offered?
      ensures plans[p].confirmed == |Came(Rows(), p)| && Came(Rows(), p) == Came(old(Rows()), p)
      ensures forall b :: b in ConfirmedOf(old(Rows()), p) ==> BookingCancelled(b, 100) in outbox
    {
      hide SeatsOk, TablesOk, Came, ConfirmedOf;
      ExpireWaitlistKeeps(World(Rows(), now), p);
      SameBookings(Rows(), ExpireWaitlist(Rows(), p), p);
      ExpireWaitlistForPlan(p);
      ok := CancelAllForPlan(p, t, wall, now);
      SeatsAreArrivals(Rows(), p, now);
    }
  }

  // The events are one notice for each person who waited before and has an offer now, and nothing else.
  ghost predicate Tells(events: seq<Event>, before: Db, after: Db) {
    && (forall e :: e in events ==> e.SeatOffered?)
    && (forall k: SeatKey :: SeatOffered(k.0, k.1) in events <==> NewlyOffered(before, after, k))
    && |events| == |set k | k in before.waitlist && NewlyOffered(before, after, k)|
  }

  lemma TellingNobody(db: Db)
    ensures Tells([], db, db) && OnlyPromotes(db, db)
  {
    assert (set k | k in db.waitlist && NewlyOffered(db, db, k)) == {};
  }

  lemma NoticesTell(offered: seq<SeatKey>, chosen: set<SeatKey>, before: Db, after: Db)
    requires forall k :: k in offered <==> NewlyOffered(before, after, k)
    requires (forall k :: k in offered <==> k in chosen) && |offered| == |chosen|
    ensures Tells(Notices(offered), before, after)
  {
    assert chosen == set k | k in before.waitlist && NewlyOffered(before, after, k);
    hide NewlyOffered;
    forall k: SeatKey ensures SeatOffered(k.0, k.1) in Notices(offered) <==> NewlyOffered(before, after, k) {
      if k in offered {
        var i :| 0 <= i < |offered| && offered[i] == k;
        assert Notices(offered)[i] == SeatOffered(k.0, k.1);
      }
    }
  }

  // Rows that neither start nor stop waiting in between.
  lemma SameWaitersTell(events: seq<Event>, before: Db, other: Db, after: Db)
    requires Tells(events, other, after) && before.waitlist.Keys == other.waitlist.Keys
    requires forall k :: k in before.waitlist && k in after.waitlist && after.waitlist[k].status.Offered? ==>
        (before.waitlist[k].status.Waiting? <==> other.waitlist[k].status.Waiting?)
    ensures Tells(events, before, after)
  {
    assert (set k | k in before.waitlist && NewlyOffered(before, after, k)) ==
           (set k | k in other.waitlist && NewlyOffered(other, after, k));
  }

  lemma LeavingTells(events: seq<Event>, db: Db, k: SeatKey, t: int, wall: int)
    requires k.0 in db.plans
    requires var left := db.(waitlist := Close(db.waitlist, k, Left));
      Tells(events, left, OfferFreed(left, k.0, t, wall))
    ensures Tells(events, db, Leave(db, k.0, k.1, t, wall))
  {
    hide Tells;
    var left := db.(waitlist := Close(db.waitlist, k, Left));
    SameWaitersTell(events, db, left, OfferFreed(left, k.0, t, wall));
  }

  // Waiting rows may get an offer; nothing else happens to the queue.
  ghost predicate OnlyPromotes(before: Db, after: Db) {
    && before.waitlist.Keys == after.waitlist.Keys
    && forall k :: k in before.waitlist ==>
         || after.waitlist[k] == before.waitlist[k]
         || (before.waitlist[k].status.Waiting? && after.waitlist[k].status.Offered?)
  }

  lemma OffersPromote(db: Db, p: PlanId, t: int, wall: int)
    ensures OnlyPromotes(db, SeatRules.OfferForPlan(db, p, t, wall))
  { }

  lemma TellsOn(first: seq<Event>, second: seq<Event>, a: Db, b: Db, c: Db)
    requires Tells(first, a, b) && OnlyPromotes(a, b) && Tells(second, b, c) && OnlyPromotes(b, c)
    ensures Tells(first + second, a, c) && OnlyPromotes(a, c)
  {
    var early := set k | k in a.waitlist && NewlyOffered(a, b, k);
    var late := set k | k in b.waitlist && NewlyOffered(b, c, k);
    assert (set k | k in a.waitlist && NewlyOffered(a, c, k)) == early + late;
    CardUnion(early, late);
  }

  // Where a sweep stands once the plans in `done` have had their turn.
  ghost predicate Swept(before: Db, done: set<PlanId>, now: int, t: int, rows: Db, told: seq<Event>) {
    && EntryIdsUnique(before) && EntryIdsUnique(rows)
    && rows == SweepPart(ExpireOffers(before, now), done, now, t)
    && Tells(told, ExpireOffers(before, now), rows) && OnlyPromotes(ExpireOffers(before, now), rows)
  }

  lemma SweptNobody(before: Db, now: int, t: int)
    requires EntryIdsUnique(before)
    ensures Swept(before, StalePlans(before, now) - StalePlans(before, now), now, t, ExpireOffers(before, now), [])
  {
    hide EntryIdsUnique, Tells, OnlyPromotes, SweepPart;
    SweepStart(before, now, t);
    TellingNobody(ExpireOffers(before, now));
  }

  lemma SweptRows(before: Db, done: set<PlanId>, now: int, t: int, rows: Db, told: seq<Event>)
    requires Swept(before, done, now, t, rows, told)
    ensures EntryIdsUnique(rows)
  { }

  lemma SweptNext(
      before: Db, done: set<PlanId>, p: PlanId, now: int, t: int, was: Db, told: seq<Event>, rows: Db, more: seq<Event>)
    requires Swept(before, done, now, t, was, told) && p !in done
    requires rows == SeatRules.OfferForPlan(was, p, t, now) && Tells(more, was, rows)
    ensures Swept(before, done + {p}, now, t, rows, told + more)
  {
    hide SweepPart, SeatRules.OfferForPlan, Tells, OnlyPromotes;
    var db := ExpireOffers(before, now);
    SweepStart(before, now, t);
    hide EntryIdsUnique, ExpireOffers;
    SweepNext(db, done, p, now, t);
    OffersPromote(was, p, t, now);
    TellsOn(told, more, db, was, rows);
  }

  lemma SweptEverywhere(before: Db, now: int, t: int, rows: Db, told: seq<Event>)
    requires Swept(before, StalePlans(before, now), now, t, rows, told)
    ensures rows == Sweep(before, now, t) && Tells(told, before, rows)
  {
    hide SweepPart, Tells, EntryIdsUnique;
    SameWaitersTell(told, before, ExpireOffers(before, now), rows);
  }

  function Notices(keys: seq<SeatKey>): seq<Event> {
    seq(|keys|, i requires 0 <= i < |keys| => SeatOffered(keys[i].0, keys[i].1))
  }

  function NoShows(ids: seq<BookingId>): seq<Event> {
    seq(|ids|, i requires 0 <= i < |ids| => BookingNoShow(ids[i]))
  }

  function Completions(ids: seq<PlanId>): seq<Event> {
    seq(|ids|, i requires 0 <= i < |ids| => PlanCompleted(ids[i]))
  }
}
