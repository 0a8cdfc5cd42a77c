// Who is on a plan's list of participants, after any run: exactly those whose last seat was not given back.
module SeatParticipants {
  import opened Finite
  import opened SeatTables
  import opened SeatRules
  import opened SeatSafety
  import opened SeatOutcomes

  // Between two states booking b of this plan and person took a seat, or gave it back.
  ghost predicate TakesSeatOf(db: Db, db': Db, k: SeatKey, b: BookingId) {
    && b in db'.bookings && db'.bookings[b].plan == k.0 && db'.bookings[b].user == k.1
      && db'.bookings[b].status == Confirmed
    && (b in db.bookings ==> db.bookings[b].status != Confirmed)
  }

  ghost predicate GivesBack(db: Db, db': Db, b: BookingId) {
    b in db.bookings && b in db'.bookings && db.bookings[b].status == Confirmed && db'.bookings[b].status == Cancelled
  }

  ghost predicate Participates(db: Db, k: SeatKey) {
    k in db.participants && db.participants[k].confirmed
  }

  // The participant row after a step: written by whoever sat down, struck out when its own booking was given back,
  // and otherwise as it was.
  ghost predicate RowFollows(db: Db, db': Db, k: SeatKey) {
    && (forall b :: TakesSeatOf(db, db', k, b) ==>
          k in db'.participants && db'.participants[k].booking == b && db'.participants[k].confirmed)
    && ((forall b :: !TakesSeatOf(db, db', k, b)) ==>
          && (k in db'.participants <==> k in db.participants)
          && (k in db.participants ==>
                var b := db.participants[k].booking;
                && db'.participants[k].booking == b
                && (db'.participants[k].confirmed <==> db.participants[k].confirmed && !GivesBack(db, db', b))))
  }

  lemma SittingFollows(db: Db, db': Db, b: BookingId, p: PlanId, u: UserId, k: SeatKey)
    requires Sits(db, db', b, p, u) && (b in db.bookings ==> db.bookings[b].status != Confirmed)
    ensures RowFollows(db, db', k)
  {
    if k == (p, u) {
      assert TakesSeatOf(db, db', k, b);
    }
  }

  // Steps that confirm nobody and keep the rows' bookings.
  lemma QuietFollows(db: Db, db': Db, k: SeatKey)
    requires db'.participants.Keys == db.participants.Keys
    requires forall b :: b in db'.bookings && db'.bookings[b].status == Confirmed ==>
        b in db.bookings && db.bookings[b].status == Confirmed
    requires forall j :: j in db.participants ==>
        && db'.participants[j].booking == db.participants[j].booking
        && (db'.participants[j].confirmed <==>
              db.participants[j].confirmed && !GivesBack(db, db', db.participants[j].booking))
    ensures RowFollows(db, db', k)
  { }

  lemma CancelFollows(db: Db, b: BookingId, t: int, wall: int, k: SeatKey)
    requires ForeignKeys(db)
    ensures RowFollows(db, Cancel(db, b, t, wall), k)
  {
    hide OfferFreed, RowFollows;
    var db' := Cancel(db, b, t, wall);
    if CancelKindOf(db, b).SeatFreed? {
      OfferOutcome(FreeSeat(db, b), db.bookings[b].plan, t, wall);
    }
    QuietFollows(db, db', k);
  }

  lemma CreateFollows(db: Db, p: PlanId, u: UserId, t: int, wall: int, id: BookingId, k: SeatKey)
    requires id !in db.bookings
    ensures RowFollows(db, Create(db, p, u, t, wall, id), k)
  {
    hide CreateKindOf, RowFollows, Sits;
    if CreateKindOf(db, p, u, t).Booked? {
      BookedSits(db, p, u, t, wall, id);
      SittingFollows(db, Create(db, p, u, t, wall, id), id, p, u, k);
    } else {
      if CreateKindOf(db, p, u, t).Held? {
        HeldOutcome(db, p, u, t, wall, id);
      }
      HoldFollows(db, Create(db, p, u, t, wall, id), k);
    }
  }

  lemma HoldFollows(db: Db, db': Db, k: SeatKey)
    requires db'.participants == db.participants
    requires forall b :: b in db.bookings ==>
        && b in db'.bookings
        && (db'.bookings[b] == db.bookings[b]
            || (db.bookings[b].status == PaymentPending && db'.bookings[b].status == Cancelled))
    requires forall b :: b in db'.bookings && b !in db.bookings ==> db'.bookings[b].status != Confirmed
    ensures RowFollows(db, db', k)
  {
    hide RowFollows;
    QuietFollows(db, db', k);
  }

  lemma ConfirmFollows(db: Db, b: BookingId, t: int, k: SeatKey)
    requires ForeignKeys(db)
    ensures RowFollows(db, ConfirmPaid(db, b, t), k)
  {
    hide RowFollows, Sits, ActiveHolds;
    if ConfirmKindOf(db, b, t).Seats? {
      PaidSits(db, b, t);
      SittingFollows(db, ConfirmPaid(db, b, t), b, db.bookings[b].plan, db.bookings[b].user, k);
    } else {
      QuietFollows(db, db, k);
    }
  }

  lemma OffersFollow(db: Db, db': Db, k: SeatKey)
    requires db'.bookings == db.bookings && db'.participants == db.participants
    ensures RowFollows(db, db', k)
  {
    hide RowFollows;
    QuietFollows(db, db', k);
  }

  lemma JobsFollow(w: World, s: Step, k: SeatKey)
    requires ForeignKeys(w.db) && (s.DoExpirePending? || s.DoCheckIn? || s.DoMarkNoShows?)
    ensures RowFollows(w.db, Apply(w, s).db, k)
  {
    hide RowFollows, Absent;
    QuietFollows(w.db, Apply(w, s).db, k);
  }

  lemma StepFollows(w: World, s: Step, k: SeatKey)
    requires ForeignKeys(w.db) && Enabled(w, s)
    ensures RowFollows(w.db, Apply(w, s).db, k)
  {
    hide RowFollows, Create, ConfirmPaid, Cancel, OfferFreed, ExpirePending, CheckIn, MarkNoShows, Close;
    match s
    case DoCreate(p, u, t, wall, id) => CreateFollows(w.db, p, u, t, wall, id, k);
    case DoConfirmPaid(b, t) => ConfirmFollows(w.db, b, t, k);
    case DoCancel(b, t, wall) => CancelFollows(w.db, b, t, wall, k);
    case DoExpirePending(_) => JobsFollow(w, s, k);
    case DoCheckIn(_) => JobsFollow(w, s, k);
    case DoMarkNoShows(_) => JobsFollow(w, s, k);
    case DoLeave(p, u, t, wall) =>
      if p in w.db.plans {
        OfferOutcome(w.db.(waitlist := Close(w.db.waitlist, (p, u), Left)), p, t, wall);
      }
      OffersFollow(w.db, Apply(w, s).db, k);
    case DoOfferForPlan(p, t, wall) =>
      if p in w.db.plans {
        OfferOutcome(w.db, p, t, wall);
      }
      OffersFollow(w.db, Apply(w, s).db, k);
    case _ => OffersFollow(w.db, Apply(w, s).db, k);
  }

  // ---- over runs ----

  // At step i of a run booking b sat down for this plan and person ...
  ghost predicate SatAt(ws: seq<World>, k: SeatKey, i: nat, b: BookingId) {
    i + 1 < |ws| && TakesSeatOf(ws[i].db, ws[i + 1].db, k, b)
  }

  // ... nobody sat down for them again before state n, and the seat was not given back.
  ghost predicate StillSits(ws: seq<World>, k: SeatKey, i: nat, b: BookingId, n: nat) {
    && SatAt(ws, k, i, b) && i < n < |ws|
    && (forall j: nat, c: BookingId :: i < j < n ==> !SatAt(ws, k, j, c))
    && (forall j: nat :: i < j < n ==> !GivesBack(ws[j].db, ws[j + 1].db, b))
  }

  // The last booking that sat down, whether or not it was given back since.
  ghost predicate SatLast(ws: seq<World>, k: SeatKey, i: nat, b: BookingId, n: nat) {
    SatAt(ws, k, i, b) && i < n < |ws| && forall j: nat, c: BookingId :: i < j < n ==> !SatAt(ws, k, j, c)
  }

  lemma OneSits(ws: seq<World>, k: SeatKey, n: nat, b: BookingId, c: BookingId)
    requires n + 1 < |ws| && RowFollows(ws[n].db, ws[n + 1].db, k) && SatAt(ws, k, n, b) && SatAt(ws, k, n, c)
    ensures b == c
  { }

  // The row names the booking that sat down last, and is confirmed while that seat stands.
  lemma {:induction false} RowsFollowSeats(ws: seq<World>, steps: seq<Step>, k: SeatKey, n: nat)
    requires Run(ws, steps) && ws[0].db == EMPTY && n < |ws|
    ensures k in ws[n].db.participants <==> exists i: nat, b: BookingId :: SatLast(ws, k, i, b, n)
    ensures k in ws[n].db.participants ==> exists i: nat :: SatLast(ws, k, i, ws[n].db.participants[k].booking, n)
    ensures Participates(ws[n].db, k) ==> exists i: nat :: StillSits(ws, k, i, ws[n].db.participants[k].booking, n)
    ensures forall i: nat, b: BookingId :: StillSits(ws, k, i, b, n) ==>
        Participates(ws[n].db, k) && ws[n].db.participants[k].booking == b
  {
    hide Apply, RowFollows, TakesSeatOf, GivesBack, Enabled, ForeignKeys;
    if n > 0 {
      var m: nat := n - 1;
      RowsFollowSeats(ws, steps, k, m);
      assert ws[n] == Apply(ws[m], steps[m]);
      StepFollows(ws[m], steps[m], k);
      if b: BookingId :| SatAt(ws, k, m, b) {
        NewlySeated(ws, k, m, n, b);
      } else {
        AsBefore(ws, k, m, n);
      }
    }
  }

  lemma NewlySeated(ws: seq<World>, k: SeatKey, m: nat, n: nat, b: BookingId)
    requires n == m + 1 < |ws| && RowFollows(ws[m].db, ws[n].db, k) && SatAt(ws, k, m, b)
    ensures k in ws[n].db.participants && ws[n].db.participants[k].booking == b && ws[n].db.participants[k].confirmed
    ensures SatLast(ws, k, m, b, n) && StillSits(ws, k, m, b, n)
    ensures forall i: nat, c: BookingId :: StillSits(ws, k, i, c, n) ==> c == b
  {
    hide TakesSeatOf, GivesBack;
    forall i: nat, c: BookingId | StillSits(ws, k, i, c, n) ensures c == b {
      if i == m {
        OneSits(ws, k, m, b, c);
      } else {
        assert i < m < n;
      }
    }
  }

  lemma AsBefore(ws: seq<World>, k: SeatKey, m: nat, n: nat)
    requires n == m + 1 < |ws| && RowFollows(ws[m].db, ws[n].db, k) && forall b: BookingId :: !SatAt(ws, k, m, b)
    requires k in ws[m].db.participants <==> exists i: nat, b: BookingId :: SatLast(ws, k, i, b, m)
    requires k in ws[m].db.participants ==>
        exists i: nat :: SatLast(ws, k, i, ws[m].db.participants[k].booking, m)
    requires Participates(ws[m].db, k) ==>
        exists i: nat :: StillSits(ws, k, i, ws[m].db.participants[k].booking, m)
    requires forall i: nat, b: BookingId :: StillSits(ws, k, i, b, m) ==>
        Participates(ws[m].db, k) && ws[m].db.participants[k].booking == b
    ensures k in ws[n].db.participants <==> exists i: nat, b: BookingId :: SatLast(ws, k, i, b, n)
    ensures k in ws[n].db.participants ==> exists i: nat :: SatLast(ws, k, i, ws[n].db.participants[k].booking, n)
    ensures Participates(ws[n].db, k) ==> exists i: nat :: StillSits(ws, k, i, ws[n].db.participants[k].booking, n)
    ensures forall i: nat, b: BookingId :: StillSits(ws, k, i, b, n) ==>
        Participates(ws[n].db, k) && ws[n].db.participants[k].booking == b
  {
    hide GivesBack;
    var db, db' := ws[m].db, ws[n].db;
    assert forall b: BookingId :: !TakesSeatOf(db, db', k, b) by {
      forall b: BookingId ensures !TakesSeatOf(db, db', k, b) {
        assert !SatAt(ws, k, m, b);
      }
    }
    hide TakesSeatOf;
    forall i: nat, b: BookingId | SatLast(ws, k, i, b, n) ensures SatLast(ws, k, i, b, m) {
      assert i != m;
    }
    forall i: nat, b: BookingId | SatLast(ws, k, i, b, m) ensures SatLast(ws, k, i, b, n) {
      forall j: nat, c: BookingId | i < j < n ensures !SatAt(ws, k, j, c) {
        assert j == m || j < m;
      }
    }
    forall i: nat, b: BookingId | StillSits(ws, k, i, b, n)
      ensures StillSits(ws, k, i, b, m) && !GivesBack(db, db', b) {
      assert i != m && i < m < n;
    }
    if Participates(db', k) {
      var b := db.participants[k].booking;
      var i: nat :| StillSits(ws, k, i, b, m);
      forall j: nat | i < j < n ensures !GivesBack(ws[j].db, ws[j + 1].db, b) {
        assert j == m || j < m;
      }
      forall j: nat, c: BookingId | i < j < n ensures !SatAt(ws, k, j, c) {
        assert j == m || j < m;
      }
      assert StillSits(ws, k, i, b, n);
    }
  }

  // From empty tables, after any run: a person is a confirmed participant of a plan if and only if some booking sat
  // down for them, nothing sat down for them later, and it has not been cancelled since - and the row names it.
  lemma ParticipatesIff(ws: seq<World>, steps: seq<Step>, k: SeatKey, n: nat)
    requires Run(ws, steps) && ws[0].db == EMPTY && n < |ws|
    ensures Participates(ws[n].db, k) <==> exists i: nat, b: BookingId :: StillSits(ws, k, i, b, n)
    ensures forall i: nat, b: BookingId :: StillSits(ws, k, i, b, n) ==>
        k in ws[n].db.participants && ws[n].db.participants[k].booking == b
  {
    hide Run, StillSits;
    RowsFollowSeats(ws, steps, k, n);
  }
}
