// What a customer ends up with: a seat or the money, and an order that adds up.
module SettlementLaws {
  import opened Arithmetic
  import opened Finite
  import opened SeatTables
  import opened SeatRules
  import SeatSafety
  import opened PaymentLedger
  import RefundLaws
  import opened Wallet
  import WalletLaws
  import opened Settlement

  // ---- captures ----

  ghost predicate DeskOk(d: Desk, now: int) {
    SeatSafety.Inv(World(d.db, now)) && LedgerOk(d.till.ledger) && RefundsBounded(d.till.ledger)
      && WalletLaws.Inv(d.till)
  }

  // Paid and seated, nothing sent back.
  predicate SeatedOutcome(d: Desk, d': Desk, b: BookingId, ref: GatewayRef) {
    && b in d'.db.bookings && d'.db.bookings[b].status.Confirmed?
    && b in d.db.bookings && d.db.bookings[b].plan in d.db.plans && d.db.bookings[b].plan in d'.db.plans
    && d'.db.plans[d.db.bookings[b].plan].confirmed == d.db.plans[d.db.bookings[b].plan].confirmed + 1
    && RefundedTotal(d'.till.ledger.refunds, ref) == 0
  }

  // Every seat row as it was, every paisa sent back.
  predicate RefundedOutcome(d: Desk, d': Desk, ref: GatewayRef, amount: int) {
    d'.db == d.db && RefundedTotal(d'.till.ledger.refunds, ref) == amount
  }

  lemma FirstCaptureLedger(l: Ledger, call: Call)
    requires LedgerOk(l) && CaptureKindOf(l, call).Captured?
    ensures RefundedTotal(Capture(l, call).refunds, call.ref) == 0
    ensures Capture(l, call).payments[call.ref].amount == call.amount
    ensures RefundedTotal(RefundVia(Capture(l, call), call.ref, call.amount, Accepts).refunds, call.ref) == call.amount
  {
    RefundLaws.NothingYet(l.refunds, call.ref);
    RefundLaws.DoRefundTotals(Capture(l, call), call.ref, call.amount, true, call.ref);
  }

  lemma ConfirmOutcome(db: Db, b: BookingId, t: int)
    requires ForeignKeys(db)
    ensures var db' := ConfirmPaid(db, b, t);
      if ConfirmKindOf(db, b, t).Seats? then
        && b in db'.bookings && db'.bookings[b].status.Confirmed?
        && b in db.bookings && !db.bookings[b].status.Confirmed?
        && db.bookings[b].plan in db.plans && db.bookings[b].plan in db'.plans
        && db'.plans[db.bookings[b].plan].confirmed == db.plans[db.bookings[b].plan].confirmed + 1
      else db' == db
  {
    hide ActiveHolds;
  }

  // The first capture of a positive amount for a pending or cancelled booking ends in exactly one of two ways -
  // seated and paid, or untouched and refunded in full - and which one is decided by whether the seat can be had.
  lemma FirstCaptureSettles(d: Desk, call: Call, t: int, now: int)
    requires DeskOk(d, now) && t <= now
    requires CaptureKindOf(d.till.ledger, call).Captured?
    requires var b := d.till.ledger.orders[call.order].booking;
      b in d.db.bookings && (d.db.bookings[b].status.PaymentPending? || d.db.bookings[b].status.Cancelled?)
    ensures var b := d.till.ledger.orders[call.order].booking;
      var d' := Receive(d, call, t, Accepts);
      && (if ConfirmKindOf(d.db, b, t).Seats? then SeatedOutcome(d, d', b, call.ref)
        else RefundedOutcome(d, d', call.ref, call.amount))
      && !(SeatedOutcome(d, d', b, call.ref) && RefundedOutcome(d, d', call.ref, call.amount))
      && SeatSafety.Inv(World(d'.db, now))
  {
    hide LedgerOk, RefundsBounded, WalletLaws.Inv, SeatSafety.TablesOk, SeatSafety.SeatsOk, ActiveHolds;
    hide Capture, RefundVia, RefundedTotal, ConfirmPaid, ForeignKeys;
    var l := d.till.ledger;
    var b := l.orders[call.order].booking;
    SeatTablesLinked(d, now);
    FirstCaptureLedger(l, call);
    ConfirmOutcome(d.db, b, t);
    SeatSafety.ConfirmPaidKeeps(World(d.db, now), b, t);
  }

  lemma SeatTablesLinked(d: Desk, now: int)
    requires SeatSafety.Inv(World(d.db, now))
    ensures ForeignKeys(d.db)
  {
    hide SeatSafety.SeatsOk;
  }

  lemma RefundViaKeeps(l: Ledger, p: GatewayRef, amount: int, g: Gateway)
    requires LedgerOk(l) && RefundsBounded(l)
    ensures LedgerOk(RefundVia(l, p, amount, g)) && RefundsBounded(RefundVia(l, p, amount, g))
    ensures RefundVia(l, p, amount, g).orders == l.orders
  {
    if !g.NoGateway? && BeginKindOf(l, p, amount).Begun? {
      RefundLaws.AttemptKeeps(l, p, amount);
      RefundLaws.StatusKeeps(Begin(l, p, amount), |l.refunds|, if g.Accepts? then Processed else Failed);
      RefundLaws.OnlyReconDiffers(SetStatus(Begin(l, p, amount), |l.refunds|, Processed), DoRefund(l, p, amount, true));
    }
  }

  // Any capture, first or replayed, whatever the gateway answers, keeps every invariant of seats and money.
  lemma ReceiveKeeps(d: Desk, call: Call, t: int, g: Gateway, now: int)
    requires DeskOk(d, now) && t <= now
    ensures DeskOk(Receive(d, call, t, g), now)
  {
    hide LedgerOk, RefundsBounded, WalletLaws.Inv, SeatSafety.TablesOk, SeatSafety.SeatsOk, ActiveHolds;
    hide RefundVia, ConfirmPaid;
    SeatTablesLinked(d, now);
    var l := d.till.ledger;
    RefundLaws.ReceiveKeeps(l, call);
    if !CaptureKindOf(l, call).OrderNotFound? && !CaptureKindOf(l, call).BadAmount? {
      var b := l.orders[call.order].booking;
      SeatSafety.ConfirmPaidKeeps(World(d.db, now), b, t);
      var l1 := Capture(l, call);
      RefundViaKeeps(l1, call.ref, l1.payments[call.ref].amount, g);
      var l' := Receive(d, call, t, g).till.ledger;
      assert WalletLaws.OnlyPaid(l.orders, l'.orders);
      WalletLaws.OnlyPaidKeeps(d.till, l');
    }
  }

  // A repeated notice changes nothing exactly when the booking cannot be seated by it and nothing is left to send
  // back. In particular a repeat after a refund is harmless only while the seat stays gone.
  lemma ReplayHarmlessIff(d: Desk, call: Call, t: int, g: Gateway, now: int)
    requires DeskOk(d, now) && CaptureKindOf(d.till.ledger, call).Replayed?
    ensures var kind := ConfirmKindOf(d.db, d.till.ledger.orders[call.order].booking, t);
      Receive(d, call, t, g) == d <==>
        !kind.Seats? && !(kind.SeatGone? && !g.NoGateway? && RefundedTotal(d.till.ledger.refunds, call.ref) <= 0)
  {
    hide RefundsBounded, WalletLaws.Inv, SeatSafety.TablesOk, SeatSafety.SeatsOk, ActiveHolds, RefundVia;
    hide ConfirmPaid, ForeignKeys;
    SeatTablesLinked(d, now);
    var l := d.till.ledger;
    ConfirmOutcome(d.db, l.orders[call.order].booking, t);
    SecondRefund(l, call.ref, g);
  }

  // Sending a whole payment back again: refused once anything of it has gone back.
  lemma SecondRefund(l: Ledger, p: GatewayRef, g: Gateway)
    requires LedgerOk(l) && p in l.payments
    ensures RefundVia(l, p, l.payments[p].amount, g) == l <==> g.NoGateway? || RefundedTotal(l.refunds, p) > 0
  {
    RefundLaws.RefundedNonNegative(l.refunds, p);
    if !g.NoGateway? && RefundedTotal(l.refunds, p) <= 0 {
      assert |RefundVia(l, p, l.payments[p].amount, g).refunds| == |l.refunds| + 1;
    }
  }

  // One seat, taken by user 2 while user 1's hold had lapsed: user 1's late payment is sent back. User 2 leaves,
  // the gateway repeats its notice, and user 1 sits down with the money returned.
  const LATE: Db := Db(
    map[1 := Plan(1, 1, 500, Published, 9000000, 9100000)],
    map[1 := Booking(1, 1, Cancelled, 500, Some(900)), 2 := Booking(1, 2, Confirmed, 500, None)],
    map[], map[(1, 2) := Participant(2, true, false)], {})
  const OWED: Till := EMPTY_TILL.(ledger := Ledger(map[1 := Order(1, 525, Created)], map[], [], []))

  lemma ReplaySeatsForFree()
    ensures ForeignKeys(LATE)
    ensures var call, d := Call(1, 7, 525), Desk(LATE, OWED);
      var refunded := Receive(d, call, 1000, Accepts);
      var freed := refunded.(db := Cancel(refunded.db, 2, 1001, 1001));
      && CaptureKindOf(d.till.ledger, call).Captured? && RefundedOutcome(d, refunded, 7, 525)
      && ForeignKeys(freed.db)
      && 1 in Receive(freed, call, 1002, Accepts).db.bookings
      && Receive(freed, call, 1002, Accepts).db.bookings[1].status.Confirmed?
      && RefundedTotal(Receive(freed, call, 1002, Accepts).till.ledger.refunds, 7) == 525
  {
    var call, d := Call(1, 7, 525), Desk(LATE, OWED);
    hide RefundVia, RefundedTotal, Cancel, Receive, ConfirmPaid, ActiveHolds;
    LateIsRefunded();
    LeavingFrees();
    var freed := Receive(Desk(LATE, OWED), Call(1, 7, 525), 1000, Accepts).(db := Cancel(LATE, 2, 1001, 1001));
    NoHolds(freed.db, 1002);
    ReplaySeats(freed, Call(1, 7, 525), 1002);
  }

  lemma ReplaySeats(d: Desk, call: Call, t: int)
    requires ForeignKeys(d.db) && CaptureKindOf(d.till.ledger, call).Replayed?
    requires ConfirmKindOf(d.db, d.till.ledger.orders[call.order].booking, t).Seats?
    ensures var d', b := Receive(d, call, t, Accepts), d.till.ledger.orders[call.order].booking;
      b in d'.db.bookings && d'.db.bookings[b].status.Confirmed? && d'.till == d.till
  {
    ConfirmOutcome(d.db, d.till.ledger.orders[call.order].booking, t);
  }

  // Where that story starts is a state that meets every invariant.
  lemma LateIsLegal()
    ensures DeskOk(Desk(LATE, OWED), 1000)
  {
    hide SeatSafety.SeatsOk, WalletLaws.Inv, SeatSafety.NothingPending;
    LateFits();
    OwedIsLegal();
  }

  lemma LateFits()
    ensures SeatSafety.SeatsOk(LATE, 1, 1000)
  {
    assert Seated(LATE, 1) == {2};
    assert OfferRows(LATE, 1, 1000, None) == {} && PendingRows(LATE, 1, 1000, None) == {};
    HoldUsersAtMostRows(LATE, 1, 1000, None);
    assert Holders(LATE, 1, 1000) == {};
  }

  lemma OwedIsLegal()
    ensures WalletLaws.Inv(OWED)
  {
    WalletLaws.Untouched([], 1);
  }

  lemma LateIsRefunded()
    ensures ForeignKeys(LATE) && CaptureKindOf(OWED.ledger, Call(1, 7, 525)).Captured?
    ensures RefundedOutcome(Desk(LATE, OWED), Receive(Desk(LATE, OWED), Call(1, 7, 525), 1000, Accepts), 7, 525)
    ensures var l := Receive(Desk(LATE, OWED), Call(1, 7, 525), 1000, Accepts).till.ledger;
      1 in l.orders && l.orders[1].booking == 1 && 7 in l.payments
  {
    NoHolds(LATE, 1000);
    RefundLaws.DoRefundTotals(Capture(OWED.ledger, Call(1, 7, 525)), 7, 525, true, 7);
  }

  lemma NoHolds(db: Db, t: int)
    requires db.waitlist == map[] && forall b :: b in db.bookings ==> !db.bookings[b].status.PaymentPending?
    ensures forall p, except :: ActiveHolds(db, p, t, except) == 0
  {
    forall p, except ensures ActiveHolds(db, p, t, except) == 0 {
      assert OfferRows(db, p, t, except) == {} && PendingRows(db, p, t, except) == {};
    }
  }

  lemma LeavingFrees()
    ensures var db := Cancel(LATE, 2, 1001, 1001);
      && db.plans == map[1 := Plan(1, 0, 500, Published, 9000000, 9100000)]
      && db.bookings == LATE.bookings[2 := Booking(1, 2, Cancelled, 500, None)]
      && db.waitlist == map[]
  {
    assert Within(FreeSeat(LATE, 2), 1, FreeSeats(FreeSeat(LATE, 2), 1, 1001)) == {};
  }

  // ---- checkout ----

  // Orders that reach the books: price plus fee is covered exactly by the coupon, the credits and what is charged,
  // none of them negative; credits never exceed the balance; nothing is charged exactly when it is covered.
  lemma CheckoutAddsUp(d: Desk, r: Request, ids: seq<OrderId>, id: OrderId, now: int, g: Gateway)
    requires WalletLaws.Inv(d.till) && OpenOrders(d.till.ledger, ids, r.booking) && id !in d.till.ledger.orders
    requires var kind := CheckoutKindOf(d, r, ids, id, now, g);
      kind.Covered? || kind.Unsent? || kind.Refused? || kind.Opened?
    ensures r.booking in d.db.bookings
    ensures var w, price := Placed(d, r, ids, id, now), d.db.bookings[r.booking].price;
      var discount, spent := DiscountOf(d.till, r.promo, price + Fee(price)), Spent(w.rows, id);
      && id in w.ledger.orders && w.ledger.orders[id].booking == r.booking && w.ledger.orders[id].status.Created?
      && w.ledger.orders[id].amount + discount + spent == price + Fee(price)
      && w.ledger.orders[id].amount >= 0 && discount >= 0 && spent >= 0 && 0 <= Fee(price) <= MAX_FEE
      && (spent > 0 ==> r.useCredits && spent <= Balance(CancelOrders(d.till, ids).rows, r.caller))
      && (r.useCredits && w.ledger.orders[id].amount > 0 ==> Balance(w.rows, r.caller) == 0)
      && (CheckoutKindOf(d, r, ids, id, now, g).Covered? <==> w.ledger.orders[id].amount == 0)
  {
    hide Balance, Spent, Reversals, SpendOf, Discount, Fee, WalletLaws.ReferralsOk, WalletLaws.BoostsOk;
    hide WalletLaws.TablesAgree, LedgerOk, WalletLaws.RowsOk;
    var w1 := CancelOrders(d.till, ids);
    WalletLaws.CancelOrdersKeeps(d.till, ids);
    var w2 := if r.promo.Some? then Reserve(w1, r.promo.value, now) else w1;
    var total := Charge(d, r);
    DiscountFits(w1, r.promo, total);
    FeeFits(d.db.bookings[r.booking].price);
    WalletLaws.Carried(w1, w2);
    OrderAddsUp(w2, id, r.booking, total - DiscountOf(w1, r.promo, total), r.caller, r.useCredits);
  }

  lemma FeeFits(price: int)
    requires price + Fee(price) > 0
    ensures 0 <= Fee(price) <= MAX_FEE
  { }

  lemma OrderAddsUp(w: Till, id: OrderId, booking: Ref, amount: int, u: UserId, useCredits: bool)
    requires WalletLaws.RowsOk(w) && id !in w.ledger.orders && amount >= 0
    ensures var w' := OrderWithCredits(w, id, booking, amount, u, useCredits);
      && w'.ledger.orders.Keys == w.ledger.orders.Keys + {id}
      && w'.ledger.orders[id] == Order(booking, amount - Spent(w'.rows, id), Created)
      && 0 <= Spent(w'.rows, id) <= amount
      && (Spent(w'.rows, id) > 0 ==> useCredits && Spent(w'.rows, id) <= Balance(w.rows, u))
      && (useCredits && Spent(w'.rows, id) < amount ==> Balance(w'.rows, u) == 0)
  {
    hide Balance, Spent;
    WalletLaws.OrderEffect(w, id, booking, amount, u, useCredits);
    var spent := SpendOf(w.rows, u, amount, useCredits);
    if spent > 0 {
      WalletLaws.Append(w.rows, Row(u, -spent, BookingSpend, Some(id)));
    } else {
      assert w.rows + [] == w.rows;
    }
  }

  lemma DiscountFits(w: Till, promo: Option<Code>, total: int)
    requires WalletLaws.CouponsOk(w) && total > 0
    ensures 0 <= DiscountOf(w, promo, total) <= total
  {
    if promo.Some? && promo.value in w.coupons {
      var v := w.coupons[promo.value].value;
      assert total * v >= 0;
    }
  }

  lemma PlacedOpenOrders(d: Desk, r: Request, ids: seq<OrderId>, id: OrderId, now: int)
    requires WalletLaws.Inv(d.till) && OpenOrders(d.till.ledger, ids, r.booking) && id !in d.till.ledger.orders
    requires r.booking in d.db.bookings && Charge(d, r) > 0
    ensures var l := Placed(d, r, ids, id, now).ledger;
      id in l.orders && forall o :: OpenOrder(l, o, r.booking) <==> o == id
  {
    hide Balance, Spent, Reversals, SpendOf, Discount, Fee, WalletLaws.ReferralsOk, WalletLaws.BoostsOk;
    hide WalletLaws.TablesAgree, LedgerOk, WalletLaws.RowsOk;
    var w1 := CancelOrders(d.till, ids);
    WalletLaws.CancelOrdersKeeps(d.till, ids);
    var w2 := if r.promo.Some? then Reserve(w1, r.promo.value, now) else w1;
    DiscountFits(w1, r.promo, Charge(d, r));
    WalletLaws.Carried(w1, w2);
    OrderAddsUp(w2, id, r.booking, Charge(d, r) - DiscountOf(w1, r.promo, Charge(d, r)), r.caller, r.useCredits);
  }

  lemma PlacedKeeps(d: Desk, r: Request, ids: seq<OrderId>, id: OrderId, now: int)
    requires WalletLaws.Inv(d.till) && OpenOrders(d.till.ledger, ids, r.booking) && id !in d.till.ledger.orders
    requires r.booking in d.db.bookings
    ensures WalletLaws.Inv(Placed(d, r, ids, id, now))
  {
    hide WalletLaws.Inv, Fee, Discount;
    var w1 := CancelOrders(d.till, ids);
    WalletLaws.StepKeeps(d.till, DoCancelOrders(ids));
    var w2 := if r.promo.Some? then Reserve(w1, r.promo.value, now) else w1;
    if r.promo.Some? {
      WalletLaws.StepKeeps(w1, DoReserve(r.promo.value, now));
    }
    WalletLaws.OrderKeeps(w2, id, r.booking, Charge(d, r) - DiscountOf(w1, r.promo, Charge(d, r)), r.caller,
      r.useCredits);
  }

  // Whatever checkout answers, the wallet and seat invariants stand.
  lemma CheckoutKeeps(d: Desk, r: Request, ids: seq<OrderId>, id: OrderId, clock: int, t: int, g: Gateway, now: int)
    requires SeatSafety.Inv(World(d.db, now)) && WalletLaws.Inv(d.till) && t <= now
    requires OpenOrders(d.till.ledger, ids, r.booking) && id !in d.till.ledger.orders
    ensures var d' := Checkout(d, r, ids, id, clock, t, g);
      SeatSafety.Inv(World(d'.db, now)) && WalletLaws.Inv(d'.till)
  {
    hide WalletLaws.Inv, SeatSafety.TablesOk, SeatSafety.SeatsOk, ActiveHolds, ConfirmPaid, Placed;
    hide CancelOrders, Redeemable;
    SeatTablesLinked(d, now);
    var kind := CheckoutKindOf(d, r, ids, id, clock, g);
    if !kind.NoSuchBooking? && !kind.Forbidden? && !kind.NotPayable? {
      WalletLaws.StepKeeps(d.till, DoCancelOrders(ids));
      PlacedKeeps(d, r, ids, id, clock);
      PlacedOpenOrders(d, r, ids, id, clock);
      var w := Placed(d, r, ids, id, clock);
      assert OpenOrder(w.ledger, id, r.booking);
      WalletLaws.StepKeeps(w, DoMarkPaid(id));
      WalletLaws.StepKeeps(w, DoCancelOrders([id]));
      SeatSafety.ConfirmPaidKeeps(World(d.db, now), r.booking, t);
    }
  }

  // A booking never has two orders open at once after checkout ran, and none when it was covered or refused.
  lemma AtMostOneOpenOrder(d: Desk, r: Request, ids: seq<OrderId>, id: OrderId, now: int, t: int, g: Gateway)
    requires ForeignKeys(d.db) && WalletLaws.Inv(d.till)
    requires OpenOrders(d.till.ledger, ids, r.booking) && id !in d.till.ledger.orders
    requires var kind := CheckoutKindOf(d, r, ids, id, now, g);
      !kind.NoSuchBooking? && !kind.Forbidden? && !kind.NotPayable?
    ensures var kind := CheckoutKindOf(d, r, ids, id, now, g);
      forall o :: OpenOrder(Checkout(d, r, ids, id, now, t, g).till.ledger, o, r.booking) <==>
        o == id && (kind.Unsent? || kind.Opened?)
  {
    hide Placed, Reversals, ConfirmPaid, Redeemable, WalletLaws.Inv, ForeignKeys;
    PlacedOpenOrders(d, r, ids, id, now);
    var w := Placed(d, r, ids, id, now);
    assert OpenOrder(w.ledger, id, r.booking);
    var l := Checkout(d, r, ids, id, now, t, g).till.ledger;
    match CheckoutKindOf(d, r, ids, id, now, g)
    case CouponInvalid =>
      assert forall o :: OpenOrder(l, o, r.booking) ==> OpenOrder(d.till.ledger, o, r.booking);
    case Covered | Refused =>
      assert forall o :: OpenOrder(l, o, r.booking) ==> OpenOrder(w.ledger, o, r.booking);
    case Unsent | Opened =>
  }

  // The gateway's refusal gives everything back: the order nets to nothing and every balance is what it was once
  // the booking's earlier orders were closed - never less than before checkout.
  lemma RefusalCostsNothing(d: Desk, r: Request, ids: seq<OrderId>, id: OrderId, now: int, t: int)
    requires ForeignKeys(d.db) && WalletLaws.Inv(d.till)
    requires OpenOrders(d.till.ledger, ids, r.booking) && id !in d.till.ledger.orders
    requires CheckoutKindOf(d, r, ids, id, now, Rejects).Refused?
    ensures var w := Checkout(d, r, ids, id, now, t, Rejects).till;
      && Net(w.rows, id) == 0
      && forall u :: Balance(w.rows, u) == Balance(CancelOrders(d.till, ids).rows, u) >= Balance(d.till.rows, u)
  {
    hide ConfirmPaid, ForeignKeys, Fee, Discount, Balance, Net, Spent, Spender, SpendOf, Reversals;
    hide Redeemable, WalletLaws.TablesAgree, LedgerOk, WalletLaws.ReferralsOk, WalletLaws.BoostsOk;
    hide WalletLaws.CouponsOk;
    var w1 := CancelOrders(d.till, ids);
    var w := Placed(d, r, ids, id, now);
    WalletLaws.CancelOrdersKeeps(d.till, ids);
    assert forall o :: o in ids ==> WalletLaws.Open(d.till.rows, o);
    WalletLaws.ReversalsEffect(d.till.rows, ids);
    var w2 := if r.promo.Some? then Reserve(w1, r.promo.value, now) else w1;
    WalletLaws.Carried(w1, w2);
    OrderUndone(w2, id, r.booking, Charge(d, r) - DiscountOf(w1, r.promo, Charge(d, r)), r.caller, r.useCredits);
  }

  // Placing an order and cancelling it again restores every balance.
  lemma OrderUndone(w: Till, id: OrderId, booking: Ref, amount: int, u: UserId, useCredits: bool)
    requires WalletLaws.RowsOk(w) && id !in w.ledger.orders
    ensures var w' := CancelOrders(OrderWithCredits(w, id, booking, amount, u, useCredits), [id]);
      Net(w'.rows, id) == 0 && forall v :: Balance(w'.rows, v) == Balance(w.rows, v)
  {
    hide Balance, Net, Spent, Spender;
    var placed := OrderWithCredits(w, id, booking, amount, u, useCredits);
    WalletLaws.OrderEffect(w, id, booking, amount, u, useCredits);
    WalletLaws.OrderKeepsRows(w, id, booking, amount, u, useCredits);
    WalletLaws.Untouched(w.rows, id);
    var spent := SpendOf(w.rows, u, amount, useCredits);
    assert Reversals(placed.rows, [id]) == placed.rows + Reversal(placed.rows, id) by {
      assert [id][..0] == [];
    }
    WalletLaws.ReversalEffect(placed.rows, id);
    if amount - spent >= 0 && spent > 0 {
      var row := Row(u, -spent, BookingSpend, Some(id));
      WalletLaws.Append(w.rows, row);
      WalletLaws.SpenderIsTheUser(placed.rows, id, |w.rows|);
    } else {
      assert w.rows + [] == w.rows;
    }
  }

  // ---- a covered order ----

  // Credits spent on an order that checkout settled stay spent, whatever happens afterwards: no cancellation can
  // reach a paid order.
  lemma {:induction false} PaidOrderKeepsCredits(ws: seq<Till>, steps: seq<Wallet.Step>, o: OrderId, n: nat)
    requires WalletLaws.Run(ws, steps) && WalletLaws.Inv(ws[0]) && n < |ws|
    requires o in ws[0].ledger.orders && !ws[0].ledger.orders[o].status.Created?
    ensures o in ws[n].ledger.orders && !ws[n].ledger.orders[o].status.Created?
    ensures Net(ws[n].rows, o) == Net(ws[0].rows, o)
  {
    hide WalletLaws.Inv, Net, Wallet.Apply;
    if n > 0 {
      PaidOrderKeepsCredits(ws, steps, o, n - 1);
      WalletLaws.RunKeeps(ws, steps, n - 1);
      WalletLaws.StepOrder(ws[n - 1], steps[n - 1], o);
    }
  }

  // A covered checkout seats the booking exactly when the seat can be had; otherwise no seat row changes and the
  // order is settled all the same, its credits spent for good (PaidOrderKeepsCredits).
  lemma CoveredSeatsIff(d: Desk, r: Request, ids: seq<OrderId>, id: OrderId, clock: int, t: int, g: Gateway)
    requires ForeignKeys(d.db) && WalletLaws.Inv(d.till)
    requires OpenOrders(d.till.ledger, ids, r.booking) && id !in d.till.ledger.orders
    requires CheckoutKindOf(d, r, ids, id, clock, g).Covered?
    ensures var d' := Checkout(d, r, ids, id, clock, t, g);
      && r.booking in d'.db.bookings && id in d'.till.ledger.orders && d'.till.ledger.orders[id].status.Paid?
      && (d'.db.bookings[r.booking].status.Confirmed? <==> ConfirmKindOf(d.db, r.booking, t).Seats?)
      && (!ConfirmKindOf(d.db, r.booking, t).Seats? ==> d'.db == d.db && ConfirmKindOf(d.db, r.booking, t).SeatGone?)
      && Net(d'.till.rows, id) == -Spent(d'.till.rows, id)
  {
    hide ConfirmPaid, Placed, Redeemable, ForeignKeys, ActiveHolds, WalletLaws.CouponsOk;
    hide WalletLaws.TablesAgree, LedgerOk, WalletLaws.ReferralsOk, WalletLaws.BoostsOk, Net, Spent;
    ConfirmOutcome(d.db, r.booking, t);
    PlacedOpenOrders(d, r, ids, id, clock);
    PlacedKeeps(d, r, ids, id, clock);
    assert OpenOrder(Placed(d, r, ids, id, clock).ledger, id, r.booking);
  }
}
