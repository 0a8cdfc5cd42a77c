// Where money and seats come apart: a covered order whose seat is gone, and a seat that was not fully paid for.
module SettlementGaps {
  import opened Arithmetic
  import opened Finite
  import opened SeatTables
  import opened SeatRules
  import SeatSafety
  import opened PaymentLedger
  import RefundLaws
  import opened Wallet
  import WalletLaws
  import opened Settlement
  import opened SettlementLaws

  // ---- is a seated booking paid for? ----

  // What an order was for: the charge less the coupon (CheckoutAddsUp, OrderOverRuns).
  function Worth(w: Till, o: OrderId): int
    requires o in w.ledger.orders
  {
    w.ledger.orders[o].amount + Spent(w.rows, o)
  }

  // What a payment brought in for its order: captured less refunded, plus the credits the order holds.
  function Received(w: Till, ref: GatewayRef): int
    requires ref in w.ledger.payments
  {
    w.ledger.payments[ref].amount - RefundedTotal(w.ledger.refunds, ref) - Net(w.rows, w.ledger.payments[ref].order)
  }

  // The first capture of an order that seats its booking pays for it exactly when the amount captured is what the
  // order asks for and, if the order had been cancelled, also what it had given back in credits.
  lemma SeatedIsPaidForIff(d: Desk, call: Call, t: int, now: int)
    requires DeskOk(d, now) && CaptureKindOf(d.till.ledger, call).Captured?
    requires !d.till.ledger.orders[call.order].status.Paid?
    requires ConfirmKindOf(d.db, d.till.ledger.orders[call.order].booking, t).Seats?
    ensures var w, w' := d.till, Receive(d, call, t, Accepts).till;
      var order := w.ledger.orders[call.order];
      && SeatedOutcome(d, Receive(d, call, t, Accepts), order.booking, call.ref)
      && call.ref in w'.ledger.payments && call.order in w'.ledger.orders
      && (Received(w', call.ref) == Worth(w', call.order) <==>
            call.amount == order.amount + if order.status.Closed? then Spent(w.rows, call.order) else 0)
  {
    hide RefundVia, RefundedTotal, ConfirmPaid, ConfirmKindOf, Net, Spent, SeatSafety.TablesOk, SeatSafety.SeatsOk;
    hide WalletLaws.TablesAgree, WalletLaws.BoostsOk, WalletLaws.ReferralsOk, WalletLaws.CouponsOk, LedgerOk;
    hide RefundsBounded;
    SeatTablesLinked(d, now);
    FirstCaptureLedger(d.till.ledger, call);
    ConfirmOutcome(d.db, d.till.ledger.orders[call.order].booking, t);
    assert WalletLaws.OrdersSettled(d.till);
  }

  // So when the gateway captured just what the order asked for, the seat is paid for if and only if the order was
  // not cancelled, its credits given back, before the payment landed.
  lemma HonestCaptureIsPaidForIff(d: Desk, call: Call, t: int, now: int)
    requires DeskOk(d, now) && CaptureKindOf(d.till.ledger, call).Captured?
    requires !d.till.ledger.orders[call.order].status.Paid? && call.amount == d.till.ledger.orders[call.order].amount
    requires ConfirmKindOf(d.db, d.till.ledger.orders[call.order].booking, t).Seats?
    ensures var w, w' := d.till, Receive(d, call, t, Accepts).till;
      && call.ref in w'.ledger.payments && call.order in w'.ledger.orders
      && (Received(w', call.ref) == Worth(w', call.order) <==>
            !(w.ledger.orders[call.order].status.Closed? && Spent(w.rows, call.order) > 0))
  {
    hide Receive, ConfirmKindOf, Net, Spent, SeatSafety.Inv, Received, Worth, LedgerOk, RefundsBounded;
    SeatedIsPaidForIff(d, call, t, now);
    assert WalletLaws.OrdersSettled(d.till);
  }

  // ---- a seat for part of its price ----

  // One free seat at 500, held by user 1 until 900, who has 300 credits.
  const HOLDING: Db := EMPTY.(plans := map[1 := Plan(1, 0, 500, Published, 9000000, 9100000)],
                              bookings := map[1 := Booking(1, 1, PaymentPending, 500, Some(900))])
  const RELEASED: Db := HOLDING.(bookings := map[1 := Booking(1, 1, Cancelled, 500, Some(900))])

  const GRANTED: Row := Row(1, 300, Grant, None)
  const SPENT: Row := Row(1, -300, BookingSpend, Some(1))
  const GIVEN_BACK: Row := Row(1, 300, SpendReversed, Some(1))

  function Books(status: OrderStatus, rows: seq<Row>): Till {
    EMPTY_TILL.(ledger := Ledger(map[1 := Order(1, 225, status)], map[], [], []), rows := rows)
  }

  lemma HoldingIsLegal()
    ensures DeskOk(Desk(HOLDING, EMPTY_TILL.(rows := [GRANTED])), 100)
  {
    hide SeatSafety.SeatsOk, WalletLaws.Inv;
    HoldingFits();
    WalletLaws.EmptyOk();
    WalletLaws.GrantKeeps(EMPTY_TILL, 1, 300);
    assert GrantCredit(EMPTY_TILL, 1, 300).rows == [GRANTED];
  }

  lemma HoldingFits()
    ensures SeatSafety.SeatsOk(HOLDING, 1, 100)
  {
    assert Seated(HOLDING, 1) == {};
    assert OfferRows(HOLDING, 1, 100, None) == {} && PendingRows(HOLDING, 1, 100, None) == {1};
    HoldUsersAtMostRows(HOLDING, 1, 100, None);
    CardLe(Holders(HOLDING, 1, 100), HoldUsers(HOLDING, 1, 100, None));
  }

  // The three entries of the story, summed up.
  lemma StorySums()
    ensures Balance([GRANTED], 1) == 300
    ensures Balance([GRANTED, SPENT, GIVEN_BACK], 1) == 300 && Net([GRANTED, SPENT, GIVEN_BACK], 1) == 0
    ensures Spent([GRANTED, SPENT], 1) == 300 && Spender([GRANTED, SPENT], 1) == 1
    ensures Spent([GRANTED, SPENT, GIVEN_BACK], 1) == 300
  {
    WalletLaws.Append([], GRANTED);
    WalletLaws.Append([GRANTED], SPENT);
    WalletLaws.Append([GRANTED, SPENT], GIVEN_BACK);
    assert [] + [GRANTED] == [GRANTED] && [GRANTED] + [SPENT] == [GRANTED, SPENT];
    assert [GRANTED, SPENT] + [GIVEN_BACK] == [GRANTED, SPENT, GIVEN_BACK];
  }

  lemma OrderOpens()
    ensures var d := Desk(HOLDING, EMPTY_TILL.(rows := [GRANTED]));
      && OpenOrders(d.till.ledger, [], 1)
      && CheckoutKindOf(d, Request(1, 1, None, true), [], 1, 100, Accepts).Opened?
      && Placed(d, Request(1, 1, None, true), [], 1, 100) == Books(Created, [GRANTED, SPENT])
  {
    StorySums();
    hide Balance;
    var d := Desk(HOLDING, EMPTY_TILL.(rows := [GRANTED]));
    assert CancelOrders(d.till, []) == d.till;
  }

  lemma OrderCloses()
    ensures CancelOrders(Books(Created, [GRANTED, SPENT]), [1]) == Books(Closed, [GRANTED, SPENT, GIVEN_BACK])
  {
    StorySums();
    hide Spent, Spender;
    assert [1][..0] == [];
    assert Reversals([GRANTED, SPENT], [1]) == [GRANTED, SPENT] + Reversal([GRANTED, SPENT], 1);
  }

  lemma SeatStillFree()
    ensures ForeignKeys(RELEASED) && ConfirmKindOf(RELEASED, 1, 1000).Seats?
  {
    assert OfferRows(RELEASED, 1, 1000, Some(1)) == {} && PendingRows(RELEASED, 1, 1000, Some(1)) == {};
  }

  lemma HoldRunsOut()
    ensures ForeignKeys(HOLDING) && ExpirePending(HOLDING, 900) == RELEASED
  { }

  // Checkout takes the 300 credits and asks for 225; the hold runs out and the abandoned order is closed, giving the
  // credits back; the payment of 225 lands and seats the booking, whose charge was 525.
  lemma UnderpaidSeat()
    ensures ForeignKeys(HOLDING) && ForeignKeys(RELEASED)
    ensures var start := Desk(HOLDING, EMPTY_TILL.(rows := [GRANTED]));
      var r, call := Request(1, 1, None, true), Call(1, 7, 225);
      var ordered := Checkout(start, r, [], 1, 100, 100, Accepts);
      var closed := Desk(ExpirePending(ordered.db, 900), CancelOrders(ordered.till, [1]));
      && DeskOk(start, 100) && Charge(start, r) == 525
      && OpenOrder(ordered.till.ledger, 1, 1) && closed.db == RELEASED
      && var end := Receive(closed, call, 1000, Accepts);
        && SeatedOutcome(closed, end, 1, 7) && Balance(end.till.rows, 1) == 300
        && 7 in end.till.ledger.payments && 1 in end.till.ledger.orders
        && Received(end.till, 7) == 225 && Worth(end.till, 1) == 525
  {
    HoldingIsLegal();
    OrderOpens();
    OrderCloses();
    HoldRunsOut();
    SeatStillFree();
    StorySums();
    UnderpaidEnd();
    hide CheckoutKindOf, Placed, Receive, DeskOk, SeatedOutcome, Balance, Received, Worth, ExpirePending, CancelOrders;
  }

  lemma UnderpaidEnd()
    ensures ForeignKeys(RELEASED)
    ensures var closed := Desk(RELEASED, Books(Closed, [GRANTED, SPENT, GIVEN_BACK]));
      var end := Receive(closed, Call(1, 7, 225), 1000, Accepts);
      && SeatedOutcome(closed, end, 1, 7) && Balance(end.till.rows, 1) == 300
      && 7 in end.till.ledger.payments && 1 in end.till.ledger.orders
      && Received(end.till, 7) == 225 && Worth(end.till, 1) == 525
  {
    StorySums();
    SeatStillFree();
    ConfirmOutcome(RELEASED, 1, 1000);
    hide Balance, Net, Spent, ConfirmPaid, ConfirmKindOf;
  }

  // ---- credits spent on a seat that is gone ----

  // The last seat went to user 2 while user 1's hold had run out; user 1 has credits for the whole charge.
  const TAKEN: Db := Db(
    map[1 := Plan(1, 1, 500, Published, 9000000, 9100000)],
    map[1 := Booking(1, 1, PaymentPending, 500, Some(900)), 2 := Booking(1, 2, Confirmed, 500, None)],
    map[], map[(1, 2) := Participant(2, true, false)], {})
  const RICH: Row := Row(1, 525, Grant, None)
  const ALL_SPENT: Row := Row(1, -525, BookingSpend, Some(1))

  lemma TakenIsLegal()
    ensures DeskOk(Desk(TAKEN, EMPTY_TILL.(rows := [RICH])), 1000)
  {
    hide SeatSafety.SeatsOk, WalletLaws.Inv;
    TakenFits();
    WalletLaws.EmptyOk();
    WalletLaws.GrantKeeps(EMPTY_TILL, 1, 525);
    assert GrantCredit(EMPTY_TILL, 1, 525).rows == [RICH];
  }

  lemma TakenFits()
    ensures SeatSafety.SeatsOk(TAKEN, 1, 1000)
  {
    hide Holders;
    assert Seated(TAKEN, 1) == {2};
    TakenHolders();
  }

  lemma TakenHolders()
    ensures Holders(TAKEN, 1, 1000) == {} && ActiveHolds(TAKEN, 1, 1000, Some(1)) == 0
  {
    assert OfferRows(TAKEN, 1, 1000, None) == {} && PendingRows(TAKEN, 1, 1000, None) == {};
    assert OfferRows(TAKEN, 1, 1000, Some(1)) == {} && PendingRows(TAKEN, 1, 1000, Some(1)) == {};
  }

  lemma RichSums()
    ensures Balance([RICH], 1) == 525 && Balance([RICH, ALL_SPENT], 1) == 0
    ensures Net([RICH, ALL_SPENT], 1) == -525 && Spent([RICH, ALL_SPENT], 1) == 525
  {
    WalletLaws.Append([], RICH);
    WalletLaws.Append([RICH], ALL_SPENT);
    assert [] + [RICH] == [RICH] && [RICH] + [ALL_SPENT] == [RICH, ALL_SPENT];
  }

  lemma CoveredPlaced()
    ensures var d, r := Desk(TAKEN, EMPTY_TILL.(rows := [RICH])), Request(1, 1, None, true);
      && OpenOrders(d.till.ledger, [], 1) && CheckoutKindOf(d, r, [], 1, 1000, Accepts).Covered?
      && Placed(d, r, [], 1, 1000).rows == [RICH, ALL_SPENT]
      && Placed(d, r, [], 1, 1000).ledger.orders == map[1 := Order(1, 0, Created)]
  {
    RichSums();
    hide Balance;
    var d := Desk(TAKEN, EMPTY_TILL.(rows := [RICH]));
    assert CancelOrders(d.till, []) == d.till;
  }

  lemma NothingSeated()
    ensures ForeignKeys(TAKEN) && ConfirmKindOf(TAKEN, 1, 1000).SeatGone? && ConfirmPaid(TAKEN, 1, 1000) == TAKEN
  {
    TakenHolders();
    hide ActiveHolds;
  }

  lemma CoveredEnds()
    ensures ForeignKeys(TAKEN)
    ensures var d, r := Desk(TAKEN, EMPTY_TILL.(rows := [RICH])), Request(1, 1, None, true);
      var d' := Checkout(d, r, [], 1, 1000, 1000, Accepts);
      && d'.db == TAKEN && d'.till.rows == [RICH, ALL_SPENT] && d'.till.ledger.orders == map[1 := Order(1, 0, Paid)]
  {
    CoveredPlaced();
    NothingSeated();
    hide CheckoutKindOf, Placed, ConfirmPaid, ForeignKeys;
  }

  // From a legal state: checkout is covered by credits, the seat is gone, no seat row changes, and the credits are
  // spent - for good, whatever the money tables do next (TheyAreNeverGivenBack).
  lemma CoveredCreditsStaySpent()
    ensures ForeignKeys(TAKEN)
    ensures var d, r := Desk(TAKEN, EMPTY_TILL.(rows := [RICH])), Request(1, 1, None, true);
      var d' := Checkout(d, r, [], 1, 1000, 1000, Accepts);
      && DeskOk(d, 1000) && OpenOrders(d.till.ledger, [], 1) && Balance(d.till.rows, 1) == Charge(d, r) == 525
      && CheckoutKindOf(d, r, [], 1, 1000, Accepts).Covered? && ConfirmKindOf(TAKEN, 1, 1000).SeatGone?
      && d'.db == TAKEN && Balance(d'.till.rows, 1) == 0 && Net(d'.till.rows, 1) == -525
      && 1 in d'.till.ledger.orders && d'.till.ledger.orders[1].status.Paid?
  {
    hide DeskOk, CheckoutKindOf, Checkout, Placed, Balance, Net, ActiveHolds, ForeignKeys, ConfirmKindOf, OpenOrders;
    TakenIsLegal();
    CoveredPlaced();
    RichSums();
    NothingSeated();
    CoveredEnds();
  }

  lemma TheyAreNeverGivenBack(ws: seq<Till>, steps: seq<Wallet.Step>, n: nat)
    requires WalletLaws.Run(ws, steps) && n < |ws|
    requires ws[0] ==
        Checkout(Desk(TAKEN, EMPTY_TILL.(rows := [RICH])), Request(1, 1, None, true), [], 1, 1000, 1000, Accepts).till
    ensures Net(ws[n].rows, 1) == -525
  {
    CoveredCreditsStaySpent();
    CheckoutKeeps(Desk(TAKEN, EMPTY_TILL.(rows := [RICH])), Request(1, 1, None, true), [], 1, 1000, 1000, Accepts,
      1000);
    hide DeskOk, Checkout, CheckoutKindOf, Net, Balance, WalletLaws.Inv, ConfirmKindOf, WalletLaws.Run;
    PaidOrderKeepsCredits(ws, steps, 1, n);
  }
}
