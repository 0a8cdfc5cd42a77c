// Where seats and money meet: checkout, and what happens when a payment is captured.
module Settlement {
  import opened Arithmetic
  import opened Finite
  import opened SeatTables
  import opened SeatRules
  import opened PaymentLedger
  import opened Wallet

  const MAX_FEE: int := 4900

  datatype Desk = Desk(db: Db, till: Till)

  // The payment gateway: not configured, or answering a request one way or the other.
  datatype Gateway = NoGateway | Rejects | Accepts

  // ---- captures ----

  function RefundVia(l: Ledger, p: GatewayRef, amount: int, g: Gateway): Ledger {
    if g.NoGateway? then l else DoRefund(l, p, amount, g.Accepts?)
  }

  // MarkCaptured of the payment service: record, confirm, and send everything back if the seat is gone.
  function Receive(d: Desk, call: Call, t: int, g: Gateway): Desk
    requires ForeignKeys(d.db)
  {
    var l := d.till.ledger;
    if CaptureKindOf(l, call).OrderNotFound? || CaptureKindOf(l, call).BadAmount? then d
    else
      var l1 := Capture(l, call);
      var b := l.orders[call.order].booking;
      if ConfirmKindOf(d.db, b, t).SeatGone?
      then d.(till := d.till.(ledger := RefundVia(l1, call.ref, l1.payments[call.ref].amount, g)))
      else Desk(ConfirmPaid(d.db, b, t), d.till.(ledger := l1))
  }

  // ---- checkout ----

  // GetBookingCharge: the price plus 5%, the fee capped.
  function Fee(price: int): int {
    Min(price / 20, MAX_FEE)
  }

  datatype CheckoutKind = NoSuchBooking | Forbidden | NotPayable | CouponInvalid | Covered | Unsent | Refused | Opened

  datatype Request = Request(booking: BookingId, caller: UserId, promo: Option<Code>, useCredits: bool)

  // Some order the booking still has open.
  predicate OpenOrder(l: Ledger, o: OrderId, b: BookingId) {
    o in l.orders && l.orders[o].booking == b && l.orders[o].status.Created?
  }

  ghost predicate OpenOrders(l: Ledger, ids: seq<OrderId>, b: BookingId) {
    Distinct(ids) && forall o :: o in ids <==> OpenOrder(l, o, b)
  }

  function Charge(d: Desk, r: Request): int
    requires r.booking in d.db.bookings
  {
    d.db.bookings[r.booking].price + Fee(d.db.bookings[r.booking].price)
  }

  function DiscountOf(w: Till, promo: Option<Code>, total: int): int {
    if promo.Some? && promo.value in w.coupons then Discount(w.coupons[promo.value], total) else 0
  }

  function CheckoutKindOf(d: Desk, r: Request, ids: seq<OrderId>, id: OrderId, now: int, g: Gateway): CheckoutKind {
    if r.booking !in d.db.bookings then NoSuchBooking
    else if d.db.bookings[r.booking].user != r.caller then Forbidden
    else if !d.db.bookings[r.booking].status.PaymentPending? || Charge(d, r) <= 0 then NotPayable
    else if r.promo.Some? && !Redeemable(d.till, r.promo.value, now) then CouponInvalid
    else
      var w := Placed(d, r, ids, id, now);
      if id in w.ledger.orders && w.ledger.orders[id].amount <= 0 then Covered
      else match g case NoGateway => Unsent case Rejects => Refused case Accepts => Opened
  }

  // Earlier open orders closed, the coupon used, the new order written.
  function Placed(d: Desk, r: Request, ids: seq<OrderId>, id: OrderId, now: int): Till
    requires r.booking in d.db.bookings
  {
    var w1 := CancelOrders(d.till, ids);
    var w2 := if r.promo.Some? then Reserve(w1, r.promo.value, now) else w1;
    OrderWithCredits(w2, id, r.booking, Charge(d, r) - DiscountOf(w1, r.promo, Charge(d, r)), r.caller, r.useCredits)
  }

  // CreateOrder of the payment service. `ids` are the open orders its first statement returned, `id` the new order.
  function Checkout(d: Desk, r: Request, ids: seq<OrderId>, id: OrderId, now: int, t: int, g: Gateway): Desk
    requires ForeignKeys(d.db)
  {
    match CheckoutKindOf(d, r, ids, id, now, g)
    case NoSuchBooking | Forbidden | NotPayable => d
    case CouponInvalid => d.(till := CancelOrders(d.till, ids))
    case Covered => Desk(ConfirmPaid(d.db, r.booking, t), MarkPaid(Placed(d, r, ids, id, now), id))
    case Unsent | Opened => d.(till := Placed(d, r, ids, id, now))
    case Refused => d.(till := CancelOrders(Placed(d, r, ids, id, now), [id]))
  }
}
