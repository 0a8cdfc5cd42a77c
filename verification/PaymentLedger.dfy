// The money tables of internal/payments: orders, payments, refund attempts and the append-only reconciliation
// entries. A payment row is named by its gateway payment id (UNIQUE), a refund attempt by its place in the table.
module PaymentLedger {
  type OrderId = nat
  type GatewayRef = nat
  type Ref = nat // bookings.id

  datatype OrderStatus = Created | Paid | Closed
  datatype Order = Order(booking: Ref, amount: int, status: OrderStatus)
  datatype Payment = Payment(order: OrderId, amount: int, created: nat)
  datatype RefundStatus = Pending | Processed | Failed
  datatype Refund = Refund(payment: GatewayRef, amount: int, status: RefundStatus)
  datatype Entry = PaymentEntry(ref: GatewayRef, amount: int) | RefundEntry(refund: nat, amount: int)

  datatype Ledger = Ledger(
    orders: map<OrderId, Order>,
    payments: map<GatewayRef, Payment>,
    refunds: seq<Refund>,
    recon: seq<Entry>)

  // ---- captures ----

  datatype Call = Call(order: OrderId, ref: GatewayRef, amount: int)
  datatype CaptureKind = OrderNotFound | BadAmount | Replayed | Captured

  function CaptureKindOf(l: Ledger, c: Call): CaptureKind {
    if c.order !in l.orders then OrderNotFound
    else if c.amount <= 0 then BadAmount // CHECK (amount_minor > 0)
    else if c.ref in l.payments then Replayed
    else Captured
  }

  function Capture(l: Ledger, c: Call): Ledger {
    if CaptureKindOf(l, c).Captured? then
      l.(payments := l.payments[c.ref := Payment(c.order, c.amount, |l.payments|)],
         orders := l.orders[c.order := l.orders[c.order].(status := Paid)],
         recon := l.recon + [PaymentEntry(c.ref, c.amount)])
    else l
  }

  // ---- refunds ----

  // What has been, or is being, returned for a payment.
  function RefundedTotal(refunds: seq<Refund>, p: GatewayRef): int {
    if refunds == [] then 0
    else
      var r := refunds[|refunds| - 1];
      RefundedTotal(refunds[..|refunds| - 1], p) + if r.payment == p && !r.status.Failed? then r.amount else 0
  }

  datatype BeginKind = PaymentNotFound | NotRefundable | Begun

  function BeginKindOf(l: Ledger, p: GatewayRef, amount: int): BeginKind {
    if p !in l.payments then PaymentNotFound
    else if amount <= 0 || RefundedTotal(l.refunds, p) + amount > l.payments[p].amount then NotRefundable
    else Begun
  }

  function Begin(l: Ledger, p: GatewayRef, amount: int): Ledger {
    if BeginKindOf(l, p, amount).Begun? then l.(refunds := l.refunds + [Refund(p, amount, Pending)]) else l
  }

  function SetStatus(l: Ledger, id: nat, status: RefundStatus): Ledger {
    if id < |l.refunds| then l.(refunds := l.refunds[id := l.refunds[id].(status := status)]) else l
  }

  function Complete(l: Ledger, id: nat, amount: int): Ledger {
    SetStatus(l, id, Processed).(recon := l.recon + [RefundEntry(id, amount)])
  }

  // refund: record the attempt, ask the gateway, settle the record.
  function DoRefund(l: Ledger, p: GatewayRef, amount: int, accepted: bool): Ledger {
    if !BeginKindOf(l, p, amount).Begun? then l
    else if accepted then Complete(Begin(l, p, amount), |l.refunds|, amount)
    else SetStatus(Begin(l, p, amount), |l.refunds|, Failed)
  }

  // floor(paid * percent / 100), nothing for a percentage that is not positive
  function Target(paid: int, percent: int): int {
    if percent <= 0 then 0 else paid * (if percent <= 100 then percent else 100) / 100
  }

  // RefundBookingIfCaptured once the payment is found: top up to the target.
  function TopUp(l: Ledger, p: GatewayRef, percent: int, accepted: bool): Ledger
    requires p in l.payments
  {
    var owed := Target(l.payments[p].amount, percent) - RefundedTotal(l.refunds, p);
    if percent > 0 && owed > 0 then DoRefund(l, p, owed, accepted) else l
  }

  // FindCapturedPaymentForBooking: the latest payment of any of the booking's orders.
  predicate PaymentOf(l: Ledger, b: Ref, p: GatewayRef) {
    p in l.payments && l.payments[p].order in l.orders && l.orders[l.payments[p].order].booking == b
  }

  ghost predicate Latest(l: Ledger, b: Ref, p: GatewayRef) {
    PaymentOf(l, b, p) && forall q :: PaymentOf(l, b, q) ==> l.payments[q].created <= l.payments[p].created
  }

  // ---- what always holds ----

  // Payments are told apart by when they were recorded.
  ghost predicate CreatedInOrder(l: Ledger) {
    && (forall p :: p in l.payments ==> l.payments[p].created < |l.payments|)
    && (forall p, q :: p in l.payments && q in l.payments && l.payments[p].created == l.payments[q].created ==> p == q)
  }

  ghost predicate LedgerOk(l: Ledger) {
    && CreatedInOrder(l)
    && (forall r :: r in l.payments ==> l.payments[r].amount > 0 && l.payments[r].order in l.orders)
    && (forall i :: 0 <= i < |l.refunds| ==> l.refunds[i].amount > 0 && l.refunds[i].payment in l.payments)
  }

  // Attempts that did not fail never add up to more than was captured.
  ghost predicate RefundsBounded(l: Ledger) {
    forall p :: p in l.payments ==> RefundedTotal(l.refunds, p) <= l.payments[p].amount
  }
}
