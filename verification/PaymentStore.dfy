// The payment tables as the code works on them: rows inserted and updated in place, sums taken by walking the rows,
// and the service operations that drive them. Each method is tied to the rules it implements.
module PaymentStore {
  import opened Arithmetic
  import opened Finite
  import opened SeatTables
  import SeatRules
  import SeatSafety
  import SeatStore
  import opened PaymentLedger
  import RefundLaws
  import opened Wallet
  import WalletLaws
  import opened Settlement
  import SettlementLaws
  import opened MoneyOutcomes

  lemma NotAlone(ids: seq<OrderId>, o: OrderId)
    requires Distinct(ids) && |ids| > 1
    ensures exists p :: p in ids && p != o
  {
    assert ids[0] in ids && ids[1] in ids && ids[0] != ids[1];
  }

  lemma JustOne(ids: seq<OrderId>, o: OrderId)
    requires Distinct(ids) && forall p :: p in ids <==> p == o
    ensures ids == [o]
  {
    assert o in ids;
    if |ids| > 1 {
      NotAlone(ids, o);
    }
  }

  // An open order whose booking no longer waits for payment.
  predicate Abandoned(l: Ledger, db: Db, o: OrderId) {
    && o in l.orders && l.orders[o].status.Created?
    && l.orders[o].booking in db.bookings && !db.bookings[l.orders[o].booking].status.PaymentPending?
  }

  class Payments {
    const seats: SeatStore.Store
    var orders: map<OrderId, Order>
    var payments: map<GatewayRef, Payment>
    var refunds: seq<PaymentLedger.Refund>
    var recon: seq<PaymentLedger.Entry>
    var credits: seq<Row>
    var boosts: seq<Wallet.Boost>
    var referrals: seq<Referral>
    var coupons: map<Code, Coupon>
    var codes: map<Code, Wallet.UserId>

    constructor (seats: SeatStore.Store)
      ensures this.seats == seats && Money() == EMPTY_TILL
    {
      this.seats := seats;
      orders, payments, refunds, recon := map[], map[], [], [];
      credits, boosts, referrals, coupons, codes := [], [], [], map[], map[];
    }

    function Books(): Ledger
      reads this
    {
      Ledger(orders, payments, refunds, recon)
    }

    function Money(): Till
      reads this
    {
      Till(Books(), credits, boosts, referrals, coupons, codes)
    }

    function Office(): Desk
      reads this, seats
    {
      Desk(seats.Rows(), Money())
    }

    // ---- rows ----

    // MarkCaptured of the repository
    method RecordCapture(call: Call) returns (kind: CaptureKind)
      modifies this`payments, this`orders, this`recon
      ensures kind == CaptureKindOf(old(Books()), call)
      ensures Books() == Capture(old(Books()), call)
    {
      if call.order !in orders {
        return OrderNotFound;
      }
      if call.amount <= 0 {
        return BadAmount;
      }
      if call.ref in payments {
        return Replayed;
      }
      payments := payments[call.ref := Payment(call.order, call.amount, |payments|)];
      orders := orders[call.order := orders[call.order].(status := Paid)];
      recon := recon + [PaymentEntry(call.ref, call.amount)];
      return Captured;
    }

    method TotalRefunded(p: GatewayRef) returns (n: int)
      ensures n == RefundedTotal(refunds, p)
    {
      n := 0;
      for i := 0 to |refunds|
        invariant n == RefundedTotal(refunds[..i], p)
      {
        if refunds[i].payment == p && !refunds[i].status.Failed? {
          n := n + refunds[i].amount;
        }
        assert refunds[..i + 1][..i] == refunds[..i];
      }
      assert refunds[..|refunds|] == refunds;
    }

    method BeginRefund(p: GatewayRef, amount: int) returns (kind: BeginKind, id: nat)
      modifies this`refunds
      ensures kind == BeginKindOf(old(Books()), p, amount) && Books() == Begin(old(Books()), p, amount)
      ensures kind.Begun? ==> id == |old(refunds)| && refunds[id] == PaymentLedger.Refund(p, amount, Pending)
    {
      id := 0;
      if p !in payments {
        return PaymentNotFound, id;
      }
      var total := TotalRefunded(p);
      if amount <= 0 || total + amount > payments[p].amount {
        return NotRefundable, id;
      }
      id := |refunds|;
      refunds := refunds + [PaymentLedger.Refund(p, amount, Pending)];
      return Begun, id;
    }

    method SetRefundStatus(id: nat, status: RefundStatus)
      modifies this`refunds
      ensures Books() == SetStatus(old(Books()), id, status)
    {
      if id < |refunds| {
        refunds := refunds[id := refunds[id].(status := status)];
      }
    }

    method CompleteRefund(id: nat, amount: int)
      modifies this`refunds, this`recon
      ensures Books() == Complete(old(Books()), id, amount)
    {
      SetRefundStatus(id, Processed);
      recon := recon + [RefundEntry(id, amount)];
    }

    // ---- refunds ----

    method Refund(p: GatewayRef, amount: int, g: Gateway) returns (done: bool)
      modifies this`refunds, this`recon
      ensures Books() == RefundVia(old(Books()), p, amount, g)
      ensures done <==> g.Accepts? && BeginKindOf(old(Books()), p, amount).Begun?
    {
      if g.NoGateway? {
        return false;
      }
      var kind, id := BeginRefund(p, amount);
      if !kind.Begun? {
        return false;
      }
      if g.Rejects? {
        SetRefundStatus(id, Failed);
        return false;
      }
      CompleteRefund(id, amount);
      return true;
    }

    // FindCapturedPaymentForBooking: ORDER BY created_at DESC LIMIT 1
    method FindCaptured(b: Ref) returns (found: Option<GatewayRef>)
      ensures found.Some? ==> Latest(Books(), b, found.value)
      ensures found.None? ==> forall p :: !PaymentOf(Books(), b, p)
    {
      var left := set p | p in payments && payments[p].order in orders && orders[payments[p].order].booking == b;
      ghost var all := left;
      assert forall p :: p in all <==> PaymentOf(Books(), b, p);
      found := None;
      while left != {}
        invariant left <= all
        invariant found.None? ==> left == all
        invariant found.Some? ==> found.value in all
        invariant found.Some? ==> forall q :: q in all - left ==> payments[q].created <= payments[found.value].created
        decreases left
      {
        var p :| p in left;
        if found.None? || payments[found.value].created < payments[p].created {
          found := Some(p);
        }
        left := left - {p};
      }
    }

    method RefundBooking(b: Ref, percent: int, g: Gateway)
      requires LedgerOk(Books())
      modifies this`refunds, this`recon
      ensures Books() == if g.NoGateway? then old(Books())
          else RefundLaws.RefundBooking(old(Books()), b, percent, g.Accepts?)
    {
      if percent <= 0 {
        return;
      }
      var found := FindCaptured(b);
      if found.None? {
        return;
      }
      var p := found.value;
      RefundLaws.OneLatest(Books(), b, p, percent, g.Accepts?);
      var target := payments[p].amount * (if percent <= 100 then percent else 100) / 100;
      var already := TotalRefunded(p);
      if target - already > 0 {
        var _ := Refund(p, target - already, g);
      }
    }

    // RecordRefundResult
    method RecordRefundResult(id: nat, word: RefundLaws.Word)
      modifies this`refunds
      ensures Books() == RefundLaws.Record(old(Books()), id, word)
    {
      match word {
        case SaidSuccess => SetRefundStatus(id, Processed);
        case SaidFailed => SetRefundStatus(id, Failed);
        case SaidCancelled => SetRefundStatus(id, Failed);
        case SaidOther =>
      }
    }

    // MarkCaptured of the service
    method MarkCaptured(call: Call, t: int, g: Gateway) returns (kind: CaptureKind)
      requires SeatRules.ForeignKeys(seats.Rows())
      modifies this, seats
      ensures kind == CaptureKindOf(old(Books()), call)
      ensures Office() == Receive(old(Office()), call, t, g)
    {
      hide SeatRules.ConfirmKindOf, SeatRules.ConfirmPaid, SeatRules.ForeignKeys;
      kind := RecordCapture(call);
      if kind.OrderNotFound? || kind.BadAmount? {
        return;
      }
      SettlementLaws.ConfirmOutcome(seats.Rows(), orders[call.order].booking, t);
      var confirmed := seats.ConfirmPaid(orders[call.order].booking, t);
      if confirmed.SeatGone? {
        var _ := Refund(call.ref, payments[call.ref].amount, g);
      }
    }

    // ---- credits ----

    // GetCreditBalance, and the sum boostStatus and CreateOrderWithCredits take
    method CreditBalance(u: Wallet.UserId) returns (n: int)
      ensures n == Balance(credits, u)
    {
      n := 0;
      for i := 0 to |credits|
        invariant n == Balance(credits[..i], u)
      {
        if credits[i].user == u {
          n := n + credits[i].amount;
        }
        assert credits[..i + 1][..i] == credits[..i];
      }
      assert credits[..|credits|] == credits;
    }

    method ReserveCoupon(code: Code, amount: int, now: int) returns (ok: bool, discount: int)
      modifies this`coupons
      ensures ok <==> Redeemable(old(Money()), code, now)
      ensures Money() == Reserve(old(Money()), code, now)
      ensures ok ==> discount == Discount(old(coupons)[code], amount)
      ensures ok && amount >= 0 ==> TakesOff(old(coupons)[code], amount, discount)
    {
      if amount >= 0 && code in coupons {
        DiscountMeans(coupons[code], amount);
      }
      hide TakesOff;
      discount := 0;
      if code !in coupons || !coupons[code].active
        || (coupons[code].expires.Some? && coupons[code].expires.value <= now) {
        return false, 0;
      }
      var c := coupons[code];
      if c.fixed {
        discount := c.value;
      } else {
        discount := amount * c.value / 100;
      }
      if discount > amount {
        discount := amount;
      }
      if c.maxUses != 0 && c.uses >= c.maxUses {
        return false, 0;
      }
      coupons := coupons[code := c.(uses := c.uses + 1)];
      ok := true;
    }

    method CreateOrderWithCredits(id: OrderId, booking: Ref, amount: int, u: Wallet.UserId, useCredits: bool)
      returns (ok: bool)
      requires id !in orders
      modifies this`orders, this`credits
      ensures Money() == OrderWithCredits(old(Money()), id, booking, amount, u, useCredits)
      ensures ok <==> id in orders
    {
      var spent := 0;
      if useCredits {
        var balance := CreditBalance(u);
        if balance > 0 {
          spent := balance;
          if spent > amount {
            spent := amount;
          }
        }
      }
      if amount - spent < 0 {
        return false;
      }
      orders := orders[id := Order(booking, amount - spent, Created)];
      if spent > 0 {
        credits := credits + [Row(u, -spent, BookingSpend, Some(id))];
      } else {
        assert credits + [] == credits;
      }
      return true;
    }

    // Who spent on an order and how much: the GROUP BY of the reversal.
    method SpentOn(o: OrderId) returns (user: Wallet.UserId, spent: int)
      ensures user == Spender(credits, o) && spent == Spent(credits, o)
    {
      user, spent := 0, 0;
      for i := 0 to |credits|
        invariant user == Spender(credits[..i], o) && spent == Spent(credits[..i], o)
      {
        if credits[i].order == Some(o) {
          user := credits[i].user;
          if credits[i].reason.BookingSpend? {
            spent := spent - credits[i].amount;
          }
        }
        assert credits[..i + 1][..i] == credits[..i];
      }
      assert credits[..|credits|] == credits;
    }

    // cancelUnpaid
    method CancelUnpaid(open: set<OrderId>) returns (ids: seq<OrderId>)
      requires forall o :: o in open ==> o in orders && orders[o].status.Created?
      modifies this`orders, this`credits
      ensures Distinct(ids) && forall o :: o in ids <==> o in open
      ensures Money() == CancelOrders(old(Money()), ids)
    {
      ids := [];
      var left := open;
      while left != {}
        invariant left <= open && Distinct(ids) && forall o :: o in ids <==> o in open - left
      {
        var o :| o in left;
        assert o !in ids;
        ids, left := ids + [o], left - {o};
      }
      orders := CloseOrders(orders, ids);
      for i := 0 to |ids|
        invariant credits == Reversals(old(credits), ids[..i])
        invariant orders == CloseOrders(old(orders), ids)
      {
        var user, spent := SpentOn(ids[i]);
        if spent > 0 {
          credits := credits + [Row(user, spent, SpendReversed, Some(ids[i]))];
        } else {
          assert credits + [] == credits;
        }
        assert ids[..i + 1][..i] == ids[..i];
      }
      assert ids[..|ids|] == ids;
    }

    method CancelUnpaidForBooking(b: BookingId) returns (ids: seq<OrderId>)
      modifies this`orders, this`credits
      ensures OpenOrders(old(Books()), ids, b)
      ensures forall o :: o in ids <==>
          o in old(orders) && old(orders)[o].booking == b && old(orders)[o].status == Created
      ensures Money() == CancelOrders(old(Money()), ids)
    {
      var open := set o | o in orders && orders[o].booking == b && orders[o].status.Created?;
      assert forall o :: o in open <==> OpenOrder(Books(), o, b);
      ids := CancelUnpaid(open);
    }

    // ReleaseAbandonedOrders: open orders of bookings that no longer wait for payment
    method ReleaseAbandoned() returns (ids: seq<OrderId>)
      modifies this`orders, this`credits
      ensures Distinct(ids) && Money() == CancelOrders(old(Money()), ids)
      ensures forall o :: o in ids <==> Abandoned(old(Books()), seats.Rows(), o)
      ensures forall o :: o in ids <==>
          && o in old(orders) && old(orders)[o].status == Created && old(orders)[o].booking in seats.bookings
          && seats.bookings[old(orders)[o].booking].status != PaymentPending
    {
      var open := set o | o in orders && orders[o].status.Created?
                          && orders[o].booking in seats.bookings
                            && !seats.bookings[orders[o].booking].status.PaymentPending?;
      ids := CancelUnpaid(open);
    }

    method MarkOrderPaid(o: OrderId)
      modifies this`orders
      ensures Money() == MarkPaid(old(Money()), o)
    {
      if o in orders {
        orders := orders[o := orders[o].(status := Paid)];
      }
    }

    // CreateOrder of the service
    method CreateOrder(r: Request, id: OrderId, now: int, t: int, g: Gateway)
      returns (kind: CheckoutKind, ghost ids: seq<OrderId>)
      requires SeatRules.ForeignKeys(seats.Rows()) && WalletLaws.Inv(Money()) && id !in orders
      modifies this, seats
      ensures kind.NoSuchBooking? || kind.Forbidden? || kind.NotPayable? || OpenOrders(old(Books()), ids, r.booking)
      ensures kind == CheckoutKindOf(old(Office()), r, ids, id, now, g)
      ensures Office() == Checkout(old(Office()), r, ids, id, now, t, g)
      ensures kind.Covered? || kind.Unsent? || kind.Refused? || kind.Opened? ==>
        id in orders && Asks(old(Office()), r, ids, orders[id].amount)
    {
      hide SeatRules.ConfirmPaid, SeatRules.ForeignKeys, Placed, Redeemable, WalletLaws.Inv, Asks, BillFor;
      ids := [];
      if r.booking !in seats.bookings {
        return NoSuchBooking, ids;
      }
      var b := seats.bookings[r.booking];
      if b.user != r.caller {
        return Forbidden, ids;
      }
      var fee := Min(b.price / 20, MAX_FEE);
      if !b.status.PaymentPending? || b.price + fee <= 0 {
        return NotPayable, ids;
      }
      kind, ids := Place(r, id, b.price + fee, now);
      if kind.CouponInvalid? {
        return;
      }
      PlacedAsks(old(Office()), r, ids, id, now);
      if orders[id].amount <= 0 {
        MarkOrderPaid(id);
        var _ := seats.ConfirmPaid(r.booking, t);
        return Covered, ids;
      }
      match g {
        case NoGateway => return Unsent, ids;
        case Rejects =>
          var closed := CancelUnpaidForBooking(r.booking);
          SettlementLaws.PlacedOpenOrders(old(Office()), r, ids, id, now);
          JustOne(closed, id);
          return Refused, ids;
        case Accepts => return Opened, ids;
      }
    }

    // The writes of CreateOrder up to the new order.
    method Place(r: Request, id: OrderId, total: int, now: int) returns (kind: CheckoutKind, ghost ids: seq<OrderId>)
      requires WalletLaws.Inv(Money()) && id !in orders && total > 0
      requires r.booking in seats.bookings && Charge(Office(), r) == total
      modifies this
      ensures OpenOrders(old(Books()), ids, r.booking)
      ensures kind.CouponInvalid? <==> r.promo.Some? && !Redeemable(old(Money()), r.promo.value, now)
      ensures Money() == if kind.CouponInvalid? then CancelOrders(old(Money()), ids)
          else Placed(old(Office()), r, ids, id, now)
      ensures !kind.CouponInvalid? ==> id in orders
    {
      hide WalletLaws.TablesAgree, WalletLaws.BoostsOk, WalletLaws.ReferralsOk, WalletLaws.RowsOk, LedgerOk;
      hide Reversals, Balance, Discount, Distinct;
      kind := Opened;
      ids := CancelUnpaidForBooking(r.booking);
      WalletLaws.CancelOrdersKeeps(old(Money()), ids);
      SettlementLaws.DiscountFits(Money(), r.promo, total);
      var amount := total;
      if r.promo.Some? {
        var ok, discount := ReserveCoupon(r.promo.value, amount, now);
        if !ok {
          return CouponInvalid, ids;
        }
        amount := amount - discount;
      }
      var ok := CreateOrderWithCredits(id, r.booking, amount, r.caller, r.useCredits);
    }

    // ---- referrals and boosts ----

    // Apply of the referral repository
    method ApplyReferral(code: Code, referee: Wallet.UserId, signedUp: int, now: int) returns (kind: ReferKind)
      modifies this`referrals, this`credits
      ensures kind == ReferKindOf(old(Money()), code, referee, signedUp, now)
      ensures Money() == Refer(old(Money()), code, referee, signedUp, now)
    {
      if code !in codes {
        return CodeNotFound;
      }
      var referrer := codes[code];
      if referrer == referee {
        return SelfReferral;
      }
      if now - signedUp > SIGNUP_WINDOW {
        return WindowClosed;
      }
      var n, taken := 0, false;
      for i := 0 to |referrals|
        invariant n == ReferredBy(referrals[..i], referrer)
        invariant taken <==> exists r :: r in referrals[..i] && r.referee == referee
      {
        if referrals[i].referrer == referrer {
          n := n + 1;
        }
        assert referrals[..i + 1] == referrals[..i] + [referrals[i]];
        assert referrals[i] in referrals[..i + 1];
        taken := taken || referrals[i].referee == referee;
      }
      assert referrals[..|referrals|] == referrals;
      if n >= REFERRAL_CAP {
        return CapReached;
      }
      if taken {
        return AlreadyReferred;
      }
      referrals := referrals + [Referral(referrer, referee)];
      credits := credits + RewardRows(referrer, referee);
      return Rewarded;
    }

    // boostStatus
    method BoostStatus(u: Wallet.UserId, now: int) returns (active: bool, free: bool, balance: int)
      ensures active <==> BoostActive(boosts, u, now)
      ensures free <==> FreeAvailable(boosts, u, now)
      ensures balance == Balance(credits, u)
    {
      active, free := false, true;
      for i := 0 to |boosts|
        invariant active <==> exists b :: b in boosts[..i] && b.user == u && b.ends > now
        invariant free <==> forall b :: b in boosts[..i] && b.user == u && b.cost == 0 ==>
            now - b.starts >= BOOST_FREE_EVERY
      {
        var b := boosts[i];
        assert boosts[..i + 1] == boosts[..i] + [b];
        assert b in boosts[..i + 1];
        active := active || (b.user == u && b.ends > now);
        free := free && !(b.user == u && b.cost == 0 && now - b.starts < BOOST_FREE_EVERY);
      }
      assert boosts[..|boosts|] == boosts;
      balance := CreditBalance(u);
    }

    method ActivateBoost(u: Wallet.UserId, now: int) returns (kind: BoostKind)
      modifies this`boosts, this`credits
      ensures kind == BoostKindOf(old(Money()), u, now)
      ensures Money() == Activate(old(Money()), u, now)
    {
      var active, free, balance := BoostStatus(u, now);
      if active {
        return AlreadyBoosted;
      }
      var cost := 0;
      if !free {
        if balance < BOOST_COST {
          return Insufficient;
        }
        cost := BOOST_COST;
        credits := credits + [Row(u, -cost, BoostSpend, None)];
      }
      boosts := boosts + [Wallet.Boost(u, now, now + BOOST_LENGTH, cost)];
      return if cost == 0 then FreeBoost else PaidBoost;
    }
  }
}
