// What a caller finds in the money tables afterwards: which rows every call writes, in the tables' own words, and
// the amounts of money in rupees and paise rather than by formula.
module MoneyOutcomes {
  import opened Arithmetic
  import opened Finite
  import opened SeatTables
  import opened SeatRules
  import opened SeatOutcomes
  import opened PaymentLedger
  import RefundLaws
  import opened Wallet
  import WalletLaws
  import opened Settlement
  import SettlementLaws

  // ---- captures ----

  // A new payment of a known order: one payment row, later than all others, the order paid, one entry.
  ghost predicate Recorded(l: Ledger, l': Ledger, c: Call) {
    && c.order in l.orders
    && c.ref in l'.payments && l'.payments[c.ref].order == c.order && l'.payments[c.ref].amount == c.amount
    && (forall p :: p in l.payments ==> l.payments[p].created < l'.payments[c.ref].created)
    && OthersStay(l.payments, l'.payments, c.ref)
    && c.order in l'.orders && l'.orders[c.order] == l.orders[c.order].(status := Paid)
    && OthersStay(l.orders, l'.orders, c.order)
    && l'.refunds == l.refunds && l'.recon == l.recon + [PaymentEntry(c.ref, c.amount)]
  }

  lemma CaptureOutcome(l: Ledger, c: Call)
    requires CreatedInOrder(l)
    ensures var kind, l' := CaptureKindOf(l, c), Capture(l, c);
      if c.order !in l.orders then kind.OrderNotFound? && l' == l
      else if c.amount <= 0 then kind.BadAmount? && l' == l
      else if c.ref in l.payments then kind.Replayed? && l' == l
      else kind.Captured? && Recorded(l, l', c)
  { }

  // A capture confirms the booking of its order; when the seat is gone it sends the payment back instead.
  lemma ReceiveOutcome(d: Desk, call: Call, t: int, g: Gateway)
    requires ForeignKeys(d.db) && LedgerOk(d.till.ledger)
    ensures var l, d' := d.till.ledger, Receive(d, call, t, g);
      if call.order !in l.orders || call.amount <= 0 then d' == d
      else
        var b, l1 := l.orders[call.order].booking, Capture(l, call);
        if SeatGone(d.db, b, t) then
          && d'.db == d.db && d' == d.(till := d.till.(ledger := d'.till.ledger)) && call.ref in l1.payments
          && (if g == NoGateway then d'.till.ledger == l1
              else d'.till.ledger == DoRefund(l1, call.ref, l1.payments[call.ref].amount, g == Accepts))
        else d'.db == ConfirmPaid(d.db, b, t) && d'.till == d.till.(ledger := l1)
  {
    ConfirmAnswers(d.db, if call.order in d.till.ledger.orders then d.till.ledger.orders[call.order].booking else 0, t);
    hide ActiveHolds, ConfirmPaid, ConfirmKindOf, RoomFor, DoRefund, LedgerOk;
  }

  ghost predicate SeatGone(db: Db, b: BookingId, t: int)
    requires ForeignKeys(db)
  {
    && b in db.bookings && (db.bookings[b].status == PaymentPending || db.bookings[b].status == Cancelled)
    && (db.plans[db.bookings[b].plan].status != Published || !RoomFor(db, db.bookings[b].plan, t, db.bookings[b].user))
  }

  // ---- refunds ----

  // Attempts that did not fail count, settled or not.
  lemma RefundedMeans(refunds: seq<Refund>, r: Refund, p: GatewayRef)
    ensures RefundedTotal([], p) == 0
    ensures RefundedTotal(refunds + [r], p) ==
        RefundedTotal(refunds, p) + if r.payment == p && r.status != Failed then r.amount else 0
  {
    RefundLaws.RefundedAppend(refunds, r, p);
  }

  lemma BeginOutcome(l: Ledger, p: GatewayRef, amount: int)
    ensures var kind, l' := BeginKindOf(l, p, amount), Begin(l, p, amount);
      if p !in l.payments then kind.PaymentNotFound? && l' == l
      else if 0 < amount <= l.payments[p].amount - RefundedTotal(l.refunds, p) then
        kind.Begun? && l' == l.(refunds := l.refunds + [Refund(p, amount, Pending)])
      else kind.NotRefundable? && l' == l
  { }

  // The gateway's answer decides how the attempt ends; only a settled one has an entry.
  lemma RefundOutcome(l: Ledger, p: GatewayRef, amount: int, accepted: bool)
    ensures var l' := DoRefund(l, p, amount, accepted);
      if p in l.payments && 0 < amount <= l.payments[p].amount - RefundedTotal(l.refunds, p) then
        && l'.orders == l.orders && l'.payments == l.payments
        && l'.refunds == l.refunds + [Refund(p, amount, if accepted then Processed else Failed)]
        && l'.recon == l.recon + if accepted then [RefundEntry(|l.refunds|, amount)] else []
      else l' == l
  {
    hide RefundedTotal;
  }

  // A refund notice about attempt `id` writes its status and nothing else.
  lemma NoticeOutcome(l: Ledger, id: nat, word: RefundLaws.Word)
    ensures var l' := RefundLaws.Record(l, id, word);
      && l' == l.(refunds := l'.refunds) && |l'.refunds| == |l.refunds|
      && forall i :: 0 <= i < |l.refunds| ==>
           l'.refunds[i] ==
             if i != id || word == RefundLaws.SaidOther then l.refunds[i]
             else l.refunds[i].(status := if word == RefundLaws.SaidSuccess then Processed else Failed)
  { }

  // The payment a refund goes to: of all payments of the booking's orders, the one recorded last - so always the one
  // captured last.
  lemma LatestMeans(l: Ledger, b: Ref, p: GatewayRef)
    ensures Latest(l, b, p) <==>
      && p in l.payments && l.payments[p].order in l.orders && l.orders[l.payments[p].order].booking == b
      && forall q :: q in l.payments && l.payments[q].order in l.orders && l.orders[l.payments[q].order].booking == b
           ==> l.payments[q].created <= l.payments[p].created
  { }

  lemma NewestIsLatest(l: Ledger, c: Call)
    requires CreatedInOrder(l) && CaptureKindOf(l, c).Captured?
    ensures Latest(Capture(l, c), l.orders[c.order].booking, c.ref)
  { }

  // A percentage of a payment, rounded down; more than everything is everything, less than nothing is nothing.
  lemma TargetMeans(paid: int, percent: int)
    requires paid >= 0
    ensures percent <= 0 ==> Target(paid, percent) == 0
    ensures 0 < percent < 100 ==> 100 * Target(paid, percent) <= paid * percent < 100 * (Target(paid, percent) + 1)
    ensures percent >= 100 ==> Target(paid, percent) == paid
  { }

  // The booking's latest payment is topped up to the percentage; nothing else is ever paid back.
  lemma BookingRefundOutcome(l: Ledger, b: Ref, p: GatewayRef, percent: int, accepted: bool)
    requires LedgerOk(l) && RefundsBounded(l) && Latest(l, b, p)
    ensures var l' := RefundLaws.RefundBooking(l, b, percent, accepted);
      var missing := Target(l.payments[p].amount, percent) - RefundedTotal(l.refunds, p);
      if percent > 0 && missing > 0 then l' == DoRefund(l, p, missing, accepted) && BeginKindOf(l, p, missing).Begun?
      else l' == l
  {
    RefundLaws.OneLatest(l, b, p, percent, accepted);
    RefundLaws.TargetWithin(l.payments[p].amount, percent);
    hide Target, RefundedTotal, DoRefund, RefundLaws.RefundBooking;
  }

  // A guest who cancels a day ahead, and everybody whose host cancels, gets the whole captured payment back; a guest
  // who cancels later gets nothing.
  lemma CancellationReturns(l: Ledger, b: Ref, p: GatewayRef, startsAt: int, wall: int, byHost: bool)
    requires LedgerOk(l) && RefundsBounded(l) && Latest(l, b, p)
    ensures var l' := RefundLaws.RefundBooking(l, b, RefundPercent(startsAt, wall, byHost), true);
      if byHost || wall + 24 * 3600 <= startsAt then
        && RefundedTotal(l'.refunds, p) == l.payments[p].amount
        && forall q :: q != p ==> RefundedTotal(l'.refunds, q) == RefundedTotal(l.refunds, q)
      else l' == l
  {
    var percent := RefundPercent(startsAt, wall, byHost);
    RefundShares(startsAt, wall, byHost);
    TargetMeans(l.payments[p].amount, percent);
    RefundLaws.OneLatest(l, b, p, percent, true);
    RefundLaws.TopUpTotals(l, p, percent, true);
    hide Target, RefundedTotal, TopUp, RefundLaws.RefundBooking, LedgerOk, Latest;
  }

  // ---- coupons ----

  // A fixed coupon takes off its value, a percentage its share rounded down, neither more than there is to pay.
  ghost predicate TakesOff(c: Coupon, amount: int, discount: int) {
    if c.fixed then
      discount == if c.value <= amount then c.value else amount
    else if c.value <= 100 then
      100 * discount <= amount * c.value < 100 * (discount + 1)
    else discount == amount
  }

  lemma DiscountMeans(c: Coupon, amount: int)
    requires amount >= 0
    ensures forall discount :: TakesOff(c, amount, discount) <==> discount == Discount(c, amount)
  {
    if !c.fixed {
      var product := amount * c.value;
      RoundedDown(product);
      assert product - 100 * amount == amount * (c.value - 100);
      if c.value <= 100 {
        NotPositive(amount, c.value - 100);
      } else {
        NotPositive(amount, 100 - c.value);
        assert amount * (100 - c.value) == 100 * amount - product;
      }
    }
  }

  lemma RoundedDown(n: int)
    ensures forall s :: 100 * s <= n < 100 * (s + 1) <==> s == n / 100
  { }

  lemma NotPositive(a: int, b: int)
    requires a >= 0 >= b
    ensures a * b <= 0
  { }

  // A coupon can be used when it exists, is switched on, has not run out of time and has not run out of uses
  // (none is no limit).
  ghost predicate Usable(w: Till, code: Code, now: int) {
    && code in w.coupons
    && (var c := w.coupons[code];
        c.active && (c.expires == None || now < c.expires.value) && (c.maxUses != 0 ==> c.uses < c.maxUses))
  }

  lemma ReserveOutcome(w: Till, code: Code, now: int)
    ensures Redeemable(w, code, now) <==> Usable(w, code, now)
    ensures var w' := Reserve(w, code, now);
      && w' == w.(coupons := w'.coupons) && w'.coupons.Keys == w.coupons.Keys
      && forall c :: c in w.coupons ==>
           var row := w.coupons[c];
           w'.coupons[c] == if c == code && Usable(w, code, now) then row.(uses := row.uses + 1) else row
  { }

  lemma AddCouponOutcome(w: Till, code: Code, fixed: bool, value: int, maxUses: int, expires: Option<int>)
    ensures var w' := AddCoupon(w, code, fixed, value, maxUses, expires);
      if code !in w.coupons && value > 0
      then w' == w.(coupons := w.coupons[code := Coupon(fixed, value, maxUses, 0, true, expires)])
      else w' == w
  { }

  // ---- sums over the ledger ----

  // A balance adds up a user's rows, the net effect of an order its rows, and its spend what checkout took.
  lemma SumsMean(rows: seq<Row>, r: Row, u: Wallet.UserId, o: OrderId)
    ensures Balance([], u) == Net([], o) == Spent([], o) == 0
    ensures Balance(rows + [r], u) == Balance(rows, u) + if r.user == u then r.amount else 0
    ensures Net(rows + [r], o) == Net(rows, o) + if r.order == Some(o) then r.amount else 0
    ensures Spent(rows + [r], o) ==
        Spent(rows, o) - if r.order == Some(o) && r.reason == BookingSpend then r.amount else 0
  {
    WalletLaws.Append(rows, r);
  }

  // ---- orders ----

  // Credits pay as much as they can when asked to, and never go below nothing.
  ghost predicate CreditsPay(balance: int, useCredits: bool, amount: int, spent: int) {
    if !useCredits || balance <= 0 then spent == 0 else spent == if balance <= amount then balance else amount
  }

  lemma OrderOutcome(w: Till, id: OrderId, booking: Ref, amount: int, u: Wallet.UserId, useCredits: bool)
    requires amount >= 0
    ensures var w', spent := OrderWithCredits(w, id, booking, amount, u, useCredits),
        SpendOf(w.rows, u, amount, useCredits);
      && CreditsPay(Balance(w.rows, u), useCredits, amount, spent)
      && w' == w.(ledger := w.ledger.(orders := w.ledger.orders[id := Order(booking, amount - spent, Created)]),
                  rows := w.rows + if spent > 0 then [Row(u, -spent, BookingSpend, Some(id))] else [])
  {
    hide Balance;
  }

  // Cancelled orders are closed and each gives back what was spent on it, to whoever spent it.
  lemma CancelOrdersOutcome(w: Till, ids: seq<OrderId>)
    ensures var w' := CancelOrders(w, ids);
      && w' == w.(ledger := w.ledger.(orders := w'.ledger.orders), rows := w'.rows)
      && w'.ledger.orders.Keys == w.ledger.orders.Keys
      && forall o :: o in w.ledger.orders ==>
           w'.ledger.orders[o] == if o in ids then w.ledger.orders[o].(status := Closed) else w.ledger.orders[o]
  { }

  // Row i gives back what an earlier row of the same order and user spent.
  ghost predicate GivesBack(rows: seq<Row>, i: nat, ids: seq<OrderId>)
    requires i < |rows|
  {
    && rows[i].reason == SpendReversed && rows[i].order.Some? && rows[i].order.value in ids && rows[i].amount > 0
    && exists j :: 0 <= j < i && rows[j].order == rows[i].order && rows[j].user == rows[i].user
                   && rows[j].reason == BookingSpend
  }

  lemma ReversalOutcome(rows: seq<Row>, o: OrderId)
    requires WalletLaws.OneUserPerOrder(rows)
    ensures var rows' := rows + Reversal(rows, o);
      WalletLaws.OneUserPerOrder(rows') && forall i: nat :: |rows| <= i < |rows'| ==> GivesBack(rows', i, [o])
  {
    hide Spent, Spender;
    if Spent(rows, o) > 0 {
      var j := SpentBySomeone(rows, o);
      WalletLaws.SpenderIsTheUser(rows, o, j);
      var rows' := rows + Reversal(rows, o);
      assert rows'[j] == rows[j] && rows'[|rows|] == Reversal(rows, o)[0];
      assert GivesBack(rows', |rows|, [o]);
    }
  }

  lemma {:induction false} ReversalsOutcome(rows: seq<Row>, ids: seq<OrderId>)
    requires WalletLaws.OneUserPerOrder(rows)
    ensures var rows' := Reversals(rows, ids);
      && rows <= rows' && WalletLaws.OneUserPerOrder(rows')
      && forall i: nat :: |rows| <= i < |rows'| ==> GivesBack(rows', i, ids)
  {
    hide Reversal, WalletLaws.OneUserPerOrder, GivesBack;
    if ids != [] {
      var front, o := ids[..|ids| - 1], ids[|ids| - 1];
      ReversalsOutcome(rows, front);
      var before := Reversals(rows, front);
      ReversalOutcome(before, o);
      var after := before + Reversal(before, o);
      forall i: nat | |rows| <= i < |after| ensures GivesBack(after, i, ids) {
        if i < |before| {
          StillGivesBack(before, after, i, front, ids);
        } else {
          StillGivesBack(after, after, i, [o], ids);
        }
      }
    }
  }

  lemma StillGivesBack(rows: seq<Row>, longer: seq<Row>, i: nat, some: seq<OrderId>, ids: seq<OrderId>)
    requires rows <= longer && i < |rows| && GivesBack(rows, i, some) && forall o :: o in some ==> o in ids
    ensures GivesBack(longer, i, ids)
  {
    var j: nat :| j < i && rows[j].order == rows[i].order && rows[j].user == rows[i].user
      && rows[j].reason == BookingSpend;
    assert longer[j] == rows[j] && longer[i] == rows[i];
  }

  lemma {:induction false} SpentBySomeone(rows: seq<Row>, o: OrderId) returns (j: nat)
    requires Spent(rows, o) != 0
    ensures j < |rows| && rows[j].order == Some(o) && rows[j].reason == BookingSpend
  {
    var front := rows[..|rows| - 1];
    j := |rows| - 1;
    assert rows == front + [rows[j]];
    WalletLaws.Append(front, rows[j]);
    if !(rows[j].order == Some(o) && rows[j].reason == BookingSpend) {
      j := SpentBySomeone(front, o);
    }
  }

  lemma MarkPaidOutcome(w: Till, id: OrderId)
    ensures var w' := MarkPaid(w, id);
      && w' == w.(ledger := w.ledger.(orders := w'.ledger.orders)) && w'.ledger.orders.Keys == w.ledger.orders.Keys
      && forall o :: o in w.ledger.orders ==>
           w'.ledger.orders[o] == if o == id then w.ledger.orders[o].(status := Paid) else w.ledger.orders[o]
  { }

  // ---- checkout ----

  // The platform takes one part in twenty, rounded down, and 49 rupees at most.
  ghost predicate FeeFor(price: int, fee: int) {
    if price >= 98000 then fee == 4900 else 20 * fee <= price < 20 * (fee + 1)
  }

  lemma FeeMeans(price: int)
    ensures forall fee :: FeeFor(price, fee) <==> fee == Fee(price)
  { }

  datatype Bill = Bill(fee: int, discount: int, credits: int, due: int)

  // What checkout asks a booking's owner to pay: the price and the fee, less the coupon, less the credits - counted
  // after the booking's earlier orders gave theirs back.
  ghost predicate BillFor(d: Desk, r: Request, ids: seq<OrderId>, bill: Bill)
    requires r.booking in d.db.bookings
  {
    var price := d.db.bookings[r.booking].price;
    && FeeFor(price, bill.fee)
    && (if r.promo.None? then bill.discount == 0
        else r.promo.value in d.till.coupons
             && TakesOff(d.till.coupons[r.promo.value], price + bill.fee, bill.discount))
    && CreditsPay(Balance(Reversals(d.till.rows, ids), r.caller), r.useCredits, price + bill.fee - bill.discount,
                  bill.credits)
    && bill.due == price + bill.fee - bill.discount - bill.credits
  }

  ghost predicate Asks(d: Desk, r: Request, ids: seq<OrderId>, due: int) {
    r.booking in d.db.bookings && exists bill :: BillFor(d, r, ids, bill) && bill.due == due
  }

  // A checkout past its checks writes exactly one order, for the amount of the bill.
  lemma PlacedOutcome(d: Desk, r: Request, ids: seq<OrderId>, id: OrderId, now: int) returns (bill: Bill)
    requires WalletLaws.Inv(d.till) && OpenOrders(d.till.ledger, ids, r.booking) && id !in d.till.ledger.orders
    requires r.booking in d.db.bookings && Charge(d, r) > 0
    requires r.promo.Some? ==> Redeemable(d.till, r.promo.value, now)
    ensures BillFor(d, r, ids, bill) && bill.due >= 0
    ensures var w := Placed(d, r, ids, id, now);
      && id in w.ledger.orders && w.ledger.orders[id] == Order(r.booking, bill.due, Created)
      && w.rows == Reversals(d.till.rows, ids)
        + (if bill.credits > 0 then [Row(r.caller, -bill.credits, BookingSpend, Some(id))] else [])
      && w.ledger.orders.Keys == d.till.ledger.orders.Keys + {id}
      && (forall o :: o in d.till.ledger.orders ==>
            w.ledger.orders[o] ==
              var was := d.till.ledger.orders[o];
              if was.booking == r.booking && was.status == Created then was.(status := Closed) else was)
      && w == d.till.(ledger := d.till.ledger.(orders := w.ledger.orders), rows := w.rows, coupons := w.coupons)
      && w.coupons == if r.promo.Some? then Reserve(d.till, r.promo.value, now).coupons else d.till.coupons
  {
    hide Balance, Reversals, Fee, Discount, WalletLaws.ReferralsOk, WalletLaws.BoostsOk, WalletLaws.TablesAgree;
    hide LedgerOk, WalletLaws.RowsOk, SpendOf, TakesOff, CreditsPay, FeeFor;
    var price, total := d.db.bookings[r.booking].price, Charge(d, r);
    FeeMeans(price);
    var w1 := CancelOrders(d.till, ids);
    var w2 := if r.promo.Some? then Reserve(w1, r.promo.value, now) else w1;
    var discount := DiscountOf(w1, r.promo, total);
    WalletLaws.CancelOrdersKeeps(d.till, ids);
    SettlementLaws.DiscountFits(w1, r.promo, total);
    if r.promo.Some? {
      DiscountMeans(w1.coupons[r.promo.value], total);
    }
    OrderOutcome(w2, id, r.booking, total - discount, r.caller, r.useCredits);
    var credits := SpendOf(w2.rows, r.caller, total - discount, r.useCredits);
    bill := Bill(Fee(price), discount, credits, total - discount - credits);
    CreditsFit(Balance(w2.rows, r.caller), r.useCredits, total - discount, credits);
  }

  lemma PlacedAsks(d: Desk, r: Request, ids: seq<OrderId>, id: OrderId, now: int)
    requires WalletLaws.Inv(d.till) && OpenOrders(d.till.ledger, ids, r.booking) && id !in d.till.ledger.orders
    requires r.booking in d.db.bookings && Charge(d, r) > 0
    requires r.promo.Some? ==> Redeemable(d.till, r.promo.value, now)
    ensures var l := Placed(d, r, ids, id, now).ledger;
      id in l.orders && Asks(d, r, ids, l.orders[id].amount)
  {
    hide WalletLaws.Inv, OpenOrders, Placed, BillFor;
    var bill := PlacedOutcome(d, r, ids, id, now);
  }

  lemma CreditsFit(balance: int, useCredits: bool, amount: int, spent: int)
    requires CreditsPay(balance, useCredits, amount, spent) && amount >= 0
    ensures 0 <= spent <= amount
  { }

  ghost function Answer(bill: Bill, g: Gateway): CheckoutKind {
    if bill.due == 0 then Covered else if g == NoGateway then Unsent else if g == Rejects then Refused else Opened
  }

  // Who may check out, and what becomes of it.
  lemma CheckoutAnswers(d: Desk, r: Request, ids: seq<OrderId>, id: OrderId, now: int, g: Gateway)
    requires WalletLaws.Inv(d.till) && OpenOrders(d.till.ledger, ids, r.booking) && id !in d.till.ledger.orders
    ensures var kind := CheckoutKindOf(d, r, ids, id, now, g);
      if r.booking !in d.db.bookings then kind.NoSuchBooking?
      else if d.db.bookings[r.booking].user != r.caller then kind.Forbidden?
      else if d.db.bookings[r.booking].status != PaymentPending || d.db.bookings[r.booking].price <= 0
      then kind.NotPayable?
      else if r.promo.Some? && !Usable(d.till, r.promo.value, now) then kind.CouponInvalid?
      else exists bill :: BillFor(d, r, ids, bill) && kind == Answer(bill, g)
  {
    hide Placed, BillFor, WalletLaws.Inv, OpenOrders, Redeemable, Usable;
    if r.promo.Some? {
      ReserveOutcome(d.till, r.promo.value, now);
    }
    if (&& r.booking in d.db.bookings && Charge(d, r) > 0
        && (r.promo.Some? ==> Redeemable(d.till, r.promo.value, now)))
    {
      var bill := PlacedOutcome(d, r, ids, id, now);
    }
  }

  // What each of those ends leaves: a refusal closes the order again, a covered order is paid and the seat asked for.
  lemma CheckoutOutcome(d: Desk, r: Request, ids: seq<OrderId>, id: OrderId, now: int, t: int, g: Gateway)
    requires ForeignKeys(d.db)
    ensures var kind, d' := CheckoutKindOf(d, r, ids, id, now, g), Checkout(d, r, ids, id, now, t, g);
      if kind.NoSuchBooking? || kind.Forbidden? || kind.NotPayable? then d' == d
      else if kind.CouponInvalid? then d' == d.(till := CancelOrders(d.till, ids))
      else
        var placed := Placed(d, r, ids, id, now);
        && (kind.Covered? ==> d' == Desk(ConfirmPaid(d.db, r.booking, t), MarkPaid(placed, id)))
        && (!kind.Covered? ==> d' == d.(till := if g == Rejects then CancelOrders(placed, [id]) else placed))
  {
    hide Placed, CancelOrders, ConfirmPaid, MarkPaid, Redeemable;
  }

  // ---- grants, referrals, boosts ----

  lemma GrantOutcome(w: Till, u: Wallet.UserId, amount: int)
    ensures GrantCredit(w, u, amount) == if amount > 0 then w.(rows := w.rows + [Row(u, amount, Grant, None)]) else w
  { }

  // A user keeps the first code, and a code belongs to one user.
  lemma ShareOutcome(w: Till, u: Wallet.UserId, code: Code)
    ensures var w' := ShareCode(w, u, code);
      if code !in w.codes && forall c :: c in w.codes ==> w.codes[c] != u then w' == w.(codes := w.codes[code := u])
      else w' == w
  { }

  lemma {:induction false} ReferredByCounts(referrals: seq<Referral>, u: Wallet.UserId)
    ensures ReferredBy(referrals, u) == |set i | 0 <= i < |referrals| && referrals[i].referrer == u|
  {
    if referrals != [] {
      var last := |referrals| - 1;
      var front := referrals[..last];
      ReferredByCounts(front, u);
      var before := set i | 0 <= i < |front| && front[i].referrer == u;
      assert (set i | 0 <= i < |referrals| && referrals[i].referrer == u) ==
             before + if referrals[last].referrer == u then {last} else {};
    }
  }

  // The first week after signing up, twenty people per referrer, once per person; a hundred rupees for each side.
  lemma ReferOutcome(w: Till, code: Code, referee: Wallet.UserId, signedUp: int, now: int)
    ensures var kind, w' := ReferKindOf(w, code, referee, signedUp, now), Refer(w, code, referee, signedUp, now);
      if code !in w.codes then kind.CodeNotFound? && w' == w
      else
        var from := w.codes[code];
        if from == referee then kind.SelfReferral? && w' == w
        else if now > signedUp + 604800 then kind.WindowClosed? && w' == w
        else if |set i | 0 <= i < |w.referrals| && w.referrals[i].referrer == from| >= 20
        then kind.CapReached? && w' == w
        else if exists i :: 0 <= i < |w.referrals| && w.referrals[i].referee == referee
        then kind.AlreadyReferred? && w' == w
        else
          && kind.Rewarded?
          && w' == w.(referrals := w.referrals + [Referral(from, referee)],
                      rows := w.rows + [Row(from, 10000, Referrer, None), Row(referee, 10000, Referee, None)])
  {
    if code in w.codes {
      ReferredByCounts(w.referrals, w.codes[code]);
    }
  }

  // Half an hour for 19 rupees, or for nothing once a week has passed since the last free one began.
  lemma BoostOutcome(w: Till, u: Wallet.UserId, now: int)
    ensures var kind, w' := BoostKindOf(w, u, now), Activate(w, u, now);
      if exists i :: 0 <= i < |w.boosts| && w.boosts[i].user == u && now < w.boosts[i].ends then
        kind.AlreadyBoosted? && w' == w
      else if !exists i :: 0 <= i < |w.boosts| && w.boosts[i].user == u && w.boosts[i].cost == 0
                           && now < w.boosts[i].starts + 604800 then
        kind.FreeBoost? && w' == w.(boosts := w.boosts + [Boost(u, now, now + 1800, 0)])
      else if Balance(w.rows, u) >= 1900 then
        && kind.PaidBoost?
        && w' == w.(boosts := w.boosts + [Boost(u, now, now + 1800, 1900)],
                    rows := w.rows + [Row(u, -1900, BoostSpend, None)])
      else kind.Insufficient? && w' == w
  {
    hide Balance;
  }
}
