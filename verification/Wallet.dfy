// The append-only credit ledger and everybody who writes it: grants, referral rewards, profile boosts, checkout
// spends and their reversals. Orders live in the payment ledger, which the same transactions touch.
module Wallet {
  import opened Arithmetic
  import opened Finite
  import opened PaymentLedger
  import RefundLaws

  type UserId = nat
  type Code = nat

  const REFERRAL_REWARD: int := 10000
  const REFERRAL_CAP: nat := 20
  const BOOST_COST: int := 1900
  const BOOST_LENGTH: int := 30 * 60
  const BOOST_FREE_EVERY: int := 7 * 24 * 60 * 60
  const SIGNUP_WINDOW: int := 7 * 24 * 60 * 60

  datatype Reason = Grant | Referrer | Referee | BoostSpend | BookingSpend | SpendReversed
  datatype Row = Row(user: UserId, amount: int, reason: Reason, order: Option<OrderId>)
  datatype Boost = Boost(user: UserId, starts: int, ends: int, cost: int)
  datatype Referral = Referral(referrer: UserId, referee: UserId)
  datatype Coupon = Coupon(fixed: bool, value: int, maxUses: int, uses: nat, active: bool, expires: Option<int>)

  datatype Till = Till(
    ledger: Ledger,
    rows: seq<Row>,
    boosts: seq<Boost>,
    referrals: seq<Referral>,
    coupons: map<Code, Coupon>,
    codes: map<Code, UserId>) // referral codes and whose they are

  // ---- SELECT COALESCE(SUM(amount_minor), 0) FROM credit_ledger WHERE ... ----

  function SumIf(rows: seq<Row>, keep: Row -> bool): int {
    if rows == [] then 0
    else
      var r := rows[|rows| - 1];
      SumIf(rows[..|rows| - 1], keep) + if keep(r) then r.amount else 0
  }

  function Balance(rows: seq<Row>, u: UserId): int {
    SumIf(rows, (r: Row) => r.user == u)
  }

  // What an order has done to the ledger so far.
  function Net(rows: seq<Row>, o: OrderId): int {
    SumIf(rows, (r: Row) => r.order == Some(o))
  }

  function Spent(rows: seq<Row>, o: OrderId): int {
    -SumIf(rows, (r: Row) => r.order == Some(o) && r.reason.BookingSpend?)
  }

  // ---- checkout ----

  // The credits CreateOrderWithCredits takes from an amount.
  function SpendOf(rows: seq<Row>, u: UserId, amount: int, useCredits: bool): int {
    if useCredits && Balance(rows, u) > 0 then Min(Balance(rows, u), amount) else 0
  }

  function OrderWithCredits(w: Till, id: OrderId, booking: Ref, amount: int, u: UserId, useCredits: bool): Till {
    var spent := SpendOf(w.rows, u, amount, useCredits);
    if amount - spent < 0 then w // CHECK (amount_minor >= 0)
    else
      w.(ledger := w.ledger.(orders := w.ledger.orders[id := Order(booking, amount - spent, Created)]),
         rows := w.rows + if spent > 0 then [Row(u, -spent, BookingSpend, Some(id))] else [])
  }

  // The user of an order's ledger rows (there is one: see Inv).
  function Spender(rows: seq<Row>, o: OrderId): UserId {
    if rows == [] then 0
    else if rows[|rows| - 1].order == Some(o) then rows[|rows| - 1].user
    else Spender(rows[..|rows| - 1], o)
  }

  // INSERT ... SELECT user_id, -sum(amount_minor) ... GROUP BY user_id HAVING sum(amount_minor) < 0
  function Reversal(rows: seq<Row>, o: OrderId): seq<Row> {
    if Spent(rows, o) > 0 then [Row(Spender(rows, o), Spent(rows, o), SpendReversed, Some(o))] else []
  }

  function Reversals(rows: seq<Row>, ids: seq<OrderId>): seq<Row> {
    if ids == [] then rows
    else
      var before := Reversals(rows, ids[..|ids| - 1]);
      before + Reversal(before, ids[|ids| - 1])
  }

  function CloseOrders(orders: map<OrderId, Order>, ids: seq<OrderId>): map<OrderId, Order> {
    map o | o in orders :: if o in ids then orders[o].(status := Closed) else orders[o]
  }

  // cancelUnpaid, given the orders its UPDATE returned.
  function CancelOrders(w: Till, ids: seq<OrderId>): Till {
    w.(ledger := w.ledger.(orders := CloseOrders(w.ledger.orders, ids)), rows := Reversals(w.rows, ids))
  }

  function MarkPaid(w: Till, o: OrderId): Till {
    if o in w.ledger.orders
    then w.(ledger := w.ledger.(orders := w.ledger.orders[o := w.ledger.orders[o].(status := Paid)]))
    else w
  }

  // ---- coupons ----

  function Discount(c: Coupon, amount: int): int {
    Min(if c.fixed then c.value else amount * c.value / 100, amount)
  }

  // CreateCoupon: admins may not create a worthless one; code is UNIQUE.
  function AddCoupon(w: Till, code: Code, fixed: bool, value: int, maxUses: int, expires: Option<int>): Till {
    if value <= 0 || code in w.coupons then w
    else w.(coupons := w.coupons[code := Coupon(fixed, value, maxUses, 0, true, expires)])
  }

  predicate Redeemable(w: Till, code: Code, now: int) {
    && code in w.coupons && w.coupons[code].active
    && (w.coupons[code].expires.None? || now < w.coupons[code].expires.value)
    && (w.coupons[code].maxUses == 0 || w.coupons[code].uses < w.coupons[code].maxUses)
  }

  function Reserve(w: Till, code: Code, now: int): Till {
    if Redeemable(w, code, now)
    then w.(coupons := w.coupons[code := w.coupons[code].(uses := w.coupons[code].uses + 1)])
    else w
  }

  // ---- grants, referrals, boosts ----

  function GrantCredit(w: Till, u: UserId, amount: int): Till {
    if amount <= 0 then w else w.(rows := w.rows + [Row(u, amount, Grant, None)])
  }

  function ReferredBy(referrals: seq<Referral>, u: UserId): nat {
    if referrals == [] then 0
    else ReferredBy(referrals[..|referrals| - 1], u) + if referrals[|referrals| - 1].referrer == u then 1 else 0
  }

  datatype ReferKind = CodeNotFound | SelfReferral | WindowClosed | CapReached | AlreadyReferred | Rewarded

  function ReferKindOf(w: Till, code: Code, referee: UserId, signedUp: int, now: int): ReferKind {
    if code !in w.codes then CodeNotFound
    else if w.codes[code] == referee then SelfReferral
    else if now - signedUp > SIGNUP_WINDOW then WindowClosed
    else if ReferredBy(w.referrals, w.codes[code]) >= REFERRAL_CAP then CapReached
    else if exists r :: r in w.referrals && r.referee == referee then AlreadyReferred
    else Rewarded
  }

  function Refer(w: Till, code: Code, referee: UserId, signedUp: int, now: int): Till {
    if ReferKindOf(w, code, referee, signedUp, now).Rewarded? then
      w.(referrals := w.referrals + [Referral(w.codes[code], referee)],
         rows := w.rows + RewardRows(w.codes[code], referee))
    else w
  }

  function RewardRows(referrer: UserId, referee: UserId): seq<Row> {
    [Row(referrer, REFERRAL_REWARD, Referrer, None), Row(referee, REFERRAL_REWARD, Referee, None)]
  }

  // One try of GetOrCreateCode: a user's first code stays, and no two users share one.
  function ShareCode(w: Till, u: UserId, code: Code): Till {
    if code in w.codes || u in w.codes.Values then w else w.(codes := w.codes[code := u])
  }

  predicate BoostActive(boosts: seq<Boost>, u: UserId, now: int) {
    exists b :: b in boosts && b.user == u && b.ends > now
  }

  predicate FreeAvailable(boosts: seq<Boost>, u: UserId, now: int) {
    forall b :: b in boosts && b.user == u && b.cost == 0 ==> now - b.starts >= BOOST_FREE_EVERY
  }

  datatype BoostKind = AlreadyBoosted | Insufficient | FreeBoost | PaidBoost

  function BoostKindOf(w: Till, u: UserId, now: int): BoostKind {
    if BoostActive(w.boosts, u, now) then AlreadyBoosted
    else if FreeAvailable(w.boosts, u, now) then FreeBoost
    else if Balance(w.rows, u) < BOOST_COST then Insufficient
    else PaidBoost
  }

  function Activate(w: Till, u: UserId, now: int): Till {
    match BoostKindOf(w, u, now)
    case FreeBoost => w.(boosts := w.boosts + [Boost(u, now, now + BOOST_LENGTH, 0)])
    case PaidBoost =>
      w.(boosts := w.boosts + [Boost(u, now, now + BOOST_LENGTH, BOOST_COST)],
         rows := w.rows + [Row(u, -BOOST_COST, BoostSpend, None)])
    case _ => w
  }

  // ---- one step of the money tables ----

  datatype Step =
    | DoGrant(u: UserId, amount: int)
    | DoShareCode(u: UserId, code: Code)
    | DoRefer(code: Code, referee: UserId, signedUp: int, now: int)
    | DoBoost(u: UserId, now: int)
    | DoAddCoupon(code: Code, fixed: bool, value: int, maxUses: int, expires: Option<int>)
    | DoReserve(code: Code, now: int)
    | DoOrder(id: OrderId, booking: Ref, amount: int, u: UserId, useCredits: bool)
    | DoCancelOrders(ids: seq<OrderId>)
    | DoMarkPaid(id: OrderId)
    | DoMoney(money: RefundLaws.Step) // captures and refunds

  predicate Distinct(ids: seq<OrderId>) {
    forall i, j :: 0 <= i < j < |ids| ==> ids[i] != ids[j]
  }

  ghost predicate Enabled(w: Till, s: Step) {
    match s
    case DoOrder(id, _, _, _, _) => id !in w.ledger.orders
    case DoCancelOrders(ids) => Distinct(ids) && forall o :: o in ids ==>
      o in w.ledger.orders && w.ledger.orders[o].status.Created?
    case _ => true
  }

  function Apply(w: Till, s: Step): Till {
    match s
    case DoGrant(u, amount) => GrantCredit(w, u, amount)
    case DoShareCode(u, code) => ShareCode(w, u, code)
    case DoRefer(code, referee, signedUp, now) => Refer(w, code, referee, signedUp, now)
    case DoBoost(u, now) => Activate(w, u, now)
    case DoAddCoupon(code, fixed, value, maxUses, expires) => AddCoupon(w, code, fixed, value, maxUses, expires)
    case DoReserve(code, now) => Reserve(w, code, now)
    case DoOrder(id, booking, amount, u, useCredits) => OrderWithCredits(w, id, booking, amount, u, useCredits)
    case DoCancelOrders(ids) => CancelOrders(w, ids)
    case DoMarkPaid(id) => MarkPaid(w, id)
    case DoMoney(money) => w.(ledger := RefundLaws.Apply(w.ledger, money))
  }

  const EMPTY_TILL: Till := Till(Ledger(map[], map[], [], []), [], [], [], map[], map[])
}
