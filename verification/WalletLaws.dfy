// What every writer of the credit ledger keeps, and what that means over whole runs.
module WalletLaws {
  import opened Arithmetic
  import opened Finite
  import opened PaymentLedger
  import RefundLaws
  import opened Wallet

  // ---- sums ----

  lemma SumAppend(rows: seq<Row>, r: Row, keep: Row -> bool)
    ensures SumIf(rows + [r], keep) == SumIf(rows, keep) + if keep(r) then r.amount else 0
  {
    assert (rows + [r])[..|rows|] == rows;
  }

  // One more row: what it does to a balance, to an order's net effect and to what the order spent.
  lemma Append(rows: seq<Row>, r: Row)
    ensures forall u :: Balance(rows + [r], u) == Balance(rows, u) + if r.user == u then r.amount else 0
    ensures forall o: OrderId :: Net(rows + [r], o) == Net(rows, o) + if r.order == Some(o) then r.amount else 0
    ensures forall o: OrderId ::
        Spent(rows + [r], o) == Spent(rows, o) - if r.order == Some(o) && r.reason.BookingSpend? then r.amount else 0
  {
    forall u ensures Balance(rows + [r], u) == Balance(rows, u) + if r.user == u then r.amount else 0 {
      SumAppend(rows, r, (r: Row) => r.user == u);
    }
    forall o: OrderId ensures Net(rows + [r], o) == Net(rows, o) + if r.order == Some(o) then r.amount else 0 {
      SumAppend(rows, r, (r: Row) => r.order == Some(o));
    }
    forall o: OrderId
      ensures Spent(rows + [r], o) ==
        Spent(rows, o) - if r.order == Some(o) && r.reason.BookingSpend? then r.amount else 0
    {
      SumAppend(rows, r, (r: Row) => r.order == Some(o) && r.reason.BookingSpend?);
    }
  }

  lemma {:induction false} NoRowsNoSum(rows: seq<Row>, keep: Row -> bool)
    requires forall i :: 0 <= i < |rows| ==> !keep(rows[i])
    ensures SumIf(rows, keep) == 0
  {
    if rows != [] {
      NoRowsNoSum(rows[..|rows| - 1], keep);
    }
  }

  lemma Untouched(rows: seq<Row>, o: OrderId)
    requires forall i :: 0 <= i < |rows| ==> rows[i].order != Some(o)
    ensures Net(rows, o) == 0 && Spent(rows, o) == 0
  {
    NoRowsNoSum(rows, (r: Row) => r.order == Some(o));
    NoRowsNoSum(rows, (r: Row) => r.order == Some(o) && r.reason.BookingSpend?);
  }

  // ---- the invariant ----

  ghost predicate OneUserPerOrder(rows: seq<Row>) {
    forall i, j :: 0 <= i < |rows| && 0 <= j < |rows| && rows[i].order.Some? && rows[i].order == rows[j].order ==>
      rows[i].user == rows[j].user
  }

  ghost predicate RowsNameOrders(rows: seq<Row>, orders: set<OrderId>) {
    forall i :: 0 <= i < |rows| && rows[i].order.Some? ==> rows[i].order.value in orders
  }

  ghost predicate NoDebt(rows: seq<Row>) {
    forall u :: Balance(rows, u) >= 0
  }

  // An order still open has given nothing back, and one that was cancelled everything.
  ghost predicate OrdersSettled(w: Till) {
    forall o :: o in w.ledger.orders ==>
      && Spent(w.rows, o) >= 0
      && (Net(w.rows, o) == -Spent(w.rows, o) || Net(w.rows, o) == 0)
      && (w.ledger.orders[o].status.Created? ==> Net(w.rows, o) == -Spent(w.rows, o))
      && (w.ledger.orders[o].status.Closed? ==> Net(w.rows, o) == 0)
  }

  ghost predicate RowsOk(w: Till) {
    OneUserPerOrder(w.rows) && RowsNameOrders(w.rows, w.ledger.orders.Keys) && NoDebt(w.rows) && OrdersSettled(w)
  }

  ghost predicate CouponsOk(w: Till) {
    forall c :: c in w.coupons ==>
      w.coupons[c].value > 0 && (w.coupons[c].maxUses > 0 ==> w.coupons[c].uses <= w.coupons[c].maxUses)
  }

  // Nobody is referred twice or by themselves, and nobody refers more than the cap.
  ghost predicate ReferralsOk(w: Till) {
    && (forall i, j :: 0 <= i < j < |w.referrals| ==> w.referrals[i].referee != w.referrals[j].referee)
    && (forall i :: 0 <= i < |w.referrals| ==> w.referrals[i].referrer != w.referrals[i].referee)
    && (forall u :: ReferredBy(w.referrals, u) <= REFERRAL_CAP)
  }

  // A user's boosts never overlap, and free ones are a week apart - whatever the clock does.
  ghost predicate BoostsOk(w: Till) {
    forall i, j :: 0 <= i < j < |w.boosts| && w.boosts[i].user == w.boosts[j].user ==>
      && w.boosts[i].ends <= w.boosts[j].starts
      && (w.boosts[i].cost == 0 == w.boosts[j].cost ==> w.boosts[j].starts - w.boosts[i].starts >= BOOST_FREE_EVERY)
  }

  // The ledger agrees with the tables beside it: rewards with referrals, boost rows with boosts.
  ghost predicate TablesAgree(w: Till) {
    forall u ::
      && Rewards(w.rows, u) == REFERRAL_REWARD * (ReferredBy(w.referrals, u) + TimesReferred(w.referrals, u))
      && BoostDebits(w.rows, u) == BoostCosts(w.boosts, u)
  }

  predicate IsReward(r: Row, u: UserId) {
    r.user == u && (r.reason.Referrer? || r.reason.Referee?)
  }

  function Rewards(rows: seq<Row>, u: UserId): int {
    SumIf(rows, (r: Row) => IsReward(r, u))
  }

  function BoostDebits(rows: seq<Row>, u: UserId): int {
    -SumIf(rows, (r: Row) => r.user == u && r.reason.BoostSpend?)
  }

  function TimesReferred(referrals: seq<Referral>, u: UserId): nat {
    if referrals == [] then 0
    else TimesReferred(referrals[..|referrals| - 1], u) + if referrals[|referrals| - 1].referee == u then 1 else 0
  }

  function BoostCosts(boosts: seq<Boost>, u: UserId): int {
    if boosts == [] then 0
    else
      var b := boosts[|boosts| - 1];
      BoostCosts(boosts[..|boosts| - 1], u) + if b.user == u then b.cost else 0
  }

  ghost predicate Inv(w: Till) {
    RowsOk(w) && CouponsOk(w) && ReferralsOk(w) && BoostsOk(w) && TablesAgree(w) && LedgerOk(w.ledger)
  }

  // ---- rows that name no order ----

  lemma FreeRowKeeps(w: Till, r: Row)
    requires RowsOk(w) && r.order.None? && Balance(w.rows, r.user) + r.amount >= 0
    ensures RowsOk(w.(rows := w.rows + [r]))
    ensures forall o: OrderId :: Net(w.rows + [r], o) == Net(w.rows, o) && Spent(w.rows + [r], o) == Spent(w.rows, o)
  {
    Append(w.rows, r);
  }

  lemma TableRow(rows: seq<Row>, r: Row)
    ensures forall u :: Rewards(rows + [r], u) == Rewards(rows, u) + if IsReward(r, u) then r.amount else 0
    ensures forall u ::
        BoostDebits(rows + [r], u) == BoostDebits(rows, u) - if r.user == u && r.reason.BoostSpend? then r.amount else 0
  {
    forall u
      ensures Rewards(rows + [r], u) == Rewards(rows, u) + if IsReward(r, u) then r.amount else 0
    {
      SumAppend(rows, r, (r: Row) => IsReward(r, u));
    }
    forall u
      ensures BoostDebits(rows + [r], u) ==
        BoostDebits(rows, u) - if r.user == u && r.reason.BoostSpend? then r.amount else 0
    {
      SumAppend(rows, r, (r: Row) => r.user == u && r.reason.BoostSpend?);
    }
  }

  lemma GrantKeeps(w: Till, u: UserId, amount: int)
    requires Inv(w)
    ensures Inv(GrantCredit(w, u, amount))
  {
    hide RowsOk, CouponsOk, ReferralsOk, BoostsOk;
    if amount > 0 {
      GrantRow(w, u, amount);
      TableRow(w.rows, Row(u, amount, Grant, None));
      Carried(w, GrantCredit(w, u, amount));
    }
  }

  lemma GrantRow(w: Till, u: UserId, amount: int)
    requires RowsOk(w) && amount > 0
    ensures RowsOk(w.(rows := w.rows + [Row(u, amount, Grant, None)]))
  {
    FreeRowKeeps(w, Row(u, amount, Grant, None));
  }

  // Predicates that look only at their own table.
  lemma Carried(w: Till, w': Till)
    ensures w'.coupons == w.coupons ==> CouponsOk(w') == CouponsOk(w)
    ensures w'.referrals == w.referrals ==> ReferralsOk(w') == ReferralsOk(w)
    ensures w'.boosts == w.boosts ==> BoostsOk(w') == BoostsOk(w)
    ensures w'.rows == w.rows && w'.ledger.orders == w.ledger.orders ==> RowsOk(w') == RowsOk(w)
  { }

  lemma ReferKeeps(w: Till, code: Code, referee: UserId, signedUp: int, now: int)
    requires Inv(w)
    ensures Inv(Refer(w, code, referee, signedUp, now))
  {
    hide RowsOk, CouponsOk, BoostsOk, LedgerOk;
    if ReferKindOf(w, code, referee, signedUp, now).Rewarded? {
      var referrer, w' := w.codes[code], Refer(w, code, referee, signedUp, now);
      RewardKeepsRows(w, referrer, referee);
      RewardKeepsTables(w, referrer, referee);
      ReferralsStay(w, referrer, referee);
      Carried(w, w');
      Carried(w.(rows := w'.rows), w');
    }
  }

  lemma RewardKeepsRows(w: Till, referrer: UserId, referee: UserId)
    requires RowsOk(w)
    ensures RowsOk(w.(rows := w.rows + RewardRows(referrer, referee)))
  {
    var rewards := RewardRows(referrer, referee);
    FreeRowKeeps(w, rewards[0]);
    var w1 := w.(rows := w.rows + [rewards[0]]);
    assert RowsOk(w1) && Balance(w1.rows, referee) >= 0;
    FreeRowKeeps(w1, rewards[1]);
    assert w.rows + rewards == w1.rows + [rewards[1]];
  }

  lemma RewardKeepsTables(w: Till, referrer: UserId, referee: UserId)
    requires TablesAgree(w)
    ensures TablesAgree(w.(referrals := w.referrals + [Referral(referrer, referee)],
        rows := w.rows + RewardRows(referrer, referee)))
  {
    var rewards := RewardRows(referrer, referee);
    TableRow(w.rows, rewards[0]);
    TableRow(w.rows + [rewards[0]], rewards[1]);
    assert w.rows + rewards == w.rows + [rewards[0]] + [rewards[1]];
    assert (w.referrals + [Referral(referrer, referee)])[..|w.referrals|] == w.referrals;
  }

  lemma ReferralsStay(w: Till, referrer: UserId, referee: UserId)
    requires ReferralsOk(w) && referrer != referee && ReferredBy(w.referrals, referrer) < REFERRAL_CAP
    requires forall r :: r in w.referrals ==> r.referee != referee
    ensures ReferralsOk(w.(referrals := w.referrals + [Referral(referrer, referee)]))
  {
    ReferredOneMore(w.referrals, Referral(referrer, referee));
    hide ReferredBy;
    assert forall i :: 0 <= i < |w.referrals| ==> w.referrals[i] in w.referrals;
  }

  lemma ReferredOneMore(referrals: seq<Referral>, r: Referral)
    ensures forall u :: ReferredBy(referrals + [r], u) == ReferredBy(referrals, u) + if r.referrer == u then 1 else 0
  {
    assert (referrals + [r])[..|referrals|] == referrals;
  }

  lemma BoostKeeps(w: Till, u: UserId, now: int)
    requires Inv(w)
    ensures Inv(Activate(w, u, now))
  {
    hide RowsOk, CouponsOk, ReferralsOk, BoostsOk, TablesAgree;
    var kind := BoostKindOf(w, u, now);
    if kind.FreeBoost? || kind.PaidBoost? {
      var w' := Activate(w, u, now);
      BoostsApart(w, w'.boosts[|w.boosts|], now);
      if kind.PaidBoost? {
        BoostRow(w, u);
      }
      BoostTables(w, u, now);
      Carried(w, w');
      Carried(w.(boosts := w'.boosts), w');
      Carried(w.(rows := w'.rows), w');
    }
  }

  lemma BoostTables(w: Till, u: UserId, now: int)
    requires TablesAgree(w)
    ensures TablesAgree(Activate(w, u, now))
  {
    hide Rewards, BoostDebits, BoostCosts, ReferredBy, TimesReferred, Balance, BoostActive, FreeAvailable;
    CostOfOneMore(w.boosts, Boost(u, now, now + BOOST_LENGTH, 0));
    CostOfOneMore(w.boosts, Boost(u, now, now + BOOST_LENGTH, BOOST_COST));
    TableRow(w.rows, Row(u, -BOOST_COST, BoostSpend, None));
  }

  lemma CostOfOneMore(boosts: seq<Boost>, b: Boost)
    ensures forall u :: BoostCosts(boosts + [b], u) == BoostCosts(boosts, u) + if b.user == u then b.cost else 0
  {
    assert (boosts + [b])[..|boosts|] == boosts;
  }

  lemma BoostsApart(w: Till, b: Boost, now: int)
    requires BoostsOk(w) && !BoostActive(w.boosts, b.user, now) && b.starts == now
    requires b.cost == 0 ==> FreeAvailable(w.boosts, b.user, now)
    ensures BoostsOk(w.(boosts := w.boosts + [b]))
  {
    var all := w.boosts + [b];
    forall i | 0 <= i < |w.boosts| && all[i].user == b.user
      ensures all[i].ends <= b.starts && (all[i].cost == 0 == b.cost ==> b.starts - all[i].starts >= BOOST_FREE_EVERY)
    {
      assert all[i] in w.boosts;
    }
  }

  lemma BoostRow(w: Till, u: UserId)
    requires RowsOk(w) && Balance(w.rows, u) >= BOOST_COST
    ensures RowsOk(w.(rows := w.rows + [Row(u, -BOOST_COST, BoostSpend, None)]))
  {
    FreeRowKeeps(w, Row(u, -BOOST_COST, BoostSpend, None));
  }

  // ---- orders ----

  // What placing an order adds up to (checkout never asks for a negative amount).
  lemma OrderEffect(w: Till, id: OrderId, booking: Ref, amount: int, u: UserId, useCredits: bool)
    requires RowsOk(w) && id !in w.ledger.orders
    ensures var w' := OrderWithCredits(w, id, booking, amount, u, useCredits);
      && (forall o :: o in w.ledger.orders ==>
        Net(w'.rows, o) == Net(w.rows, o) && Spent(w'.rows, o) == Spent(w.rows, o))
      && (id in w'.ledger.orders ==> Net(w'.rows, id) == -Spent(w'.rows, id) && Spent(w'.rows, id) >= 0)
      && (id in w'.ledger.orders && amount >= 0 ==>
            w'.ledger.orders[id].amount + Spent(w'.rows, id) == amount && w'.ledger.orders[id].amount >= 0
            && Spent(w'.rows, id) == SpendOf(w.rows, u, amount, useCredits))
      && NoDebt(w'.rows)
  {
    hide Net, Spent, OneUserPerOrder, OrdersSettled;
    var spent := SpendOf(w.rows, u, amount, useCredits);
    Untouched(w.rows, id);
    if spent > 0 {
      Append(w.rows, Row(u, -spent, BookingSpend, Some(id)));
    } else {
      assert w.rows + [] == w.rows;
    }
  }

  lemma OrderKeepsRows(w: Till, id: OrderId, booking: Ref, amount: int, u: UserId, useCredits: bool)
    requires RowsOk(w) && id !in w.ledger.orders
    ensures RowsOk(OrderWithCredits(w, id, booking, amount, u, useCredits))
  {
    hide Net, Spent, Balance, NoDebt;
    OrderEffect(w, id, booking, amount, u, useCredits);
  }

  lemma PlainRow(rows: seq<Row>, r: Row)
    requires r.order.Some? && (r.reason.BookingSpend? || r.reason.SpendReversed?)
    ensures forall u :: Rewards(rows + [r], u) == Rewards(rows, u) && BoostDebits(rows + [r], u) == BoostDebits(rows, u)
  {
    TableRow(rows, r);
  }

  lemma OrderKeeps(w: Till, id: OrderId, booking: Ref, amount: int, u: UserId, useCredits: bool)
    requires Inv(w) && id !in w.ledger.orders
    ensures Inv(OrderWithCredits(w, id, booking, amount, u, useCredits))
  {
    hide RowsOk, CouponsOk, ReferralsOk, BoostsOk;
    var w' := OrderWithCredits(w, id, booking, amount, u, useCredits);
    OrderKeepsRows(w, id, booking, amount, u, useCredits);
    PlainRow(w.rows, Row(u, -SpendOf(w.rows, u, amount, useCredits), BookingSpend, Some(id)));
    assert w.rows + [] == w.rows;
    Carried(w, w');
  }

  // A reversal cancels the order's spend and touches no other order.
  lemma ReversalEffect(rows: seq<Row>, o: OrderId)
    requires Net(rows, o) == -Spent(rows, o) && Spent(rows, o) >= 0
    ensures var rows' := rows + Reversal(rows, o);
      && Net(rows', o) == 0
      && (forall p :: Spent(rows', p) == Spent(rows, p))
      && (forall p :: p != o ==> Net(rows', p) == Net(rows, p))
      && (forall u :: Balance(rows', u) == Balance(rows, u) + if u == Spender(rows, o) then Spent(rows, o) else 0)
      && (forall u :: Rewards(rows', u) == Rewards(rows, u) && BoostDebits(rows', u) == BoostDebits(rows, u))
  {
    if Spent(rows, o) > 0 {
      Append(rows, Row(Spender(rows, o), Spent(rows, o), SpendReversed, Some(o)));
      PlainRow(rows, Row(Spender(rows, o), Spent(rows, o), SpendReversed, Some(o)));
    } else {
      assert rows + Reversal(rows, o) == rows;
    }
  }

  lemma {:induction false} SpenderIsTheUser(rows: seq<Row>, o: OrderId, i: nat)
    requires OneUserPerOrder(rows) && i < |rows| && rows[i].order == Some(o)
    ensures Spender(rows, o) == rows[i].user
  {
    var last := |rows| - 1;
    if rows[last].order != Some(o) {
      SpenderIsTheUser(rows[..last], o, i);
    }
  }

  lemma ReversalUsers(rows: seq<Row>, o: OrderId)
    requires OneUserPerOrder(rows)
    ensures OneUserPerOrder(rows + Reversal(rows, o))
  {
    forall i | 0 <= i < |rows| && rows[i].order == Some(o) ensures rows[i].user == Spender(rows, o) {
      SpenderIsTheUser(rows, o, i);
    }
  }

  ghost predicate Open(rows: seq<Row>, o: OrderId) {
    Net(rows, o) == -Spent(rows, o) && Spent(rows, o) >= 0
  }

  lemma {:induction false} ReversalsEffect(rows: seq<Row>, ids: seq<OrderId>)
    requires Distinct(ids) && forall o :: o in ids ==> Open(rows, o)
    ensures var rows' := Reversals(rows, ids);
      && (forall o :: Spent(rows', o) == Spent(rows, o))
      && (forall o :: Net(rows', o) == if o in ids then 0 else Net(rows, o))
      && (forall u :: Balance(rows', u) >= Balance(rows, u))
      && (forall u :: Rewards(rows', u) == Rewards(rows, u) && BoostDebits(rows', u) == BoostDebits(rows, u))
      && (OneUserPerOrder(rows) ==> OneUserPerOrder(rows'))
      && rows <= rows'
  {
    hide Reversal, Net, Spent, Balance, OneUserPerOrder, Rewards, BoostDebits, Spender;
    if ids != [] {
      var front, o := ids[..|ids| - 1], ids[|ids| - 1];
      assert forall p :: p in ids <==> p in front || p == o;
      ReversalsEffect(rows, front);
      assert o !in front;
      assert Open(rows, o);
      ReversalEffect(Reversals(rows, front), o);
      if OneUserPerOrder(rows) {
        ReversalUsers(Reversals(rows, front), o);
      }
    }
  }

  lemma {:induction false} ReversalsName(rows: seq<Row>, ids: seq<OrderId>, orders: set<OrderId>)
    requires RowsNameOrders(rows, orders) && forall o :: o in ids ==> o in orders
    ensures RowsNameOrders(Reversals(rows, ids), orders)
  {
    hide Spent, Spender;
    if ids != [] {
      ReversalsName(rows, ids[..|ids| - 1], orders);
      assert ids[|ids| - 1] in ids;
    }
  }

  lemma CancelOrdersKeepsRows(w: Till, ids: seq<OrderId>)
    requires RowsOk(w) && Enabled(w, DoCancelOrders(ids))
    ensures RowsOk(CancelOrders(w, ids))
  {
    hide Spent, Net, Balance, Reversals, OneUserPerOrder, RowsNameOrders;
    assert forall o :: o in ids ==> Open(w.rows, o);
    ReversalsEffect(w.rows, ids);
    ReversalsName(w.rows, ids, w.ledger.orders.Keys);
    assert CloseOrders(w.ledger.orders, ids).Keys == w.ledger.orders.Keys;
  }

  lemma CancelOrdersKeeps(w: Till, ids: seq<OrderId>)
    requires Inv(w) && Enabled(w, DoCancelOrders(ids))
    ensures Inv(CancelOrders(w, ids))
  {
    hide CouponsOk, ReferralsOk, BoostsOk, Spent, Net, Balance, Reversals, OneUserPerOrder, RowsNameOrders;
    hide NoDebt, Rewards, BoostDebits;
    CancelOrdersKeepsRows(w, ids);
    assert forall o :: o in ids ==> Open(w.rows, o);
    ReversalsEffect(w.rows, ids);
    Carried(w, CancelOrders(w, ids));
  }

  // ---- everything else ----

  // Orders only move to paid; nothing else about them changes.
  ghost predicate OnlyPaid(orders: map<OrderId, Order>, orders': map<OrderId, Order>) {
    orders'.Keys == orders.Keys
    && forall o :: o in orders ==> orders'[o] == orders[o] || orders'[o] == orders[o].(status := Paid)
  }

  lemma OnlyPaidKeeps(w: Till, ledger: Ledger)
    requires Inv(w) && OnlyPaid(w.ledger.orders, ledger.orders) && LedgerOk(ledger)
    ensures Inv(w.(ledger := ledger))
  {
    hide Spent, Net, Balance;
  }

  lemma MoneyOrders(l: Ledger, s: RefundLaws.Step)
    ensures OnlyPaid(l.orders, RefundLaws.Apply(l, s).orders)
  { }

  lemma CouponKeeps(w: Till, s: Step)
    requires Inv(w) && (s.DoReserve? || s.DoAddCoupon?)
    ensures Inv(Apply(w, s))
  {
    hide RowsOk, ReferralsOk, BoostsOk, Rewards, BoostDebits;
    Carried(w, Apply(w, s));
  }

  lemma OnlyCodesDiffer(w: Till, w': Till)
    requires Inv(w) && w' == w.(codes := w'.codes)
    ensures Inv(w')
  {
    hide LedgerOk;
  }

  lemma LedgerIsOk(w: Till)
    requires Inv(w)
    ensures LedgerOk(w.ledger)
  { }

  // The payment tables do not mind orders being added or changing status.
  lemma OrdersOnly(l: Ledger, l': Ledger)
    requires LedgerOk(l) && l'.payments == l.payments && l'.refunds == l.refunds && l.orders.Keys <= l'.orders.Keys
    ensures LedgerOk(l')
  {
    RefundLaws.SamePaymentsInOrder(l, l');
    hide CreatedInOrder;
  }

  lemma StepKeeps(w: Till, s: Step)
    requires Inv(w) && Enabled(w, s)
    ensures Inv(Apply(w, s))
  {
    LedgerIsOk(w);
    hide Inv;
    match s
    case DoGrant(u, amount) => GrantKeeps(w, u, amount);
    case DoShareCode(u, code) => OnlyCodesDiffer(w, ShareCode(w, u, code));
    case DoRefer(code, referee, signedUp, now) => ReferKeeps(w, code, referee, signedUp, now);
    case DoBoost(u, now) => BoostKeeps(w, u, now);
    case DoAddCoupon(code, fixed, value, maxUses, expires) => CouponKeeps(w, s);
    case DoReserve(code, now) => CouponKeeps(w, s);
    case DoOrder(id, booking, amount, u, useCredits) => OrderKeeps(w, id, booking, amount, u, useCredits);
    case DoCancelOrders(ids) => CancelOrdersKeeps(w, ids);
    case DoMarkPaid(id) =>
      if id in w.ledger.orders {
        OrdersOnly(w.ledger, MarkPaid(w, id).ledger);
        OnlyPaidKeeps(w, MarkPaid(w, id).ledger);
      }
    case DoMoney(money) =>
      MoneyOrders(w.ledger, money);
      RefundLaws.ApplyOk(w.ledger, money);
      OnlyPaidKeeps(w, RefundLaws.Apply(w.ledger, money));
  }

  // ---- runs ----

  ghost predicate Run(ws: seq<Till>, steps: seq<Step>) {
    |ws| == |steps| + 1 && forall i :: 0 <= i < |steps| ==>
      Enabled(ws[i], steps[i]) && ws[i + 1] == Apply(ws[i], steps[i])
  }

  lemma {:induction false} RunKeeps(ws: seq<Till>, steps: seq<Step>, n: nat)
    requires Run(ws, steps) && Inv(ws[0]) && n < |ws|
    ensures Inv(ws[n])
  {
    hide Inv;
    if n > 0 {
      RunKeeps(ws, steps, n - 1);
      StepKeeps(ws[n - 1], steps[n - 1]);
    }
  }

  lemma EmptyOk()
    ensures Inv(EMPTY_TILL)
  { }

  // From empty tables, whatever is granted, spent, boosted, referred, cancelled, captured or refunded: no balance
  // is negative, no coupon is used too often, no boosts overlap, and the ledger agrees with the tables beside it.
  lemma NoDebtOverRuns(ws: seq<Till>, steps: seq<Step>, n: nat)
    requires Run(ws, steps) && ws[0] == EMPTY_TILL && n < |ws|
    ensures forall u :: Balance(ws[n].rows, u) >= 0
    ensures CouponsOk(ws[n]) && ReferralsOk(ws[n]) && BoostsOk(ws[n]) && TablesAgree(ws[n]) && LedgerOk(ws[n].ledger)
  {
    EmptyOk();
    RunKeeps(ws, steps, n);
  }

  // ---- one order through a run ----

  predicate Cancels(s: Step, o: OrderId) {
    s.DoCancelOrders? && o in s.ids
  }

  lemma StepOrder(w: Till, s: Step, o: OrderId)
    requires Inv(w) && Enabled(w, s) && o in w.ledger.orders
    ensures var w' := Apply(w, s);
      && o in w'.ledger.orders
      && w'.ledger.orders[o].amount == w.ledger.orders[o].amount
        && w'.ledger.orders[o].booking == w.ledger.orders[o].booking
      && (!w.ledger.orders[o].status.Created? ==> !w'.ledger.orders[o].status.Created?)
      && Spent(w'.rows, o) == Spent(w.rows, o)
      && Net(w'.rows, o) == if Cancels(s, o) then 0 else Net(w.rows, o)
  {
    hide Spent, Net, Balance, Reversals, SpendOf, CouponsOk, ReferralsOk, BoostsOk, TablesAgree, LedgerOk;
    match s
    case DoGrant(u, amount) => Append(w.rows, Row(u, amount, Grant, None));
    case DoShareCode(_, _) =>
    case DoRefer(code, referee, signedUp, now) =>
      if code in w.codes {
        var rewards := RewardRows(w.codes[code], referee);
        Append(w.rows, rewards[0]);
        Append(w.rows + [rewards[0]], rewards[1]);
        assert w.rows + rewards == w.rows + [rewards[0]] + [rewards[1]];
      }
    case DoBoost(u, now) => Append(w.rows, Row(u, -BOOST_COST, BoostSpend, None));
    case DoAddCoupon(_, _, _, _, _) =>
    case DoReserve(code, now) =>
    case DoOrder(id, booking, amount, u, useCredits) => OrderEffect(w, id, booking, amount, u, useCredits);
    case DoCancelOrders(ids) =>
      assert forall p :: p in ids ==> Open(w.rows, p);
      ReversalsEffect(w.rows, ids);
    case DoMarkPaid(id) =>
    case DoMoney(money) => MoneyOrders(w.ledger, money);
  }

  // Cancelled at some step in [from, to).
  ghost predicate CancelledBetween(steps: seq<Step>, o: OrderId, from: nat, to: nat) {
    exists k :: from <= k < to && k < |steps| && Cancels(steps[k], o)
  }

  // An order placed at step m: from then on its amount and the credits it took add up to what was asked for, and
  // its net effect on the ledger is minus those credits until it is first cancelled, and nothing ever after.
  lemma {:induction false} OrderOverRuns(ws: seq<Till>, steps: seq<Step>, m: nat, n: nat)
    requires Run(ws, steps) && Inv(ws[0]) && m < n < |ws| && steps[m].DoOrder? && steps[m].amount >= 0
    requires steps[m].id in ws[m + 1].ledger.orders
    ensures var o := steps[m].id;
      && o in ws[n].ledger.orders
      && ws[n].ledger.orders[o].amount + Spent(ws[n].rows, o) == steps[m].amount
      && ws[n].ledger.orders[o].amount >= 0 && Spent(ws[n].rows, o) == Spent(ws[m + 1].rows, o) >= 0
      && Net(ws[n].rows, o) == if CancelledBetween(steps, o, m + 1, n) then 0 else -Spent(ws[n].rows, o)
  {
    hide Inv, Net, Spent, SpendOf, Apply;
    var o := steps[m].id;
    if n == m + 1 {
      RunKeeps(ws, steps, m);
      Placed(ws[m], steps[m]);
    } else {
      OrderOverRuns(ws, steps, m, n - 1);
      RunKeeps(ws, steps, n - 1);
      StepOrder(ws[n - 1], steps[n - 1], o);
      assert CancelledBetween(steps, o, m + 1, n) <==>
        CancelledBetween(steps, o, m + 1, n - 1) || Cancels(steps[n - 1], o);
    }
  }

  lemma Placed(w: Till, s: Step)
    requires Inv(w) && s.DoOrder? && s.amount >= 0 && Enabled(w, s) && s.id in Apply(w, s).ledger.orders
    ensures var w' := Apply(w, s);
      && w'.ledger.orders[s.id].amount + Spent(w'.rows, s.id) == s.amount && w'.ledger.orders[s.id].amount >= 0
      && Spent(w'.rows, s.id) >= 0 && Net(w'.rows, s.id) == -Spent(w'.rows, s.id)
  {
    hide Net, Spent, SpendOf;
    OrderEffect(w, s.id, s.booking, s.amount, s.u, s.useCredits);
  }

  // ---- where a balance comes from ----

  function Grants(rows: seq<Row>, u: UserId): int {
    SumIf(rows, (r: Row) => r.user == u && r.reason.Grant?)
  }

  // Credits a user's orders currently hold.
  function OnOrders(rows: seq<Row>, u: UserId): int {
    -SumIf(rows, (r: Row) => r.user == u && (r.reason.BookingSpend? || r.reason.SpendReversed?))
  }

  lemma {:induction false} BalanceSplits(rows: seq<Row>, u: UserId)
    ensures Balance(rows, u) == Grants(rows, u) + Rewards(rows, u) - BoostDebits(rows, u) - OnOrders(rows, u)
  {
    if rows != [] {
      BalanceSplits(rows[..|rows| - 1], u);
    }
  }

  // Credits are neither made nor lost: a balance is what was granted and earned by referrals, less what the boosts
  // on record cost and what orders hold.
  lemma BalanceIsAccountedFor(w: Till, u: UserId)
    requires Inv(w)
    ensures Balance(w.rows, u) ==
      Grants(w.rows, u) + REFERRAL_REWARD * (ReferredBy(w.referrals, u) + TimesReferred(w.referrals, u))
      - BoostCosts(w.boosts, u) - OnOrders(w.rows, u)
  {
    BalanceSplits(w.rows, u);
  }
}
