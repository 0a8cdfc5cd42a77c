// Replayed and reordered capture calls leave the ledger that each call once would leave.
module CaptureLaws {
  import opened PaymentLedger
  import opened RefundLaws

  function Captures(l: Ledger, calls: seq<Call>): Ledger {
    if calls == [] then l else Capture(Captures(l, calls[..|calls| - 1]), calls[|calls| - 1])
  }

  // Calls the tables would take if their reference were new.
  predicate Takes(l: Ledger, c: Call) {
    c.order in l.orders && c.amount > 0
  }

  // One reconciliation entry per payment, carrying its amount, and none for anything else.
  ghost predicate Reconciled(l: Ledger) {
    && (forall e :: e in l.recon && e.PaymentEntry? ==> e.ref in l.payments && l.payments[e.ref].amount == e.amount)
    && (forall r :: r in l.payments ==> PaymentEntry(r, l.payments[r].amount) in l.recon)
    && (forall i, j :: 0 <= i < j < |l.recon| && l.recon[i].PaymentEntry? && l.recon[j].PaymentEntry? ==>
          l.recon[i].ref != l.recon[j].ref)
  }

  lemma CaptureKeeps(l: Ledger, c: Call)
    requires LedgerOk(l) && Reconciled(l)
    ensures LedgerOk(Capture(l, c)) && Reconciled(Capture(l, c))
    ensures CaptureKindOf(l, c).Captured? ==> RefundedTotal(Capture(l, c).refunds, c.ref) == 0
  {
    CaptureOk(l, c);
    CaptureReconciles(l, c);
    hide CreatedInOrder, Reconciled;
    if CaptureKindOf(l, c).Captured? {
      NothingYet(l.refunds, c.ref);
    }
  }

  lemma CaptureReconciles(l: Ledger, c: Call)
    requires Reconciled(l)
    ensures Reconciled(Capture(l, c))
  {
    var l' := Capture(l, c);
    if CaptureKindOf(l, c).Captured? {
      assert PaymentEntry(c.ref, c.amount) == l'.recon[|l.recon|];
      forall r | r in l'.payments ensures PaymentEntry(r, l'.payments[r].amount) in l'.recon {
        if r != c.ref {
          assert PaymentEntry(r, l.payments[r].amount) in l.recon;
        }
      }
    }
  }

  lemma {:induction false} CapturesKeep(l: Ledger, calls: seq<Call>)
    requires LedgerOk(l) && Reconciled(l)
    ensures LedgerOk(Captures(l, calls)) && Reconciled(Captures(l, calls))
  {
    if calls != [] {
      CapturesKeep(l, calls[..|calls| - 1]);
      CaptureKeeps(Captures(l, calls[..|calls| - 1]), calls[|calls| - 1]);
    }
  }

  // ---- repeats ----

  // The calls the ledger takes, each gateway id once: its first.
  function FirstOnly(l: Ledger, calls: seq<Call>): seq<Call> {
    if calls == [] then []
    else
      var front, c := FirstOnly(l, calls[..|calls| - 1]), calls[|calls| - 1];
      if Takes(l, c) && forall d :: d in front ==> d.ref != c.ref then front + [c] else front
  }

  lemma {:induction false} CapturedSoFar(l: Ledger, calls: seq<Call>)
    ensures Captures(l, calls).orders.Keys == l.orders.Keys
    ensures forall r :: r in Captures(l, calls).payments <==>
        r in l.payments || exists d :: d in FirstOnly(l, calls) && d.ref == r
  {
    if calls != [] {
      CapturedSoFar(l, calls[..|calls| - 1]);
      var c, front := calls[|calls| - 1], FirstOnly(l, calls[..|calls| - 1]);
      if Takes(l, c) && forall d :: d in front ==> d.ref != c.ref {
        assert (front + [c])[|front|] == c;
      }
      forall d | d in front ensures d in FirstOnly(l, calls) { }
    }
  }

  // A sequence of captures equals the sequence with every later repeat (and every refused call) removed.
  lemma {:induction false} RepeatsChangeNothing(l: Ledger, calls: seq<Call>)
    ensures Captures(l, calls) == Captures(l, FirstOnly(l, calls))
  {
    if calls != [] {
      var front, c := calls[..|calls| - 1], calls[|calls| - 1];
      var first := FirstOnly(l, front);
      RepeatsChangeNothing(l, front);
      CapturedSoFar(l, front);
      if Takes(l, c) && forall d :: d in first ==> d.ref != c.ref {
        assert (first + [c])[..|first|] == first;
      }
    }
  }

  // ---- any order ----

  // Two notices about the same gateway payment say the same thing.
  ghost predicate Agree(calls: seq<Call>) {
    forall c, d :: c in calls && d in calls && c.ref == d.ref ==> c == d
  }

  ghost predicate New(l: Ledger, calls: seq<Call>, c: Call) {
    c in calls && Takes(l, c) && c.ref !in l.payments
  }

  // Same payments up to the order they were recorded in.
  ghost predicate SamePayments(a: map<GatewayRef, Payment>, b: map<GatewayRef, Payment>) {
    a.Keys == b.Keys && forall r :: r in a ==> a[r].order == b[r].order && a[r].amount == b[r].amount
  }

  ghost function After(l: Ledger, calls: seq<Call>, o: OrderId): Order
    requires o in l.orders
  {
    if exists c :: New(l, calls, c) && c.order == o then l.orders[o].(status := Paid) else l.orders[o]
  }

  // What the calls add, whatever their order and however often they are repeated.
  ghost predicate Adds(l: Ledger, calls: seq<Call>, l': Ledger) {
    && (forall c :: New(l, calls, c) ==>
      c.ref in l'.payments && l'.payments[c.ref].order == c.order && l'.payments[c.ref].amount == c.amount)
    && (forall r :: r in l'.payments && r !in l.payments ==> exists c :: New(l, calls, c) && c.ref == r)
    && (forall r :: r in l.payments ==> r in l'.payments && l'.payments[r] == l.payments[r])
    && l'.orders.Keys == l.orders.Keys && l'.refunds == l.refunds
    && (forall o :: o in l.orders ==> l'.orders[o] == After(l, calls, o))
  }

  lemma {:induction false} CapturesAdd(l: Ledger, calls: seq<Call>)
    requires Agree(calls)
    ensures Adds(l, calls, Captures(l, calls))
  {
    if calls != [] {
      var front, c := calls[..|calls| - 1], calls[|calls| - 1];
      assert forall d :: d in calls <==> d in front || d == c;
      CapturesAdd(l, front);
      AddOne(l, front, c, Captures(l, front), calls);
    }
  }

  lemma AddOne(l: Ledger, front: seq<Call>, c: Call, mid: Ledger, calls: seq<Call>)
    requires Adds(l, front, mid) && Agree(calls) && forall d :: d in calls <==> d in front || d == c
    ensures Adds(l, calls, Capture(mid, c))
  {
    var l' := Capture(mid, c);
    assert forall d :: New(l, calls, d) <==> New(l, front, d) || (d == c && New(l, calls, c));
    if CaptureKindOf(mid, c).Captured? {
      assert New(l, calls, c);
      forall r | r in l'.payments && r !in l.payments ensures exists d :: New(l, calls, d) && d.ref == r {
        if r != c.ref {
          var d :| New(l, front, d) && d.ref == r;
          assert New(l, calls, d);
        }
      }
      forall d | New(l, calls, d)
        ensures d.ref in l'.payments && l'.payments[d.ref].order == d.order && l'.payments[d.ref].amount == d.amount
      {
        assert d == c || New(l, front, d);
      }
    } else if New(l, calls, c) {
      var d :| New(l, front, d) && d.ref == c.ref;
      assert d == c;
    }
    AddOneOrders(l, front, c, mid, calls);
  }

  lemma AddOneOrders(l: Ledger, front: seq<Call>, c: Call, mid: Ledger, calls: seq<Call>)
    requires Adds(l, front, mid) && Agree(calls) && forall d :: d in calls <==> d in front || d == c
    ensures forall o :: o in l.orders ==> Capture(mid, c).orders[o] == After(l, calls, o)
  {
    forall o | o in l.orders ensures Capture(mid, c).orders[o] == After(l, calls, o) {
      if d :| New(l, front, d) && d.order == o {
        assert New(l, calls, d);
      } else if New(l, calls, c) && c.order == o && exists d :: New(l, front, d) && d.ref == c.ref {
        assert false;
      }
    }
  }

  // Any two sequences of agreeing calls with the same calls in them - repeated, reordered - leave the same
  // orders, the same payments and the same reconciliation entries.
  lemma SameCallsSameLedger(l: Ledger, a: seq<Call>, b: seq<Call>)
    requires LedgerOk(l) && Reconciled(l) && Agree(a) && Agree(b) && forall c :: c in a <==> c in b
    ensures Captures(l, a).orders == Captures(l, b).orders
    ensures SamePayments(Captures(l, a).payments, Captures(l, b).payments)
    ensures forall e: Entry :: e.PaymentEntry? ==> (e in Captures(l, a).recon <==> e in Captures(l, b).recon)
    ensures Reconciled(Captures(l, a)) && Reconciled(Captures(l, b))
  {
    var la, lb := Captures(l, a), Captures(l, b);
    CapturesAdd(l, a);
    CapturesAdd(l, b);
    assert forall c :: New(l, a, c) <==> New(l, b, c);
    CapturesKeep(l, a);
    CapturesKeep(l, b);
    SameAdditions(l, a, b, la, lb);
  }

  lemma SameAdditions(l: Ledger, a: seq<Call>, b: seq<Call>, la: Ledger, lb: Ledger)
    requires Adds(l, a, la) && Adds(l, b, lb) && forall c :: New(l, a, c) <==> New(l, b, c)
    ensures la.orders == lb.orders && SamePayments(la.payments, lb.payments)
  {
    assert la.orders.Keys == lb.orders.Keys;
    forall o | o in l.orders ensures la.orders[o] == lb.orders[o] {
      assert (exists c :: New(l, a, c) && c.order == o) <==> (exists c :: New(l, b, c) && c.order == o);
    }
    forall r | r in la.payments
      ensures r in lb.payments && la.payments[r].order == lb.payments[r].order
      ensures la.payments[r].amount == lb.payments[r].amount
    {
      if r !in l.payments {
        var c :| New(l, a, c) && c.ref == r;
        assert New(l, b, c);
      }
    }
    forall r | r in lb.payments ensures r in la.payments {
      if r !in l.payments {
        var c :| New(l, b, c) && c.ref == r;
        assert New(l, a, c);
      }
    }
  }

  // ---- when notices disagree ----

  lemma {:induction false} NoNoticeNoPayment(l: Ledger, calls: seq<Call>, r: GatewayRef)
    requires r !in l.payments && forall c :: c in calls && c.ref == r ==> !Takes(l, c)
    ensures r !in Captures(l, calls).payments && Captures(l, calls).orders.Keys == l.orders.Keys
  {
    if calls != [] {
      var front, c := calls[..|calls| - 1], calls[|calls| - 1];
      NoNoticeNoPayment(l, front, r);
      assert c in calls;
    }
  }

  // Whatever else is said and in whatever order: the payment recorded under a gateway id is the first notice about it
  // that the tables take, and every later one that says otherwise is ignored.
  lemma {:induction false} FirstNoticeWins(l: Ledger, calls: seq<Call>, i: nat)
    requires i < |calls| && Takes(l, calls[i]) && calls[i].ref !in l.payments
    requires forall j :: 0 <= j < i && calls[j].ref == calls[i].ref ==> !Takes(l, calls[j])
    ensures var c, l' := calls[i], Captures(l, calls);
      && l'.orders.Keys == l.orders.Keys
      && c.ref in l'.payments && l'.payments[c.ref].order == c.order && l'.payments[c.ref].amount == c.amount
  {
    var front := calls[..|calls| - 1];
    if i < |front| {
      FirstNoticeWins(l, front, i);
    } else {
      forall c | c in front && c.ref == calls[i].ref ensures !Takes(l, c) {
        var j :| 0 <= j < |front| && front[j] == c;
        assert calls[j] == c;
      }
      NoNoticeNoPayment(l, front, calls[i].ref);
    }
  }
}
