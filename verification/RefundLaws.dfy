// Money going back: in which runs the refunds of a payment stay within what was captured, and where redelivered
// cancellation events leave them.
module RefundLaws {
  import opened Arithmetic
  import opened PaymentLedger

  // What one refund row counts for.
  function Counts(r: Refund, p: GatewayRef): int {
    if r.payment == p && !r.status.Failed? then r.amount else 0
  }

  lemma RefundedAppend(refunds: seq<Refund>, r: Refund, p: GatewayRef)
    ensures RefundedTotal(refunds + [r], p) == RefundedTotal(refunds, p) + Counts(r, p)
  {
    assert (refunds + [r])[..|refunds|] == refunds;
  }

  lemma {:induction false} RefundedUpdate(refunds: seq<Refund>, i: nat, r: Refund, p: GatewayRef)
    requires i < |refunds|
    ensures RefundedTotal(refunds[i := r], p) == RefundedTotal(refunds, p) - Counts(refunds[i], p) + Counts(r, p)
  {
    var last := |refunds| - 1;
    if i == last {
      assert refunds[i := r][..last] == refunds[..last];
    } else {
      RefundedUpdate(refunds[..last], i, r, p);
      assert refunds[i := r][..last] == refunds[..last][i := r];
    }
  }

  lemma {:induction false} RefundedNonNegative(refunds: seq<Refund>, p: GatewayRef)
    requires forall i :: 0 <= i < |refunds| ==> refunds[i].amount > 0
    ensures RefundedTotal(refunds, p) >= 0
  {
    if refunds != [] {
      RefundedNonNegative(refunds[..|refunds| - 1], p);
    }
  }

  // ---- any interleaving of attempts, answers and notices ----

  // The gateway's refund webhook: only these words are acted on.
  datatype Word = SaidSuccess | SaidFailed | SaidCancelled | SaidOther

  function Record(l: Ledger, id: nat, word: Word): Ledger {
    match word
    case SaidSuccess => SetStatus(l, id, Processed)
    case SaidFailed | SaidCancelled => SetStatus(l, id, Failed)
    case SaidOther => l
  }

  datatype Step =
    | Attempt(p: GatewayRef, amount: int)
    | Reject(id: nat)
    | Settle(id: nat, settled: int)
    | Notice(id: nat, word: Word)
    | Receive(call: Call)

  function Apply(l: Ledger, s: Step): Ledger {
    match s
    case Attempt(p, amount) => Begin(l, p, amount)
    case Reject(id) => SetStatus(l, id, Failed)
    case Settle(id, settled) => Complete(l, id, settled)
    case Notice(id, word) => Record(l, id, word)
    case Receive(call) => Capture(l, call)
  }

  function Run(l: Ledger, steps: seq<Step>): Ledger {
    if steps == [] then l else Apply(Run(l, steps[..|steps| - 1]), steps[|steps| - 1])
  }

  // A write that turns a failed attempt back into one that counts.
  predicate Revives(l: Ledger, s: Step) {
    (s.Settle? || (s.Notice? && s.word.SaidSuccess?)) && s.id < |l.refunds| && l.refunds[s.id].status.Failed?
  }

  // ... when there is no longer room for it under what was captured.
  predicate Overdraws(l: Ledger, s: Step)
    requires LedgerOk(l)
  {
    Revives(l, s) &&
    var r := l.refunds[s.id];
    RefundedTotal(l.refunds, r.payment) + r.amount > l.payments[r.payment].amount
  }

  // ---- what every write keeps of the tables themselves ----

  lemma CaptureOk(l: Ledger, call: Call)
    requires LedgerOk(l)
    ensures LedgerOk(Capture(l, call))
  {
    CaptureInOrder(l, call);
    hide CreatedInOrder;
  }

  lemma CaptureInOrder(l: Ledger, call: Call)
    requires CreatedInOrder(l)
    ensures CreatedInOrder(Capture(l, call))
  { }

  // Writes to refunds, orders' statuses and entries leave the payments in order.
  lemma SamePaymentsInOrder(l: Ledger, l': Ledger)
    requires l'.payments == l.payments
    ensures CreatedInOrder(l') <==> CreatedInOrder(l)
  { }

  lemma BeginOk(l: Ledger, p: GatewayRef, amount: int)
    requires LedgerOk(l)
    ensures LedgerOk(Begin(l, p, amount))
  {
    SamePaymentsInOrder(l, Begin(l, p, amount));
    hide CreatedInOrder, RefundedTotal;
  }

  lemma StatusOk(l: Ledger, id: nat, status: RefundStatus)
    requires LedgerOk(l)
    ensures LedgerOk(SetStatus(l, id, status))
  {
    SamePaymentsInOrder(l, SetStatus(l, id, status));
    hide CreatedInOrder;
  }

  lemma CompleteOk(l: Ledger, id: nat, amount: int)
    requires LedgerOk(l)
    ensures LedgerOk(Complete(l, id, amount))
  {
    StatusOk(l, id, Processed);
    SamePaymentsInOrder(SetStatus(l, id, Processed), Complete(l, id, amount));
    hide CreatedInOrder, SetStatus;
  }

  // ---- what every write keeps of the bound ----

  lemma StatusKeeps(l: Ledger, id: nat, status: RefundStatus)
    requires LedgerOk(l) && RefundsBounded(l)
    ensures LedgerOk(SetStatus(l, id, status))
    ensures id < |l.refunds| && l.refunds[id].status.Failed? && !status.Failed? ==>
      (RefundsBounded(SetStatus(l, id, status)) <==>
        RefundedTotal(l.refunds, l.refunds[id].payment) + l.refunds[id].amount <=
          l.payments[l.refunds[id].payment].amount)
    ensures !(id < |l.refunds| && l.refunds[id].status.Failed? && !status.Failed?) ==>
        RefundsBounded(SetStatus(l, id, status))
  {
    StatusOk(l, id, status);
    hide CreatedInOrder;
    var l' := SetStatus(l, id, status);
    if id < |l.refunds| {
      var r := l.refunds[id];
      forall p
        ensures RefundedTotal(l'.refunds, p) ==
          RefundedTotal(l.refunds, p) - Counts(r, p) + Counts(r.(status := status), p)
      {
        RefundedUpdate(l.refunds, id, r.(status := status), p);
      }
    }
  }

  lemma AttemptKeeps(l: Ledger, p: GatewayRef, amount: int)
    requires LedgerOk(l) && RefundsBounded(l)
    ensures LedgerOk(Begin(l, p, amount)) && RefundsBounded(Begin(l, p, amount))
  {
    BeginOk(l, p, amount);
    hide LedgerOk;
    forall q
      ensures RefundedTotal(l.refunds + [Refund(p, amount, Pending)], q) ==
        RefundedTotal(l.refunds, q) + if q == p then amount else 0
    {
      RefundedAppend(l.refunds, Refund(p, amount, Pending), q);
    }
  }

  lemma ReceiveKeeps(l: Ledger, call: Call)
    requires LedgerOk(l) && RefundsBounded(l)
    ensures LedgerOk(Capture(l, call)) && RefundsBounded(Capture(l, call))
  {
    CaptureOk(l, call);
    hide CreatedInOrder;
    if CaptureKindOf(l, call).Captured? {
      NothingYet(l.refunds, call.ref);
    }
  }

  // One step leaves the bound standing exactly when it does not overdraw.
  lemma StepBoundIff(l: Ledger, s: Step)
    requires LedgerOk(l) && RefundsBounded(l)
    ensures LedgerOk(Apply(l, s))
    ensures RefundsBounded(Apply(l, s)) <==> !Overdraws(l, s)
  {
    hide RefundsBounded, Begin, SetStatus, Capture, CreatedInOrder;
    ApplyOk(l, s);
    match s
    case Attempt(p, amount) => AttemptKeeps(l, p, amount);
    case Reject(id) => StatusKeeps(l, id, Failed);
    case Settle(id, settled) =>
      StatusKeeps(l, id, Processed);
      OnlyReconDiffers(SetStatus(l, id, Processed), Complete(l, id, settled));
    case Notice(id, word) =>
      StatusKeeps(l, id, Processed);
      StatusKeeps(l, id, Failed);
    case Receive(call) => ReceiveKeeps(l, call);
  }

  lemma OnlyReconDiffers(l: Ledger, l': Ledger)
    requires l'.payments == l.payments && l'.refunds == l.refunds
    ensures RefundsBounded(l') <==> RefundsBounded(l)
  { }

  lemma {:induction false} NothingYet(refunds: seq<Refund>, p: GatewayRef)
    requires forall i :: 0 <= i < |refunds| ==> refunds[i].payment != p
    ensures RefundedTotal(refunds, p) == 0
  {
    if refunds != [] {
      NothingYet(refunds[..|refunds| - 1], p);
    }
  }

  // Every ledger on the way stays bounded.
  ghost predicate AlwaysBounded(l: Ledger, steps: seq<Step>) {
    forall k :: 0 <= k <= |steps| ==> RefundsBounded(Run(l, steps[..k]))
  }

  ghost predicate NeverOverdraws(l: Ledger, steps: seq<Step>) {
    forall k :: 0 <= k < |steps| ==> LedgerOk(Run(l, steps[..k])) && !Overdraws(Run(l, steps[..k]), steps[k])
  }

  lemma {:induction false} RunOk(l: Ledger, steps: seq<Step>)
    requires LedgerOk(l)
    ensures LedgerOk(Run(l, steps))
  {
    if steps != [] {
      var front, s := steps[..|steps| - 1], steps[|steps| - 1];
      RunOk(l, front);
      ApplyOk(Run(l, front), s);
    }
  }

  lemma ApplyOk(l: Ledger, s: Step)
    requires LedgerOk(l)
    ensures LedgerOk(Apply(l, s))
  {
    hide LedgerOk, Begin, SetStatus, Capture, Complete;
    match s
    case Attempt(p, amount) => BeginOk(l, p, amount);
    case Reject(id) => StatusOk(l, id, Failed);
    case Settle(id, settled) => CompleteOk(l, id, settled);
    case Notice(id, word) =>
      StatusOk(l, id, Processed);
      StatusOk(l, id, Failed);
    case Receive(call) => CaptureOk(l, call);
  }

  lemma RunNext(l: Ledger, steps: seq<Step>, k: nat)
    requires k < |steps|
    ensures Run(l, steps[..k + 1]) == Apply(Run(l, steps[..k]), steps[k])
  {
    assert steps[..k + 1][..k] == steps[..k];
  }

  // Over any run, whatever the order: refunds stay within the capture at every moment exactly when no write
  // revives a failed attempt that no longer fits.
  lemma RefundsBoundedOverRunsIff(l: Ledger, steps: seq<Step>)
    requires LedgerOk(l) && RefundsBounded(l)
    ensures AlwaysBounded(l, steps) <==> NeverOverdraws(l, steps)
  {
    hide LedgerOk, RefundsBounded, Overdraws, Apply, Run;
    if AlwaysBounded(l, steps) {
      forall k | 0 <= k < |steps| ensures LedgerOk(Run(l, steps[..k])) && !Overdraws(Run(l, steps[..k]), steps[k]) {
        RunOk(l, steps[..k]);
        StepBoundIff(Run(l, steps[..k]), steps[k]);
        RunNext(l, steps, k);
      }
    }
    if NeverOverdraws(l, steps) {
      forall k | 0 <= k <= |steps| ensures RefundsBounded(Run(l, steps[..k])) {
        BoundedUpTo(l, steps, k);
      }
    }
  }

  lemma {:induction false} BoundedUpTo(l: Ledger, steps: seq<Step>, k: nat)
    requires LedgerOk(l) && RefundsBounded(l) && NeverOverdraws(l, steps) && k <= |steps|
    ensures RefundsBounded(Run(l, steps[..k]))
  {
    hide LedgerOk, RefundsBounded, Overdraws, Apply;
    if k > 0 {
      BoundedUpTo(l, steps, k - 1);
      RunNext(l, steps, k - 1);
      StepBoundIff(Run(l, steps[..k - 1]), steps[k - 1]);
    }
  }

  function OneCapture(refunds: seq<Refund>, recon: seq<Entry>): Ledger {
    Ledger(map[1 := Order(1, 500, Paid)], map[7 := Payment(1, 500, 0)], refunds, recon)
  }

  const FAILED: Refund := Refund(7, 500, Failed)
  const WAITING: Refund := Refund(7, 500, Pending)
  const RETURNED: Refund := Refund(7, 500, Processed)

  function LateNotice(): seq<Step> {
    [Attempt(7, 500), Reject(0), Attempt(7, 500), Settle(1, 500), Notice(0, SaidSuccess)]
  }

  // An attempt that timed out is marked failed and retried; the late notice that it went through overdraws.
  lemma LateSuccessOverdraws()
    ensures var l, l' := OneCapture([], []), Run(OneCapture([], []), LateNotice());
      LedgerOk(l) && RefundsBounded(l) && l'.payments == l.payments && RefundedTotal(l'.refunds, 7) == 1000
  {
    var done := [RefundEntry(1, 500)];
    RefundedAppend([], RETURNED, 7);
    RefundedAppend([RETURNED], RETURNED, 7);
    LateSteps();
    Unfold(OneCapture([], []), LateNotice());
    hide Run, Apply;
  }

  lemma LateSteps()
    ensures var done := [RefundEntry(1, 500)];
      && Apply(OneCapture([], []), Attempt(7, 500)) == OneCapture([WAITING], [])
      && Apply(OneCapture([WAITING], []), Reject(0)) == OneCapture([FAILED], [])
      && Apply(OneCapture([FAILED], []), Attempt(7, 500)) == OneCapture([FAILED, WAITING], [])
      && Apply(OneCapture([FAILED, WAITING], []), Settle(1, 500)) == OneCapture([FAILED, RETURNED], done)
      && Apply(OneCapture([FAILED, RETURNED], done), Notice(0, SaidSuccess)) == OneCapture([RETURNED, RETURNED], done)
  {
    RefundedAppend([], FAILED, 7);
  }

  lemma Unfold(l: Ledger, steps: seq<Step>)
    requires |steps| == 5
    ensures Run(l, steps) == Apply(Apply(Apply(Apply(Apply(l, steps[0]), steps[1]), steps[2]), steps[3]), steps[4])
  {
    hide Apply;
    RunNext(l, steps, 0);
    RunNext(l, steps, 1);
    RunNext(l, steps, 2);
    RunNext(l, steps, 3);
    RunNext(l, steps, 4);
    assert steps[..5] == steps;
  }

  // ---- redelivered cancellations ----

  datatype Delivery = Delivery(percent: int, accepted: bool)

  function Redeliver(l: Ledger, p: GatewayRef, events: seq<Delivery>): (l': Ledger)
    requires p in l.payments
    ensures l'.payments == l.payments
  {
    if events == [] then l
    else
      var e := events[|events| - 1];
      TopUp(Redeliver(l, p, events[..|events| - 1]), p, e.percent, e.accepted)
  }

  // The largest target among the deliveries the gateway accepted.
  function BestTarget(paid: int, events: seq<Delivery>): int {
    if events == [] then 0
    else
      var e := events[|events| - 1];
      var rest := BestTarget(paid, events[..|events| - 1]);
      if e.accepted then Max(rest, Target(paid, e.percent)) else rest
  }

  lemma TargetWithin(paid: int, percent: int)
    requires paid >= 0
    ensures 0 <= Target(paid, percent) <= paid
  {
    if percent > 0 {
      var q := if percent <= 100 then percent else 100;
      assert 0 <= paid * q <= paid * 100;
    }
  }

  lemma DoRefundTotals(l: Ledger, p: GatewayRef, amount: int, accepted: bool, q: GatewayRef)
    requires BeginKindOf(l, p, amount).Begun?
    ensures RefundedTotal(DoRefund(l, p, amount, accepted).refunds, q) ==
        RefundedTotal(l.refunds, q) + if accepted && q == p then amount else 0
  {
    RefundedAppend(l.refunds, Refund(p, amount, Pending), q);
    RefundedUpdate(l.refunds + [Refund(p, amount, Pending)], |l.refunds|,
      Refund(p, amount, if accepted then Processed else Failed), q);
  }

  lemma DoRefundOk(l: Ledger, p: GatewayRef, amount: int, accepted: bool)
    requires LedgerOk(l)
    ensures LedgerOk(DoRefund(l, p, amount, accepted))
  {
    BeginOk(l, p, amount);
    CompleteOk(Begin(l, p, amount), |l.refunds|, amount);
    StatusOk(Begin(l, p, amount), |l.refunds|, Failed);
    hide LedgerOk, Begin, Complete, SetStatus;
  }

  lemma TopUpTotals(l: Ledger, p: GatewayRef, percent: int, accepted: bool)
    requires LedgerOk(l) && p in l.payments
    ensures var l' := TopUp(l, p, percent, accepted);
      var before := RefundedTotal(l.refunds, p);
      && LedgerOk(l')
      && RefundedTotal(l'.refunds, p) ==
        (if accepted then Max(before, Target(l.payments[p].amount, percent)) else before)
      && forall q :: q != p ==> RefundedTotal(l'.refunds, q) == RefundedTotal(l.refunds, q)
  {
    hide CreatedInOrder;
    TargetWithin(l.payments[p].amount, percent);
    RefundedNonNegative(l.refunds, p);
    var owed := Target(l.payments[p].amount, percent) - RefundedTotal(l.refunds, p);
    DoRefundOk(l, p, owed, accepted);
    if percent > 0 && owed > 0 {
      forall q
        ensures RefundedTotal(DoRefund(l, p, owed, accepted).refunds, q)
                == RefundedTotal(l.refunds, q) + if accepted && q == p then owed else 0
      {
        DoRefundTotals(l, p, owed, accepted, q);
      }
    }
    hide LedgerOk, DoRefund, RefundedTotal, Target;
  }

  // However often cancellation events are delivered, in whatever order and with whatever gateway failures between:
  // the total ends at the larger of where it began and the largest accepted target, and no other payment moves.
  lemma {:induction false} RedeliveryConverges(l: Ledger, p: GatewayRef, events: seq<Delivery>)
    requires LedgerOk(l) && p in l.payments
    ensures var l' := Redeliver(l, p, events);
      && LedgerOk(l')
      && RefundedTotal(l'.refunds, p) == Max(RefundedTotal(l.refunds, p), BestTarget(l.payments[p].amount, events))
      && (forall q :: q != p ==> RefundedTotal(l'.refunds, q) == RefundedTotal(l.refunds, q))
  {
    if events == [] {
      RefundedNonNegative(l.refunds, p);
    } else {
      var front, e := events[..|events| - 1], events[|events| - 1];
      RedeliveryConverges(l, p, front);
      TopUpTotals(Redeliver(l, p, front), p, e.percent, e.accepted);
    }
  }

  // BestTarget is what its name says.
  lemma {:induction false} BestTargetIsLargest(paid: int, events: seq<Delivery>)
    requires paid >= 0
    ensures 0 <= BestTarget(paid, events) <= paid
    ensures forall e :: e in events && e.accepted ==> Target(paid, e.percent) <= BestTarget(paid, events)
    ensures BestTarget(paid, events) != 0 ==>
        exists e :: e in events && e.accepted && Target(paid, e.percent) == BestTarget(paid, events)
  {
    if events != [] {
      var front, last := events[..|events| - 1], events[|events| - 1];
      BestTargetIsLargest(paid, front);
      TargetWithin(paid, last.percent);
      forall e | e in events && e.accepted ensures Target(paid, e.percent) <= BestTarget(paid, events) {
        assert e in front || e == last;
      }
      if BestTarget(paid, events) == BestTarget(paid, front) && BestTarget(paid, front) != 0 {
        var e :| e in front && e.accepted && Target(paid, e.percent) == BestTarget(paid, front);
        assert e in events;
      } else if BestTarget(paid, events) != 0 {
        assert last in events;
      }
    }
  }

  // RefundBookingIfCaptured.
  ghost function RefundBooking(l: Ledger, b: Ref, percent: int, accepted: bool): Ledger {
    if percent > 0 && exists p :: Latest(l, b, p) then
      var p :| Latest(l, b, p);
      TopUp(l, p, percent, accepted)
    else l
  }

  ghost function RedeliverBooking(l: Ledger, b: Ref, events: seq<Delivery>): Ledger {
    if events == [] then l
    else
      var e := events[|events| - 1];
      RefundBooking(RedeliverBooking(l, b, events[..|events| - 1]), b, e.percent, e.accepted)
  }

  lemma OneLatest(l: Ledger, b: Ref, p: GatewayRef, percent: int, accepted: bool)
    requires CreatedInOrder(l) && Latest(l, b, p)
    ensures RefundBooking(l, b, percent, accepted) == TopUp(l, p, percent, accepted)
  {
    forall q | Latest(l, b, q) ensures q == p {
      assert PaymentOf(l, b, q) && PaymentOf(l, b, p);
    }
  }

  // The worker's handler never changes which payment it finds, so the same holds for cancellations of a booking.
  lemma BookingRedeliveryConverges(l: Ledger, b: Ref, p: GatewayRef, events: seq<Delivery>)
    requires LedgerOk(l) && Latest(l, b, p)
    ensures RedeliverBooking(l, b, events) == Redeliver(l, p, events)
    ensures RefundedTotal(RedeliverBooking(l, b, events).refunds, p) ==
            Max(RefundedTotal(l.refunds, p), BestTarget(l.payments[p].amount, events))
  {
    SameDeliveries(l, b, p, events);
    RedeliveryConverges(l, p, events);
  }

  lemma {:induction false} SameDeliveries(l: Ledger, b: Ref, p: GatewayRef, events: seq<Delivery>)
    requires CreatedInOrder(l) && Latest(l, b, p)
    ensures var l' := RedeliverBooking(l, b, events);
      l' == Redeliver(l, p, events) && l'.orders == l.orders && l'.payments == l.payments
  {
    hide RefundedTotal, Target;
    if events != [] {
      var front, e := events[..|events| - 1], events[|events| - 1];
      SameDeliveries(l, b, p, front);
      var mid := RedeliverBooking(l, b, front);
      assert forall q :: PaymentOf(mid, b, q) <==> PaymentOf(l, b, q);
      OneLatest(mid, b, p, e.percent, e.accepted);
    }
  }
}
