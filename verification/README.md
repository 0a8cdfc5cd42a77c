# Verified model of seats, money, series and small algorithms

This project models the parts of the backend where several writers share state or where arithmetic decides what
people get, and proves what those parts promise.

- **Seats** (`Seat*.dfy`): plans, bookings, payment holds, the waitlist with its lazily expiring offers, participants
  and check-ins. `SeatRules` says what each transaction does to the rows, `SeatStore.Store` does it in place and is
  proved to, and the lemmas are about every run. `SeatOutcomes` and `SeatParticipants` say in the rows' own words what
  a caller finds afterwards, one lemma for each transaction. `SeatInterleaving` runs the same transactions one
  statement at a time under row locks; `SeatInterleavingRefinement` shows that the two models agree.
- **Money** (`PaymentLedger`, `CaptureLaws`, `RefundLaws`, `Wallet`, `WalletLaws`, `Settlement`, `SettlementLaws`,
  `SettlementGaps`, `MoneyOutcomes`, `PaymentStore`): captures, refunds, the append-only credit ledger, coupons,
  checkout, and where they meet the seats. `MoneyOutcomes` says for each call which rows it writes and for how much.
- **Series** (`Text`, `Arithmetic`, `Calendar`, `CalendarLaws`, `Recurrence`, `RecurrenceLaws`, `Occurrences`,
  `Series`, `SeriesOutcomes`, `SeriesLaws`): the rule parser (a subset of section 3.3.10 of RFC 5545), real calendar
  arithmetic, the expansion loop and the jobs that materialise a series.
- **Small algorithms** (`Groups`, `Exif`, `ExifLaws`, `Rotation`, `Base64`, `Paging`).

Times are integers; a transaction carries both the database's frozen `now()` and the server's own clock. The gateway's
answers, clocks, new ids and the order in which a statement returns its rows are parameters.

`dafny verify dfyconfig.toml` checks everything.

## Where the code and its comments part

- The seat count can drift when a webhook and a verification confirm the same booking at once: the booking's status is
  read before the plan is locked and not again. The capacity bound on distinct people survives; the exact count does
  not (`RacingConfirmationsMiscount`; exactly when: `ExactOverHistoriesIff`).
- An unexpired payment hold is not always honoured: one person can hold an offer and a payment hold and is counted
  twice (`HoldNotHonoured`; exactly when: `HoldHonouredIff`).
- Nor is an unexpired offer: a claim that began before somebody else's offer lapsed and gets the plan after that seat
  was offered on counts both rows (`EarlyClaimTurnedAway`; exactly when: `OfferClaimedIff`).
- "Replays are harmless" is true only while the seat stays gone or the booking stays settled: a replayed capture after
  a refund can seat the booking with the money returned (`ReplaySeatsForFree`; exactly when: `ReplayHarmlessIff`).
- "The total can never exceed what was paid" fails when a late success notice revives an attempt marked failed
  (`LateSuccessOverdraws`; exactly when: `RefundsBoundedOverRunsIff`).
- An order covered by credits whose seat is gone stays settled and keeps the credits (`CoveredCreditsStaySpent`;
  exactly when: `CoveredSeatsIff`).
- A payment that lands on an order closed meanwhile seats the booking although the credits it was reduced by have been
  given back (`UnderpaidSeat`; exactly when: `HonestCaptureIsPaidForIff`).
- A job that runs inside cancel_future can leave published occurrences behind (`SlippedExtendLeavesOne`; exactly when:
  `SlippedExtendIff`).
- UNTIL=00010101 is the zero time and bounds nothing (`ZeroUntilIsAccepted`, `UntilBoundsIff`).
- A join that began earlier and commits later overtakes in the queue (`EarlierStampOvertakes`; exactly when:
  `OvertakenIff`).

## Model

| member | source | states |
|---|---|---|
| SeatSafety.SeatBoundOverRuns | internal/bookings/repository.go:60-254 | In every state of every run from empty tables, at every later clock value: the seat count is the number of bookings in confirmed, attended or no_show, is never negative, and with one seat for each distinct person holding an unexpired offer or payment hold (and no seat) stays within capacity; every confirmed participant row names a seated booking of that plan and person |
| SeatSafety.StepKeeps | internal/bookings/waitlist.go:41-120 | Every transaction - booking, payment, cancellation, check-in, no-shows, joining, leaving, sweeping, plan changes, the clock - keeps that invariant, whatever its frozen now() and its own wall clock read |
| SeatSafety.CreateKeeps | internal/bookings/repository.go:64-167 | Booking keeps the exact count, the distinct-person bound and the links between rows, for free and paid plans, resumed and replaced holds |
| SeatSafety.ConfirmPaidKeeps | internal/bookings/repository.go:208-254 | Confirming a payment keeps them too, also for a booking that had been cancelled |
| SeatSafety.CancelKeeps | internal/bookings/repository.go:404-470 | Giving a seat back and offering it on in the same transaction keeps them |
| SeatSafety.OfferFreedKeeps | internal/bookings/waitlist.go:57-120 | Offers never reserve more than the seats nobody has or holds |
| SeatSafety.WithinIsSmall | internal/bookings/waitlist.go:75-90 | At most as many people as there are free seats stand within the positions an offer run serves |
| SeatTables.HoldUsersAtMostRows | internal/bookings/waitlist.go:41-52 | Counting hold rows never undercounts the people behind them |
| SeatTables.HoldsLapse | internal/bookings/waitlist.go:38-52 | As time passes holds only lapse: no row, person or holder appears without a write |
| SeatGuarantees.RowsArePeoplePlusDoubles | internal/bookings/waitlist.go:44-48 | The row count activeHolds returns is exactly the number of people plus those who hold an offer and a payment hold at once |
| SeatGuarantees.OfferClaimedIff | internal/bookings/repository.go:89-108 | On a published zero-price plan, a person with an unexpired offer who claims in a transaction that began at any time up to now is booked if and only if the seats taken, the live offers and the offers of others that lapsed since it began fit the plan; otherwise the answer is plan-full, never already-booked |
| SeatGuarantees.OfferIsClaimable | internal/bookings/repository.go:89-108 | So they are always booked unless somebody else's offer lapsed between the start of their transaction and now |
| SeatGuarantees.EarlyClaimTurnedAway | internal/bookings/waitlist.go:38-52 | It does happen: from a legal state an offer run and then a claim that began before a lapse, answered plan-full although the offer is alive |
| SeatGuarantees.OfferStandsOverRuns | internal/bookings/waitlist.go:66-90 | The offer and that condition survive any run of other people's transactions until the offer expires or the plan closes; a claim that begins at the end of the run is booked |
| SeatGuarantees.HoldHonouredIff | internal/bookings/repository.go:228-242 | Confirming a waiting or cancelled booking, in a transaction begun at any time, seats it if and only if the plan is published and the others holding something at that time, each counted again for a second row, leave a seat |
| SeatGuarantees.HoldHonoured | internal/bookings/repository.go:114-147 | An unexpired payment hold on a published plan can always be confirmed when nobody else holds two rows, no holder already sits, and nobody else stopped holding since the transaction began |
| SeatGuarantees.HoldNotHonoured | internal/bookings/repository.go:135-146 | In general it cannot: a concrete legal state and two bookings after which a live hold is turned away |
| SeatGuarantees.ClosedPlanStays | internal/bookings/repository.go:86-88 | Once a plan is not published, no transaction publishes it again, raises its count, or makes a hold or offer on it |
| SeatGuarantees.ClosedPlanOverRuns | internal/bookings/repository.go:240-242 | The same over whole runs: later holds and offers are all rows that were there before |
| SeatQueue.PositionsAreOneToN | internal/bookings/waitlist.go:244-257 | Reported waitlist positions are exactly 1..N, each once, for N people waiting |
| SeatQueue.WithinCount | internal/bookings/waitlist.go:75-86 | An offer run serves exactly min(free seats, people waiting) people |
| SeatQueue.OffersGoToTheHead | internal/bookings/waitlist.go:80-90 | Whoever still waits after an offer run stood behind everybody it served |
| SeatQueue.OvertakenIff | internal/bookings/waitlist.go:174-185 | Whoever waits before and after a transaction moves one place back exactly when it is a join on their plan that queues a new or returning caller with an earlier (created_at, id), and never otherwise |
| SeatQueue.NeverMovesBackIff | internal/bookings/waitlist.go:244-250 | Over any run in which somebody keeps waiting, their position never grows between any two moments if and only if no such join happens |
| SeatQueue.PositionGrowsByOvertakings | internal/bookings/waitlist.go:244-250 | ... and it grows by no more than the number of such joins |
| SeatQueue.PositionNeverGrowsOverRuns | internal/bookings/waitlist.go:174-185 | With a strictly advancing clock - joins stamped later than everybody waiting on the plan - it never grows |
| SeatQueue.EarlierStampOvertakes | internal/bookings/waitlist.go:176-181 | Without it, it does: from a legal state, a join whose transaction began earlier but got the plan later takes the place in front |
| SeatBulk.SweepNext | internal/bookings/waitlist.go:338-343 | Plans swept one after another do not disturb each other: any order gives the same rows |
| SeatBulk.SeatsAreArrivals | internal/bookings/service.go:84-95 | With nobody confirmed any more, the seat count is the number of people who attended or did not show up |
| SeatStore.Store.CountHolds | internal/bookings/waitlist.go:41-52 | Returns the number of unexpired offers and payment holds of everybody else, never less than the people behind them |
| SeatStore.Store.FindActive | internal/bookings/repository.go:338-353 | Finds a confirmed booking exactly when the person has one |
| SeatStore.Store.Create | internal/bookings/repository.go:64-167 | Answers and changes every table as the booking rule says - refused, resumed, held or booked - and announces exactly the seats taken; a booked seat writes the participant row confirmed, unchecked and for that booking, and no other row of the table |
| SeatStore.Store.ResumeOrHold | internal/bookings/repository.go:114-147 | Answers with the person's own unexpired hold if there is one, else writes a new one in place of any older |
| SeatStore.Store.SeatConfirmedBooking | internal/bookings/repository.go:172-203 | Writes the person's participant row - that booking, confirmed, not checked in - and one more on the plan's count, no other row of either; consumes the waitlist entry and announces it |
| SeatStore.Store.ConfirmPaid | internal/bookings/repository.go:208-254 | Seats the booking, with its participant row, or says precisely why not and leaves every row alone |
| SeatStore.Store.HeadOfQueue | internal/bookings/waitlist.go:80-87 | Finds exactly the rows whose position is within the limit, in queue order |
| SeatStore.Store.OfferFreedSeats | internal/bookings/waitlist.go:57-120 | Offers go to exactly those rows, one notice each, never more than the free seats |
| SeatStore.Store.OfferForPlan | internal/bookings/waitlist.go:346-359 | The same under the plan lock, with exactly one notice for each person newly offered; a missing plan changes nothing |
| SeatStore.Store.Cancel | internal/bookings/repository.go:404-470 | Gives the seat back, offers it on with one notice each, and announces 100 percent if the host cancels or at least 24 hours are left at that moment, otherwise 0 |
| SeatStore.Store.ExpirePending | internal/bookings/repository.go:257-265 | Releases exactly the holds whose time is up and returns their number |
| SeatStore.Store.CheckIn | internal/bookings/repository.go:475-513 | Marks attendance only for a confirmed booking |
| SeatStore.Store.MarkNoShows | internal/bookings/lifecycle.go:70-111 | Marks exactly the confirmed bookings of plans that ended long enough ago and used check-in, one event each |
| SeatStore.Store.CompleteEndedPlans | internal/bookings/lifecycle.go:23-58 | Completes exactly the published plans past a valid end, one event each |
| SeatStore.Store.WaitlistStatus | internal/bookings/waitlist.go:222-260 | Reports a live offer, or the place and length of the queue, or nothing |
| SeatStore.Store.JoinWaitlist | internal/bookings/waitlist.go:134-195 | Queues the caller only for a full plan; a waiting entry keeps its place, a finished one goes to the back |
| SeatStore.Store.LeaveWaitlist | internal/bookings/waitlist.go:199-220 | Leaves the queue and passes a released seat on at once, with exactly one notice for each person newly offered |
| SeatStore.Store.SweepWaitlist | internal/bookings/waitlist.go:310-344 | Expires every stale offer and re-offers on each plan concerned; returns how many expired, and notifies exactly those newly offered, once each |
| SeatStore.Store.ExpireWaitlistForPlan | internal/bookings/waitlist.go:363-368 | Ends every waiting or offered entry of the plan |
| SeatStore.Store.CancelPlan | internal/plans/repository.go:259-289 | Cancels the plan and announces it |
| SeatStore.Store.CancelAllForPlan | internal/bookings/service.go:84-95 | Run to completion leaves no confirmed booking of a closed plan, a full-refund event for each, attendance untouched |
| SeatStore.Store.HandlePlanCancelled | cmd/worker/handlers.go:119-129 | The whole fan-out: nobody confirmed, waiting or offered; the count equals attended plus no-shows |
| SeatInterleavingSafety.InterleavingNeverOverfills | internal/bookings/repository.go:64-254 | For any number of booking, payment, cancellation and offer transactions interleaved statement by statement under the plan-row lock, rolled back anywhere: in every committed state the count plus one seat per distinct holder stays within capacity |
| SeatInterleavingSafety.NextKeeps | internal/bookings/waitlist.go:57-120 | Each single statement, commit, rollback, background job, join or tick of the clock keeps the facts every open transaction relies on |
| SeatInterleavingSafety.StatementKeeps | internal/bookings/repository.go:64-254 | Each statement takes its own transaction from one stage's facts to the next stage's |
| SeatInterleavingSafety.CommitFits | internal/bookings/repository.go:208-254 | Every commit leaves the plan within capacity |
| SeatInterleavingSafety.CommitStable | internal/bookings/waitlist.go:54-57 | A commit leaves standing what every other open transaction has read and locked |
| SeatInterleavingSafety.GuardMakesRoom | internal/bookings/repository.go:91-97 | Past the capacity check there is room for one more person until the lock is released |
| SeatInterleavingSafety.CountMakesSpares | internal/bookings/waitlist.go:71-78 | The free seats an offer run computed stay free until it commits |
| SeatInterleavingSafety.BookingJobsAreQuiet | internal/bookings/repository.go:257-265 | The single-statement booking jobs only ever release seats |
| SeatInterleavingSafety.PlanJobsAreQuiet | internal/bookings/lifecycle.go:30-33 | So do the plan and waitlist jobs |
| SeatInterleavingAccounting.SeatingExactIff | internal/bookings/repository.go:217-247 | A commit that seats a booking keeps the count exact if and only if the row found under the lock was not seated yet |
| SeatInterleavingAccounting.MoveDrifts | internal/bookings/repository.go:172-254 | Every move of any interleaving - statement, commit, rollback, job, join, clock - leaves the count as far from the seated bookings as it was, except that seating a booking found seated adds one |
| SeatInterleavingAccounting.ExactOverHistoriesIff | internal/bookings/repository.go:215-247 | From an exact count, a committed state of any history counts exactly the seated bookings if and only if no commit before it seated a booking that was already seated when found under the lock |
| SeatInterleavingAccounting.RacingConfirmationsMiscount | internal/bookings/repository.go:215-233 | A history from a legal, exact state in which a webhook and a verification both confirm one booking: the count says two, one booking is seated |
| SeatInterleavingRefinement.CreateRefines | internal/bookings/repository.go:64-167 | Booking run statement by statement with nobody in between leaves the seat rows its rule gives, and is rolled back exactly when the rule refuses |
| SeatInterleavingRefinement.ConfirmPaidRefines | internal/bookings/repository.go:208-254 | So does confirming a payment: it commits exactly when it seats the booking |
| SeatInterleavingRefinement.CancelRefines | internal/bookings/repository.go:404-470 | So does giving a booking back, the offers it makes included |
| SeatInterleavingRefinement.OfferForPlanRefines | internal/bookings/waitlist.go:346-359 | So does an offer run |
| SeatInterleavingRefinement.LeaveRefines | internal/bookings/waitlist.go:199-220 | So does leaving the queue |
| CaptureLaws.RepeatsChangeNothing | internal/payments/repository.go:142-183 | Any sequence of capture calls leaves the ledger that the sequence leaves with every later repeat and every refused call removed |
| CaptureLaws.SameCallsSameLedger | internal/payments/repository.go:136-183 | Calls that agree on what they report can be repeated and reordered freely: same orders, same payments, same reconciliation entries |
| CaptureLaws.CapturesKeep | internal/payments/repository.go:166-175 | One payment per gateway id and exactly one matching reconciliation entry per payment, after any calls |
| CaptureLaws.FirstNoticeWins | internal/payments/repository.go:159-164 | Whatever the notices say and in whatever order, the payment recorded under a gateway id is the first notice about it that the tables take |
| CaptureLaws.NoNoticeNoPayment | internal/payments/repository.go:154-165 | ... and there is none when no notice about it is taken |
| RefundLaws.RefundsBoundedOverRunsIff | internal/payments/repository.go:376-438 | Over any run of attempts, gateway answers, webhooks and captures, the non-failed refunds of every payment stay within what was captured at every moment if and only if no write revives a failed attempt that no longer fits |
| RefundLaws.StepBoundIff | internal/payments/repository.go:378-410 | The same step by step |
| RefundLaws.LateSuccessOverdraws | internal/payments/repository.go:435-438 | A timed-out attempt retried, then the late success notice: twice the payment is recorded as returned |
| RefundLaws.RedeliveryConverges | internal/payments/service.go:289-310 | Redelivered cancellation events, in any order, with any gateway failures between, end at the larger of the earlier total and the largest accepted target, touching no other payment |
| RefundLaws.BookingRedeliveryConverges | internal/payments/repository.go:246-262 | The same for a booking: the payment the worker finds never changes on the way |
| RefundLaws.BestTargetIsLargest | internal/payments/service.go:300-305 | That target is reached by an accepted delivery, bounds all of them, and is between nothing and the whole payment |
| RefundLaws.TargetWithin | internal/payments/service.go:300-300 | A percentage of a payment is never negative and never more than the payment |
| WalletLaws.NoDebtOverRuns | internal/payments/repository.go:306-366 | Over any run of grants, rewards, boosts, coupons, orders, cancellations, captures and refunds: no balance is negative, no coupon exceeds its uses, nobody is referred twice or by themselves or refers more than twenty, boosts never overlap and free ones are a week apart, and payments and refunds stay linked and in order |
| WalletLaws.OrderOverRuns | internal/payments/repository.go:341-365 | An order's amount plus the credits it took is what was asked for, for ever; its net effect on the ledger is minus those credits until it is first cancelled and nothing ever after |
| WalletLaws.BalanceIsAccountedFor | migrations/0023_marketplace.up.sql:38-48 | A balance is what was granted plus the rewards of the referrals on record, less what the boosts on record cost and what orders hold |
| WalletLaws.StepKeeps | internal/payments/repository.go:313-316 | Every writer of the ledger keeps all of this |
| WalletLaws.ReversalsEffect | internal/payments/repository.go:490-499 | Cancelling orders gives each back exactly what it took, touches no other order and lowers no balance |
| WalletLaws.CancelOrdersKeeps | internal/payments/repository.go:470-501 | ... and keeps the invariant |
| WalletLaws.ReferKeeps | internal/referral/repository.go:96-157 | A referral keeps the cap, the once-only rule and the agreement of ledger and table |
| WalletLaws.BoostKeeps | internal/meet/repository.go:348-383 | A boost keeps the spacing of boosts and never overdraws |
| WalletLaws.OrderEffect | internal/payments/repository.go:317-366 | The credits taken and the amount charged add up, and no other order is touched |
| SettlementLaws.FirstCaptureSettles | internal/payments/service.go:136-158 | A first capture of a positive amount for a pending or cancelled booking ends in exactly one of two states - booking confirmed and nothing refunded, or every seat row untouched and the whole amount refunded - decided by whether the seat can be had; capacity holds in both |
| SettlementLaws.ReceiveKeeps | internal/payments/service.go:136-158 | Any capture, first or replayed, whatever the gateway answers, keeps every invariant of seats and money |
| SettlementLaws.ReplayHarmlessIff | internal/payments/service.go:133-135 | A replay changes nothing if and only if the booking cannot be seated by it and nothing is left to send back |
| SettlementLaws.ReplaySeatsForFree | internal/payments/service.go:145-156 | It is not always harmless: after a refund, a seat freed since lets a replay confirm the booking with the money returned |
| SettlementLaws.LateIsLegal | internal/payments/service.go:145-156 | ... and the state in which that happens meets every invariant of seats and money |
| SettlementLaws.CheckoutAddsUp | internal/payments/service.go:62-131 | Price plus fee is met exactly by coupon, credits and charge, none negative, the fee at most 4900, credits within the balance; nothing is charged exactly when it is covered |
| SettlementLaws.AtMostOneOpenOrder | internal/payments/service.go:81-84 | After checkout a booking has at most one open order: the new one |
| SettlementLaws.RefusalCostsNothing | internal/payments/service.go:120-125 | When the gateway refuses, the order nets to nothing and every balance is back |
| SettlementLaws.OrderUndone | internal/payments/repository.go:454-456 | Placing an order and cancelling it restores every balance |
| SettlementLaws.CoveredSeatsIff | internal/payments/service.go:99-109 | A covered order is settled either way; the booking is seated if and only if the seat can be had |
| SettlementLaws.PaidOrderKeepsCredits | internal/payments/repository.go:447-451 | Credits spent on a settled order are never given back by anything that follows |
| SettlementGaps.CoveredCreditsStaySpent | internal/payments/service.go:99-109 | A legal state in which checkout is covered by credits, the seat is gone, no seat row changes and the credits are spent |
| SettlementGaps.TheyAreNeverGivenBack | internal/payments/repository.go:470-476 | ... for good, in every run of the money tables from there |
| SettlementGaps.SeatedIsPaidForIff | internal/payments/repository.go:166-170 | The first capture of an order that seats its booking brings in what the order was for - captured less refunded, plus the credits the order holds - if and only if it is for what the order asks and, if the order had been cancelled, for the credits given back too |
| SettlementGaps.HonestCaptureIsPaidForIff | internal/payments/repository.go:490-499 | So a capture of just what the order asks for pays for the seat if and only if the order was not cancelled, its credits given back, before |
| SettlementGaps.UnderpaidSeat | internal/payments/service.go:207-210 | It happens from a legal state: checkout takes 300 credits, the hold runs out and the order is closed, the payment of 225 lands and seats a booking charged 525 |
| SettlementLaws.CheckoutKeeps | internal/payments/service.go:62-131 | Checkout keeps the seat and wallet invariants, whatever it answers |
| PaymentStore.Payments.RecordCapture | internal/payments/repository.go:142-183 | Records a payment once per gateway id, pays its order, writes one entry; refuses unknown orders and amounts that are not positive |
| PaymentStore.Payments.TotalRefunded | internal/payments/repository.go:440-445 | The sum of a payment's attempts that did not fail |
| PaymentStore.Payments.BeginRefund | internal/payments/repository.go:378-410 | Starts an attempt exactly when it fits under what was captured |
| PaymentStore.Payments.SetRefundStatus | internal/payments/repository.go:434-438 | Writes a status unconditionally; ids that are not ours are ignored |
| PaymentStore.Payments.CompleteRefund | internal/payments/repository.go:418-432 | Settles an attempt and writes its entry |
| PaymentStore.Payments.Refund | internal/payments/service.go:266-285 | Attempt, gateway, settlement: money moves only when the attempt fits and the gateway accepts |
| PaymentStore.Payments.FindCaptured | internal/payments/repository.go:246-262 | The latest payment of any of the booking's orders, if there is one |
| PaymentStore.Payments.RefundBooking | internal/payments/service.go:289-310 | Tops the refund up to the percentage; nothing when nothing is owed |
| PaymentStore.Payments.RecordRefundResult | internal/payments/service.go:321-333 | Applies the gateway's word; unknown words change nothing |
| PaymentStore.Payments.MarkCaptured | internal/payments/service.go:136-158 | Seats and ledger end as the capture rule says, in place |
| PaymentStore.Payments.CreditBalance | internal/payments/repository.go:368-374 | The sum of the person's ledger rows |
| PaymentStore.Payments.ReserveCoupon | internal/payments/repository.go:268-304 | Takes one use of a redeemable coupon; a fixed one takes off the smaller of value and amount, a percentage its share rounded down, at most the amount |
| PaymentStore.Payments.CreateOrderWithCredits | internal/payments/repository.go:317-366 | Order and spend together, or neither |
| PaymentStore.Payments.SpentOn | internal/payments/repository.go:492-496 | Who spent on an order and how much |
| PaymentStore.Payments.CancelUnpaid | internal/payments/repository.go:470-501 | Closes each open order once and reverses what it took |
| PaymentStore.Payments.CancelUnpaidForBooking | internal/payments/repository.go:453-456 | Exactly the booking's open orders |
| PaymentStore.Payments.ReleaseAbandoned | internal/payments/repository.go:458-468 | Exactly the open orders of bookings that no longer wait for payment |
| PaymentStore.Payments.MarkOrderPaid | internal/payments/repository.go:447-451 | Settles an order |
| PaymentStore.Payments.CreateOrder | internal/payments/service.go:62-131 | The whole of checkout in the code's order of writes, with every refusal; the order then asks for price plus fee less coupon less credits |
| PaymentStore.Payments.ApplyReferral | internal/referral/repository.go:96-157 | Finds whose code it is and rewards both sides exactly when the rules allow; otherwise says why and writes nothing |
| PaymentStore.Payments.BoostStatus | internal/meet/repository.go:326-344 | Whether a boost is running, whether a free one is due, and the balance |
| PaymentStore.Payments.ActivateBoost | internal/meet/repository.go:348-383 | Starts a free or paid boost, or refuses without a write |
| SeatOutcomes.CreateAnswers | internal/bookings/repository.go:78-131 | Which of its six answers booking gives, told by the rows: taken seats plus other people's unexpired offers and payment holds, an own confirmed booking, the price, an own unexpired hold |
| SeatOutcomes.BookedSits | internal/bookings/repository.go:149-203 | A booked seat: the person's participant row names the new booking, is confirmed and not checked in; the plan counts one more; a live waitlist row is used up; every other row of every table is as it was |
| SeatOutcomes.PaidSits | internal/bookings/repository.go:243-254 | The same for a confirmed payment, which also clears the booking's expiry and keeps its price |
| SeatOutcomes.ConfirmAnswers | internal/bookings/repository.go:215-242 | Which of its four answers confirming a payment gives, told by the rows |
| SeatOutcomes.HeldOutcome | internal/bookings/repository.go:133-147 | A hold is one new row that expires in fifteen minutes; the person's older holds on the plan are cancelled; nothing else changes |
| SeatOutcomes.HoldLasts | internal/bookings/repository.go:135-146 | It keeps a seat from everybody else for 900 seconds, to the moment |
| SeatOutcomes.OfferOutcome | internal/bookings/waitlist.go:57-104 | Offers, good for 1800 seconds, go to exactly those with fewer people ahead of them than there are seats neither taken nor reserved, never on a closed or started plan; nothing else changes |
| SeatOutcomes.FreeSeatOutcome | internal/bookings/repository.go:426-452 | Giving a seat back: that booking cancelled, its plan one less, its participant rows no longer confirmed, all else as it was |
| SeatOutcomes.RefundShares | internal/bookings/repository.go:387-397 | The whole payment when the host cancels or at least 86400 seconds are left, otherwise nothing; a later cancellation never returns more |
| SeatOutcomes.NoShowOutcome | internal/bookings/lifecycle.go:70-96 | Exactly the confirmed bookings of plans with a real end more than 7200 seconds ago on which somebody was checked in |
| SeatOutcomes.ViewOutcome | internal/bookings/waitlist.go:222-260 | The position is one more than the number of people who joined before, by time and then by id; a lapsed offer shows as nothing |
| SeatOutcomes.JoinAnswers | internal/bookings/waitlist.go:134-171 | Which of its five answers joining gives, other people's reservations counted |
| SeatBulk.SweepOutcome | internal/bookings/waitlist.go:310-344 | After a sweep the offers whose time was up have expired, and on every plan that had one the people next in line for its free seats have a new one; nothing else changed |
| SeatParticipants.StepFollows | internal/bookings/repository.go:172-190 | After any transaction a participant row names whoever just sat down, loses its confirmation exactly when its own booking was given back, and is otherwise as it was |
| SeatParticipants.ParticipatesIff | internal/bookings/repository.go:176-181 | After any run from empty tables a person is a confirmed participant of a plan if and only if some booking sat down for them, nothing sat down for them since, and it has not been cancelled since; the row names that booking |
| MoneyOutcomes.CaptureOutcome | internal/payments/repository.go:142-183 | Which of its four answers a capture gives; a taken one adds exactly one payment, the latest, pays its order and writes one entry |
| MoneyOutcomes.ReceiveOutcome | internal/payments/service.go:136-158 | The booking is confirmed, or - waiting or cancelled on a plan without room - the payment goes back; refused calls change nothing |
| MoneyOutcomes.RefundedMeans | internal/payments/repository.go:440-445 | Pending and processed attempts count, failed ones do not |
| MoneyOutcomes.BeginOutcome | internal/payments/repository.go:378-410 | An attempt starts exactly when it is positive and fits what is left |
| MoneyOutcomes.RefundOutcome | internal/payments/service.go:266-285 | One attempt, settled or failed as the gateway answers; an entry only for a settled one |
| MoneyOutcomes.NoticeOutcome | internal/payments/service.go:321-333 | SUCCESS settles, FAILED and CANCELLED fail that attempt, other words do nothing |
| MoneyOutcomes.LatestMeans | internal/payments/repository.go:246-262 | The payment a booking's refund goes to is the last recorded of its own orders' payments |
| MoneyOutcomes.NewestIsLatest | internal/payments/repository.go:246-262 | A payment just captured for the booking is that payment |
| MoneyOutcomes.TargetMeans | internal/payments/service.go:300-300 | A percentage is rounded down, and never more than everything or less than nothing |
| MoneyOutcomes.BookingRefundOutcome | internal/payments/service.go:289-310 | The latest payment is topped up to the percentage, which always fits; otherwise nothing happens |
| MoneyOutcomes.CancellationReturns | internal/bookings/repository.go:387-397 | A guest who cancels at least 24 hours ahead, and anybody whose host cancels, ends with the whole captured payment returned and no other payment touched; a guest who cancels later gets nothing |
| MoneyOutcomes.DiscountMeans | internal/payments/repository.go:284-291 | A fixed coupon takes off the smaller of its value and the amount; up to 100 percent the discount d has 100 d <= amount * percent < 100 (d + 1); above it is the amount |
| MoneyOutcomes.ReserveOutcome | internal/payments/repository.go:272-300 | A coupon is usable when active, unexpired and not used up; one use is counted and no other coupon touched |
| MoneyOutcomes.OrderOutcome | internal/payments/repository.go:317-366 | Credits pay as much of the amount as the balance reaches; one order and, for credits, one row |
| MoneyOutcomes.ReversalsOutcome | internal/payments/repository.go:490-499 | Every row a cancellation adds gives back, on one of those orders, to somebody who spent on it |
| MoneyOutcomes.FeeMeans | internal/bookings/service.go:16-20 | One part in twenty, rounded down, and 4900 from 98000 on |
| MoneyOutcomes.PlacedOutcome | internal/payments/service.go:66-98 | The one order checkout writes asks for the price and the fee, less the coupon, less the credits, counted after earlier orders gave theirs back; those orders are closed and one credit row stands for the credits |
| MoneyOutcomes.CheckoutAnswers | internal/payments/service.go:62-131 | Which of its eight answers checkout gives: unknown, not the owner's, not waiting or free, unusable coupon; then covered exactly when the bill comes to nothing, else as the gateway answers |
| MoneyOutcomes.ReferOutcome | internal/referral/repository.go:96-157 | The six answers in order - 604800 seconds since signing up, twenty referrals per referrer, once per person - and 10000 to each side |
| MoneyOutcomes.BoostOutcome | internal/meet/repository.go:326-383 | 1800 seconds for 1900, or free when no free boost began in the last 604800 seconds; refused while one runs or without the credits |
| Recurrence.ParseRule | internal/plans/recurrence.go:27-67 | Reads the text part by part; whatever it accepts is a well-formed rule |
| Recurrence.ParseAcceptsIff | internal/plans/recurrence.go:27-67 | A text is a rule if and only if every part reads well, some part gives the frequency and it is not bounded both ways; the rule says what the last part of each key said |
| Recurrence.FormatParseRoundTrip | internal/plans/recurrence.go:14-25 | Every rule that can be stated is written and read back unchanged |
| Recurrence.UntilBoundsIff | internal/plans/recurrence.go:53-66 | In every accepted text an UNTIL part ends the series if and only if its last one is not 00010101, the zero time; only beside that may a COUNT stand |
| Recurrence.ZeroUntilIsAccepted | internal/plans/recurrence.go:53-66 | And such texts are accepted: every frequency, interval and count with UNTIL=00010101 reads as a rule bounded by its COUNT alone |
| Calendar.CivilRoundTrip | internal/plans/recurrence.go:86-91 | Every day number, of every year before or after zero, is the day number of a valid date |
| Calendar.DayNumberRoundTrip | internal/plans/recurrence.go:75-76 | Every valid date is the date of its day number |
| Calendar.OrderMatches | internal/plans/recurrence.go:98-103 | Dates are ordered as their day numbers are |
| Occurrences.ListOccurrences | internal/plans/recurrence.go:74-111 | The loop with its skips and breaks returns exactly the listed steps |
| Occurrences.ExpandIsExact | internal/plans/recurrence.go:69-111 | Strictly increasing, at the template's time of day, at most COUNT, and exactly the steps (below 2000) whose month has the day within COUNT, UNTIL and horizon |
| Occurrences.SmallerHorizonIsPrefix | internal/plans/recurrence.go:95-97 | A smaller horizon gives a prefix: the same times up to it |
| Occurrences.TemplateComesFirst | internal/plans/recurrence.go:69-78 | Whenever anything is listed, the template's own start is first |
| Occurrences.RollsOver | internal/plans/recurrence.go:89-93 | A day past the month's end is given away by the rolled-over date, and only then |
| Occurrences.StepsIncrease | internal/plans/recurrence.go:81-90 | Later steps are later days, in every frequency, across months and years |
| Series.Store.ExtendSeries | internal/plans/series.go:16-81 | Inserts exactly what is due and missing, and counts it |
| Series.Store.InsertOccurrences | internal/plans/series.go:48-70 | The insert loop with its skips equals one insert of the whole set |
| Series.Store.ExtendAllSeries | internal/plans/series.go:83-112 | Extends exactly the active, unended series, whatever their order, and counts; stops with an error at the first whose rule does not read, the ones before it extended |
| Series.Store.FutureOccurrences | internal/plans/series.go:114-134 | Exactly the published occurrences at or after the given one, in order of start |
| Series.Store.EndSeriesFrom | internal/plans/series.go:136-142 | The end only ever moves earlier |
| Series.Store.CancelPlan | internal/plans/service.go:410-440 | One occurrence, or it and its whole published future and the series' end |
| SeriesLaws.ExtendTwice | internal/plans/series.go:13-16 | Extending at two times in either order is extending once at the later |
| SeriesLaws.RepeatedJobsConverge | internal/plans/series.go:16-81 | Any number of runs in any order leave the rows of one run at the latest time; a repeat creates nothing |
| SeriesLaws.ExtendOnlyAdds | internal/plans/series.go:53-64 | Rows that exist, the template's among them, stay as they are; what is added is published and due |
| SeriesLaws.NothingReappears | internal/plans/service.go:424-438 | After cancel_future no later state of any run has a published plan of the series at or after that start |
| SeriesLaws.SlippedExtendIff | internal/plans/service.go:431-436 | With a job between the cancellations and the end, the series ends as it should if and only if every occurrence due at or after the start was a row already, or the series is switched off |
| SeriesLaws.SlippedExtendLeavesOne | internal/plans/service.go:429-436 | It does not always: a daily series, created by a run, keeps a published occurrence two months on |
| SeriesLaws.StoredRulesRead | internal/plans/service.go:138-142 | Every stored rule reads, so the hourly job never stops at one |
| SeriesLaws.EndedSeriesIsComplete | internal/plans/series.go:50-52 | Every occurrence before the end of an ended series is already a row: extending it changes nothing |
| SeriesLaws.SkippingEndedLosesNothing | internal/plans/series.go:84-86 | So the hourly job loses nothing by passing over ended series |
| CalendarLaws.MonthsAreLong | internal/plans/recurrence.go:86-91 | In every year each month's first day is 31, 28 or 29, 31, 30, 31, 30, 31, 31, 30, 31, 30 or 31 days before the next one's, 29 exactly in years divisible by 4 but not by 100, or by 400 |
| CalendarLaws.DayNumbersCount | internal/plans/recurrence.go:75-76 | 0001-01-01 is day 0, and the date after any date by those lengths has the next number |
| CalendarLaws.CivilCounts | internal/plans/recurrence.go:86-91 | And back: every number is a date on that calendar, followed by the date of the next number |
| CalendarLaws.KnownDays | internal/plans/recurrence_test.go:37-37 | Known days: the Unix epoch, leap days, and that 2026-10-03 is a Saturday |
| CalendarLaws.DatesAreRead | internal/plans/recurrence.go:53-58 | Exactly the eight-digit texts that spell a day on that calendar are read as dates |
| RecurrenceLaws.PartMeans | internal/plans/recurrence.go:29-61 | What each KEY=VALUE does, whatever its case: the three frequencies, INTERVAL 1 to 12, COUNT 1 to 104, UNTIL a date; nothing else is read |
| RecurrenceLaws.StepMeans | internal/plans/recurrence.go:81-93 | Step i lies i intervals of days or weeks on, or on the same day of the month i intervals of months on; there is such a day unless that month is too short |
| RecurrenceLaws.UntilMeans | internal/plans/recurrence.go:98-104 | UNTIL lets its own day through and no later one |
| RecurrenceLaws.ListedMeans | internal/plans/recurrence.go:74-111 | A time is listed if and only if it is that of one of the first 2000 steps, whole days of 24 hours from the template, within horizon, UNTIL and COUNT |
| RecurrenceLaws.ThirtyFirsts | internal/plans/recurrence_test.go:68-78 | From 31 January 2026, monthly: January, March, May, July |
| Text.CutMeans | internal/plans/recurrence.go:30-33 | Around the first separator, if there is one |
| Text.IntegersAre | internal/plans/recurrence.go:42-49 | Digits, with or without a sign, and nothing else |
| SeriesOutcomes.ExtendOutcome | internal/plans/series.go:16-81 | Adds, published, exactly the occurrences within sixty days of an active series before its end that are not rows yet; no row is touched |
| SeriesOutcomes.ExtendAllOutcome | internal/plans/series.go:83-112 | The same for every active series without an end, and no other |
| SeriesOutcomes.CreateOutcome | internal/plans/service.go:138-170 | A rule that does not read creates nothing; otherwise template, own row and what it reaches |
| SeriesOutcomes.CancelFutureOutcome | internal/plans/service.go:424-438 | Exactly the published rows of the series from that start on are cancelled, and its end moves there unless it was earlier |
| Groups.BuildGroups | internal/smartgroups/balance.go:21-41 | ceil(n/target) groups, together a permutation, none empty or above target, sizes and the members of every interest key within one of each other in any two groups; nothing for no people or no target |
| Groups.SharesAreEven | internal/smartgroups/balance.go:36-39 | Any run of consecutive places is dealt out evenly to within one |
| Groups.DealLosesNobody | internal/smartgroups/balance.go:37-39 | Dealing loses and duplicates nobody |
| Groups.SortByKey | internal/smartgroups/balance.go:26-30 | A sorted permutation |
| Exif.ExifOrientation | internal/media/image.go:81-102 | Ends in bounds on every byte string with a result in 1..8, and 1 for whatever does not begin FF D8 |
| Exif.TiffOrientation | internal/media/image.go:104-132 | The same for the directory walk |
| Exif.StoredOrientationIsRead | internal/media/image.go:80-102 | The orientation of every well-formed Exif header, in either byte order, behind any other segments and before anything at all, is the one read |
| Exif.TiffRoundTrip | internal/media/image.go:104-132 | Wherever the directory stands and wherever the tag stands in it |
| Rotation.Rotate | internal/media/image.go:148-172 | The buffer written pixel by pixel shows the turned picture |
| Rotation.TurnedIsUnique | internal/media/image.go:158-170 | Where each pixel goes determines the picture |
| Rotation.QuarterThenThree | internal/media/image.go:162-168 | 90 then 270, and 270 then 90, is the identity for every size |
| Rotation.QuarterTwice | internal/media/image.go:162-166 | 90 twice is 180 |
| Rotation.HalfTwice | internal/media/image.go:164-165 | 180 twice is the identity |
| Rotation.OrientIsUprightUpToMirroring | internal/media/image.go:134-146 | By the meaning of the tag: 1, 3, 6 and 8 come out upright, 2, 4, 5 and 7 as the mirror image of upright |
| Rotation.FitKeepsProportion | internal/media/image.go:60-78 | Never larger, never empty, the longer edge exactly the limit, each edge in proportion rounded down but at least one pixel; fitting again changes nothing |
| Paging.DecodeUndoesEncode | internal/social/service.go:281-299 | Every token handed out is understood and names the post it was made from, the base64 layer included |
| Base64.DecodeUndoesEncode | internal/social/service.go:281-292 | Every text of bytes comes back from the unpadded URL encoding |
| Paging.GetPage | internal/social/service.go:346-364 | A page is the newest rows below the cursor, at most the limit (twenty when the size is not in 1 to 50), latest first, with a token exactly when something is left; bad tokens are refused |
| Paging.Query | internal/social/repository.go:228-262 | The newest rows below the cursor, newest first |
| Paging.WalkVisitsEachOnce | internal/social/service.go:169-191 | Following the tokens to the end visits every post that was in scope at the start exactly once, newest first, and nothing else, for any page sizes, while newer posts arrive |
| Paging.WalkEnds | internal/social/service.go:358-363 | Every page but the last is full, so a walk takes at most one request per post |
| Exif.WalkSegments | internal/media/image.go:85-101 | Walks the segments to the orientation of the file |
| ExifLaws.OrientationMeans | internal/media/image.go:80-102 | A file has an orientation v other than 1 if and only if it is a JPEG that stores v: segments neither Exif nor start of scan, then an Exif segment whose TIFF stores v, then anything |
| ExifLaws.TiffMeans | internal/media/image.go:104-132 | A TIFF gives v other than 1 if and only if it names its byte order, its directory lies inside, and the first entry there with tag 0x0112 lies inside and holds v |
| ExifLaws.OtherFilesAreUpright | internal/media/image.go:82-84 | Every byte string that does not begin FF D8 is upright, every PNG among them |
| ExifLaws.PlainFilesAreUpright | internal/media/image.go:85-101 | So is every JPEG without Exif before the scan, the end, or whatever cuts the segments short |
| ExifLaws.UntaggedIsUpright | internal/media/image.go:118-131 | And every well-formed TIFF without the tag |
| ExifLaws.SmallestHeader | internal/media/service_test.go:107-108 | The header byte for byte, for each of the eight |
| Groups.KeyMeans | internal/smartgroups/balance.go:28-29 | A key is the interests with commas between them, from which they can be read back |
| Rotation.Clockwise | internal/media/image.go:161-169 | Where each pixel lands when turned by 90, 180 and 270 degrees |
| Base64.Vectors | internal/social/service.go:281-283 | The test vectors of section 10 of RFC 4648 |
| Paging.NewerMeans | internal/social/repository.go:228-262 | Later first, then the greater id |
| Paging.TokensAre | internal/social/service.go:285-299 | Which tokens name which post, and that only the empty one starts at the top |

## Left out

- Admin status override: it writes a booking's status without touching the seat count, so no seat invariant survives it.
- Access checks, plan visibility and entitlement rules: single-branch conditions that come before the modelled calls.
- The idempotency key and its guard: a request that repeats its key is refused before the modelled call.
- Notifications, push, email, analytics, HTTP and gRPC handlers, webhook signatures: enqueueing an event is an append to the outbox.
- SQL text: a statement is its effect on the rows. UUIDs are numbers, and the order of ids that breaks ties is their order.
- Database errors other than the ones named: a failed transaction changes nothing.
- SeatInterleaving.Next: participant and outbox rows are not written in the statement-level machine (they hold no seat); JoinWaitlist appears as its single write; adding a plan does not appear; an offer statement may pick any waiting rows up to its limit, which covers SKIP LOCKED.
- SeatSafety.SeatBoundOverRuns: the exact seat count is for atomic transactions; ExactOverHistoriesIff says when it survives interleaving.
- SeatGuarantees.OfferClaimedIff: for zero-price plans; on paid plans HoldHonouredIff gives the exact condition.
- SeatQueue.PositionNeverGrowsOverRuns: needs joins to carry later stamps than the entries they queue behind; NeverMovesBackIff has the exact condition.
- SettlementGaps.SeatedIsPaidForIff: for the first capture of an order; a second gateway payment on the same order is outside it.
- WalletLaws.OrderOverRuns: credit transactions are atomic, and an order asks for an amount that is not negative (checkout never asks for less).
- PaymentStore.Payments.ReserveCoupon: the check of the coupon and the counting of its use are two statements in the code and one here.
- SettlementLaws.ReceiveKeeps: the payment service with bookings wired in; the worker's instance, which has none, only refunds.
- Verifying and reconciling an order at the gateway: each ends in the modelled capture or in confirming a paid booking.
- The service fee is computed in floating point; here it is the price divided by twenty, rounded down.
- Sixty-four-bit overflow of amounts: amounts are unbounded integers.
- Recurrence.ParseRule: upper-casing is ASCII and trimming knows the Latin-1 spaces; other alphabets' letters that upper-case to ASCII are not modelled.
- Occurrences.ListOccurrences: a zone has a fixed offset; daylight-saving transitions are not modelled.
- Series.Store.ExtendSeries: copying the template's other columns and listing community events.
- Groups.SortByKey: stands for the library sort; any sorted permutation would do, and group order within a key is not promised.
- Rotation.Rotate: pixels are copied as they are; the colour conversion of the target buffer, scaling itself and JPEG encoding are not modelled.
- Paging.DecodeUndoesEncode: an id is text of bytes, ordered as text.
- Paging.WalkVisitsEachOnce: posts deleted or hidden during a walk, and the ranked "for you" feed, which pages by offset.
