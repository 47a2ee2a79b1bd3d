# Verified model of the booking, billing and access core

This project models the parts of the system in which mistakes cost a customer a double booking,
money or an account, and proves what they keep.

* **Scheduling.** `BookingTime`, `BookingDomain` and `Pricing` give instants, entities and the
  base plan of a request. `Availability` says which starts a search may offer and compares the
  windowed search with the same question asked of the whole agenda. `SlotSearch` holds the loops
  of the search, `AppointmentStore` the table with its buffered exclusion constraint and its
  unique idempotency key, `BookingPort` the calls a customer makes. `BookingTheorems` relates the
  views, the confirmation and the reschedule; `BookingRuns` interleaves concurrent calls that act
  on stale reads; `BookingRefinement` ties the interleaving back to the loops.
* **Billing.** `BillingDomain` holds checkouts, subscriptions and provider events,
  `BillingSteps` what every call and every webhook does to them, `BillingService` the service
  that assigns the rows field by field and is proved to do just that. `BillingInvariants`,
  `BillingSafety` and `BillingRuns` prove what every run keeps, whatever the provider answers and
  in whatever order, however often, its events arrive; `BillingRefunds` counts the refund calls.
  `BillingLaws` says what single calls and events mean to a customer, `BillingUnblocking` which
  steps lift a block and `BillingPeriods` which lengthen a paid period. `Calendar` is the cycle
  arithmetic.
* **Access.** `RateLimiter` is the sliding-window login limiter with its deques and its evicting
  dictionary; `AuthSessions` and `AuthService` are the sessions and password-reset tokens.
* **Supporting.** `RouteCache` is the expiring route cache, `Recommender` the equipment choice,
  `Seqs` the shared facts about sequences.

Code that changes rows or fields in place is a class whose methods are proved against
specification functions; the laws are lemmas about those functions. `dafny verify dfyconfig.toml`
checks the whole project.

Where the code falls short of what a reader would expect, the model keeps the code and says so:

* A slot offered for rescheduling may be refused, because rescheduling stores the base plan while
  the offer was made with the schedule-aware one. `BookingTheorems.MoveSucceedsIff` gives the
  exact condition, `BookingTheorems.OfferedSlotMayNotBeReschedulable` a concrete case.
* A refund can be asked of the provider twice: the call times out, a late payment confirmation
  reopens the subscription, and reading the status resumes the refund.
  `BillingRefunds.RefundCanBeAskedTwice` is the run, and
  `BillingRefunds.RefundsAreAskedOnceExactlyWhen` says exactly which runs do it, by a condition on
  the state before each call.
* A billing cycle keeps the time of day, so it is monotone on dates but not on instants:
  `Calendar.CycleEndOrder` says exactly when, `Calendar.LaterAnchorEndsEarlier` gives the case of
  the end of January in every year.
* When no equipment reaches 90% of the required capacity, the smallest item that fits is
  recommended: `Recommender.StrongestMayBePassedOver` shows the strongest passed over,
  `Recommender.ChoosesTheStrongestExactlyWhen` says exactly when it is not.
* A blocked subscription can get its access back with nothing paid.
  `BillingUnblocking.StepUnblocksExactlyWhen` is the exact condition, over all steps; besides a
  payment of the price it names the cancellation of an overdue subscription
  (`CancellationUnblocksExactlyWhen`), the submission of its refund
  (`SubmissionUnblocksExactlyWhen`), the end of its recurrence
  (`BillingLaws.RecurrenceEventsUnblockExactlyWhen`), the end or a repeated activation of its Pix
  authorization (`AuthorizationUnblocksExactlyWhen`), a repeated report of its paid checkout
  (`CheckoutEventUnblocksExactlyWhen`) and any event of its card payments
  (`PaymentUnblocksExactlyWhen`). `BillingPeriods.OverdueCustomerRegainsAccess` shows it for four of
  them, in runs from an empty store.
* Any event of a card payment activates a checkout that was paid before, so the creation of an
  invoice, paid or not, lengthens the paid period by a cycle. `BillingPeriods.PaidPeriodAfterPayment`
  says exactly how far each event carries the period, `BillingPeriods.UnpaidInvoiceGivesAccess` is
  the run in which a customer who paid once has access again whenever the next invoice is created.
* A login reads the password without a lock, so one that overlaps a password reset leaves a
  session open: `AuthSessions.LoginAcrossAResetStaysOpen`.

## Model

| member | source | states |
|---|---|---|
| BookingTime.InDayIffLocalDay | app/booking/availability.py:1409-1417 | an instant lies between two local midnights exactly when that day is its local day |
| BookingTime.CeilToSlotIsFirst | app/booking/availability.py:1949-1955 | rounding up yields the first multiple of the interval after local midnight that is not before the value |
| Pricing.RoundHalfEvenIsNearest | app/booking/availability.py:1000-1031 | cent rounding is off by at most half a cent, and a tie goes to the even cent |
| Pricing.ChargeKeepsOrder | app/booking/availability.py:1102-1217 | a measured charge never falls when more is measured, and is never negative |
| Pricing.AutomaticBuffersAreBounded | app/booking/availability.py:1974-2032 | with an automatic buffer the total stays within fifty minutes unless configured buffers alone exceed it, and those are never cut |
| Pricing.EstimateAccounted | app/booking/estimator.py:18-96 | the estimated price is the base price plus every amount its rules itemise |
| Pricing.CatalogAccounted | app/booking/availability.py:1102-1217 | extra tubing keeps price and itemised rules in balance, also when it turns the estimate over to a human |
| Pricing.DistanceAccounted | app/booking/availability.py:983-1031 | the distance fee is added to the price and itemised with the same amount |
| Pricing.FinalPriceIsBasePlusItemised | app/booking/availability.py:850-1100 | conservation: every cent of a priced service plan is the base price or an itemised amount |
| Pricing.PriceIsMonotone | app/booking/availability.py:850-1100 | more units, more tubing or a longer way never make a plan cheaper |
| Availability.LatestEnding | app/booking/availability.py:1410-1440 | the previous neighbour is the row of the day that ends last |
| Availability.EarliestStarting | app/booking/availability.py:1410-1440 | the following neighbour is the row of the day that starts first |
| Availability.RangesKnowTheirTechnicians | app/booking/availability.py:1343-1387 | the opening ranges of a day are the same for a window and for the whole agenda, and name eligible technicians only |
| Availability.AcceptedWindowStaysInItsDay | app/booking/availability.py:1257-1323 | the key lemma: an accepted reserved window never leaves its local day, because a side that would is bounded by the range or already runs over the neighbour |
| Availability.SamePlanFromSameDay | app/booking/availability.py:1389-1524 | the schedule-aware plan depends only on the technician's rows of the start's local day |
| Availability.NeighboursAreLoaded | app/booking/availability.py:1556-1617 | every row that could be a neighbour is in the loaded window, so the plan made from it is the true one |
| Availability.ConflictsAreLoaded | app/booking/availability.py:1556-1617 | inside the searched days the loaded window has a conflict exactly when the whole agenda has |
| Availability.WindowedSearchIsExact | app/booking/availability.py:1219-1340 | soundness and completeness: the windowed search offers a start to a technician exactly when the same test against the whole agenda does |
| Availability.OfferedReservationIsFree | app/booking/availability.py:1674-1701 | an offered reservation is disjoint from every block and every other confirmed reservation of the technician, anywhere in the table, and stays within its day |
| Availability.RestrictingToADayIsSearchingIt | app/booking/availability.py:1324-1340 | searching a range and keeping one day is searching that day alone |
| AppointmentStore.IndexOf | app/booking/availability.py:1717-1735 | the row found for an id is the first that carries it |
| AppointmentStore.FindByKey | app/booking/availability.py:1703-1715 | an idempotent lookup finds a row with the key if there is one |
| AppointmentStore.InsertKeepsValid | alembic/versions/20260901_0003_booking_configuration.py:371-415 | an insert the constraints accept keeps reservations disjoint, ids distinct and keys unique |
| AppointmentStore.ReplaceKeepsValid | alembic/versions/20260901_0003_booking_configuration.py:371-415 | an accepted update keeps them too, and is not checked against the row's own old window |
| AppointmentStore.AppointmentTable.Insert | alembic/versions/20260901_0003_booking_configuration.py:371-415 | an insert is written exactly when neither constraint is violated, and otherwise changes nothing |
| AppointmentStore.AppointmentTable.Update | alembic/versions/20260901_0003_booking_configuration.py:371-415 | an update is written exactly when neither constraint is violated, and otherwise changes nothing |
| SlotSearch.SortedByCost | app/booking/availability.py:1328-1338 | the candidates of a start are all of them, strictly ordered by reserved travel and then by id |
| SlotSearch.RangeIsSlotWalk | app/booking/availability.py:1275-1323 | walking from the rounded-up earliest start in steps of the interval visits exactly the aligned starts that fit the range |
| SlotSearch.OfferedOnItsOwnDay | app/booking/availability.py:1257-1323 | what a day's loop offers starts on that local day |
| SlotSearch.FoundIsOffered | app/booking/availability.py:1219-1340 | what the loops collect from loaded rows is what the whole agenda offers, at the same cost |
| SlotSearch.SlotSearcher.Consider | app/booking/availability.py:1291-1321 | a candidate is recorded, with its plan, exactly when it is acceptable |
| SlotSearch.SlotSearcher.WalkSlots | app/booking/availability.py:1286-1323 | the inner loop terminates and records the acceptable slots of its range and nothing else |
| SlotSearch.SlotSearcher.SearchDay | app/booking/availability.py:1262-1323 | one day of the search: all ranges of all technicians |
| SlotSearch.SlotSearcher.AvailableStarts | app/booking/availability.py:1219-1340 | the search returns exactly the offered starts of its days, each with its candidates in the order to try them, and remembers each accepted plan |
| BookingPort.DateOfferedIffSomeTime | app/booking/availability.py:426-481 | a date inside the horizon is offered exactly when its list of times is not empty |
| BookingPort.Port.ListDates | app/booking/availability.py:426-455 | the dates listed are exactly those of the horizon with an offered start |
| BookingPort.Port.ListTimes | app/booking/availability.py:457-481 | the times listed are exactly the offered ones, and none before the minimum date |
| BookingPort.Port.EmployeesForExactStart | app/booking/availability.py:1619-1645 | the technicians of one start, cheapest first, each with its plan remembered |
| BookingPort.Port.Confirm | app/booking/availability.py:483-600 | confirming a start does what its specification says on the table the writes meet, and keeps the table valid |
| BookingPort.Port.InsertFirstThatFits | app/booking/availability.py:519-600 | the retry loop skips technicians the constraint rejects and stops at the first accepted row |
| BookingPort.Port.CancelBooking | app/booking/availability.py:688-711 | cancelling changes the status of the caller's own row and nothing else |
| BookingPort.Port.RescheduleBookingAtomic | app/booking/availability.py:713-792 | rescheduling does what its specification says and keeps the table valid |
| BookingPort.Port.UpdateFirstThatFits | app/booking/availability.py:760-792 | a rejected move is undone before the next technician is tried |
| BookingTheorems.OfferedRowIsStorable | app/booking/availability.py:519-536 | the row confirm writes for an offered start violates no constraint of the table it was read from |
| BookingTheorems.ConfirmSucceedsExactlyWhenOffered | app/booking/availability.py:483-600 | with a fresh key and nothing changed since the read, confirm succeeds exactly for the offered times |
| BookingTheorems.FirstCandidateIsCheapest | app/booking/availability.py:1328-1338 | the technician tried first has the least total reserved travel |
| BookingTheorems.TryInsertsAddsOneRowOrNone | app/booking/availability.py:519-600 | one confirmation adds one confirmed row at the requested start, or changes nothing |
| BookingTheorems.TryUpdatesIsAtomic | app/booking/availability.py:760-792 | the update loop succeeds exactly when some technician is free under the base plan, and moves one row or nothing |
| BookingTheorems.RescheduleIsAtomic | app/booking/availability.py:713-792 | success keeps id, customer, service and key and yields a confirmed row clear of all others; failure leaves every row as it was, whatever the search had read |
| BookingTheorems.MoveSucceedsIff | app/booking/availability.py:713-792 | in an unchanged state a move succeeds exactly when some offered technician's base window is free of the other rows |
| BookingTheorems.OfferedSlotIsReschedulableWithoutAddress | app/booking/availability.py:744-766 | without a service address every offered slot can be rescheduled to |
| BookingTheorems.OfferedSlotMayNotBeReschedulable | app/booking/availability.py:744-766 | with an address it need not be: a slot is offered and the move is refused |
| BookingRuns.StepKeepsInv | app/booking/availability.py:483-792 | no step of any interleaving breaks the disjointness of reservations, the uniqueness of keys or the promise of an answered call |
| BookingRuns.ReservationsStayDisjoint | alembic/versions/20260901_0003_booking_configuration.py:398-415 | in every state of every run, confirmed reserved windows of one technician are pairwise disjoint and no key occurs twice |
| BookingRuns.EachConfirmAddsAtMostOneRow | app/booking/availability.py:519-600 | each confirm adds one row or none, and has answered with the row it added |
| BookingRuns.RowsPersist | app/booking/availability.py:688-792 | a row stays under its id, business and key for the rest of the run, also when cancelled, moved or edited by staff |
| BookingRuns.OnlyStaffChangesCustomers | app/operations/service.py:349-358 | only a staff edit hands an appointment to another customer |
| BookingRuns.RetriesReturnTheSameAppointment | app/booking/availability.py:492-500 | all successful confirms with one key return the same appointment, at any distance in the run, also after it was cancelled, moved or given to another customer |
| BookingRefinement.OfferedIgnoresRowOrder | app/booking/availability.py:1556-1617 | the order in which a query returns rows does not change what is offered |
| BookingRefinement.InsertIterationIsAStep | app/booking/availability.py:519-600 | one iteration of the retry loop is one step of the interleaving model |
| BookingRefinement.UpdateIterationIsAStep | app/booking/availability.py:760-792 | so is one iteration of the update loop |
| BookingRefinement.ProposedRowsAreWellFormed | app/booking/availability.py:519-536 | a search proposes only rows that the interleaving model lets begin |
| Calendar.CycleEndShiftsMonths | app/billing/service.py:2282-2288 | a cycle end moves the month index by exactly the cycle's months and clamps the day to the month reached |
| Calendar.CycleEndIsLater | app/billing/service.py:2282-2288 | a cycle end is strictly later |
| Calendar.CycleEndIsMonotone | app/billing/service.py:2282-2288 | later dates never end earlier |
| Calendar.MonthlyCycleLength | app/billing/service.py:2282-2288 | a monthly cycle spans 28 to 31 days |
| Calendar.ThreeMonthlyWithinQuarterly | app/billing/service.py:2282-2288 | three monthly extensions never pass one quarterly extension |
| Calendar.CycleEnd | app/billing/service.py:2282-2288 | the end of a cycle is a strictly later instant at the same time of day |
| Calendar.CycleEndOrder | app/billing/service.py:2282-2288 | a later instant ends earlier exactly when both fall on different days of one month that are clamped together and the later one has the earlier time of day |
| Calendar.LaterAnchorEndsEarlier | app/billing/service.py:2282-2288 | in every year a monthly cycle from 30 January 23:00 ends after one from 31 January 01:00 |
| Calendar.DayNumberOrders | app/billing/service.py:2282-2288 | day numbers order the Gregorian dates as year, month and day do |
| BillingService.Service.Activate | app/billing/service.py:1443-1541 | activation renews the checkout's own subscription or opens one unless the business already has access |
| BillingService.Service.CreateCheckout | app/billing/service.py:150-393 | a repeated key, standing access or a blocking checkout opens nothing; otherwise one unpaid checkout is added and an expired or retired one closed |
| BillingLaws.PollingSettlesOverdue | app/billing/service.py:816-841 | after a poll the checkout asked for is not overdue, polling again changes nothing, and nothing paid for or of another business is touched |
| BillingLaws.CanceledNeverBlocks | app/billing/service.py:843-886 | whatever a cancellation closes was unpaid Pix of this business, and blocks it no longer |
| BillingLaws.CancelingMakesWay | app/billing/service.py:95-127 | canceling the one checkout in the way lets the next request open a new one |
| BillingService.Service.PayCreditCard | app/billing/service.py:516-688 | a native card payment in all its guards and provider outcomes |
| BillingService.Service.ReconcileNativePayment | app/billing/service.py:710-737 | the first settled payment of the right amount pays the checkout |
| BillingService.Service.ProviderRefundStatus | app/billing/service.py:923-959 | one pass over the provider's refunds yields the verdict on their totals |
| BillingService.Service.ReconcileProviderRefund | app/billing/service.py:981-1019 | a refund already asked for follows the provider's verdict |
| BillingService.Service.ResolveInitialPayment | app/billing/service.py:1385-1421 | the initial payment is known exactly when the matching payments carry a single id |
| BillingService.Service.ResumeRefund | app/billing/service.py:1298-1369 | an interrupted refund is submitted only after its payment is known and its recurrence canceled |
| BillingService.Service.FirstPaidCheckout | app/billing/service.py:1034-1048 | the first paid checkout is the earliest by payment, then by creation |
| BillingService.Service.GuaranteeHolds | app/billing/service.py:1028-1054 | eligible exactly when the subscription's checkout is the first paid one, within seven days, and not refunded |
| BillingService.Service.RequestGuaranteeRefund | app/billing/service.py:1179-1296 | a refund request on a subscription in any refund state |
| BillingService.Service.FirstRefundRequest | app/billing/service.py:1192-1296 | a first request records its intent, cancels the recurrence and asks the provider at most once |
| BillingService.Service.RequestCancellation | app/billing/service.py:1111-1177 | cancellation keeps the paid period and records the intent even when the provider fails |
| BillingService.Service.UpgradeToPlus | app/billing/service.py:750-814 | only an active, monthly, untroubled Basic subscription is upgraded, and only its plan changes |
| BillingService.Service.ApplyCheckoutEvent | app/billing/webhooks.py:160-182 | a hosted checkout follows its events; a paid one is activated |
| BillingLaws.RecurrenceEventsUnblockExactlyWhen | app/billing/service.py:1735-1757 | a recurrence event gives a blocked subscription access back exactly when it says the recurrence is gone; none takes access or moves the end of a period |
| BillingService.Service.ApplyAuthorizationEvent | app/billing/service.py:1543-1722 | a Pix authorization binds its references up to a conflict and moves checkout and subscription |
| BillingService.Service.ApplyPaymentEvent | app/billing/service.py:1759-1863 | a payment event runs through its common Pix, Pix Automatic, card and subscription stages |
| BillingService.Service.CaptureCommonPix | app/billing/service.py:1865-1933 | a common Pix payment of the right amount and reference pays its checkout once |
| BillingService.Service.CapturePixInitial | app/billing/service.py:1935-1981 | a Pix Automatic payment stamps its checkout once |
| BillingService.Service.CaptureCard | app/billing/service.py:2041-2098 | a card payment binds its checkout and pays a native one |
| BillingLaws.PaymentBuysItsCycle | app/billing/service.py:1785-1803 | a confirmed payment of the price gives access exactly until the later of the old end and the end of the paid cycle, whatever state the subscription was in |
| BillingLaws.PaymentsConcernOneSubscription | app/billing/service.py:1778-1863 | a payment event changes at most the subscription it is for, and none when the amount is not its price |
| BillingLaws.PaymentAfterOverdueRestores | app/billing/service.py:1785-1805 | overdue blocks at once and keeps the period, so the next payment of the price restores every day of it |
| BillingService.Service.ProcessWebhook | app/billing/webhooks.py:67-158 | an event is recorded, applied and marked, and a marked one is ignored |
| BillingInvariants.CheckoutChange | app/billing/service.py:728-728 | a change of one checkout that writes paid_at at most once and leaves a native paid one paid keeps the whole invariant |
| BillingInvariants.SubscriptionChange | app/billing/service.py:1483-1487 | a change of one subscription that forgets no refund keeps the whole invariant |
| BillingInvariants.SubscriptionOpened | app/billing/service.py:1468-1482 | a new subscription for a checkout that has none keeps one subscription per checkout |
| BillingInvariants.Submission | app/billing/service.py:1331-1342 | submitting a refund keeps first requests unique |
| BillingSafety.ActivationIsGood | app/billing/service.py:1443-1541 | activation never shortens access and never opens a second subscription for a checkout |
| BillingSafety.CheckoutCreatedIsGood | app/billing/service.py:150-393 | opening a checkout touches no payment instant and no subscription |
| BillingSafety.CardPaidIsGood | app/billing/service.py:516-737 | a native card payment stamps paid_at once and only extends access |
| BillingSafety.DoneExactlyWhenCovered | app/billing/service.py:923-959 | a refund counts as done exactly when completed refunds cover the amount |
| BillingSafety.RefundReconciledIsGood | app/billing/service.py:981-1019 | reconciliation ends access only together with the refund being done |
| BillingSafety.FirstRequestIsGood | app/billing/service.py:1179-1296 | a first refund request keeps the paid period and never returns to no refund |
| BillingSafety.AuthorizationIsGood | app/billing/service.py:1543-1722 | no authorization event shortens access or rewrites a payment instant |
| BillingSafety.PaymentIsGood | app/billing/service.py:1759-1863 | a payment event can take access from one subscription only, and only if it is overdue, a refund or a chargeback |
| BillingSafety.EventIsGood | app/billing/webhooks.py:132-143 | every webhook keeps the invariant |
| BillingRuns.StepIsGood | app/billing/service.py:150-1863 | every API call and every delivery, complete or cut short, keeps the invariant |
| BillingRuns.RunKeepsRows | app/billing/service.py:728-1980 | over every run paid_at is written once, distinct checkouts are paid at distinct instants, each checkout has one subscription, and a refund status never returns to none |
| BillingRuns.OnlyWithdrawalsCutAccess | app/billing/service.py:1695-1848 | a step blocks a subscription or shortens its access only if its inputs are an overdue, refund or chargeback event for that very subscription, or a call that finds its refund done |
| BillingRuns.OnlyRefundsShortenPeriods | app/billing/service.py:1784-1862 | access_until of a subscription decreases only by a refund or chargeback event for it or a refund found done; overdue and cancellation leave it |
| BillingSafety.OtherPaymentsKeepPeriods | app/billing/service.py:1759-1863 | no other payment event shortens any paid period |
| BillingRuns.EndedOnlyIfFoundDone | app/billing/service.py:981-1019 | an API call ends access only for the business's latest subscription, with its refund asked for and reported done |
| BillingRuns.AccessSurvives | app/billing/entitlements.py:18-35 | a business with access at an instant still has it after every step whose inputs block none of its own subscriptions, cancellation and upgrade included, whatever they take from others |
| BillingRuns.AccessSurvivesRuns | app/billing/entitlements.py:18-35 | so over every run: until some step withdraws it, paid access lasts to its end |
| BillingUnblocking.CancellationUnblocksExactlyWhen | app/billing/service.py:1111-1177 | a cancellation unblocks a subscription exactly when it is the business's latest, overdue, its recurrence can be canceled and an asked refund of it is not reported done |
| BillingUnblocking.SubmissionUnblocksExactlyWhen | app/billing/service.py:1179-1369 | reading the status or asking for a refund unblocks exactly when it submits the refund of an overdue subscription that is not reported done at once |
| BillingUnblocking.CheckoutEventUnblocksExactlyWhen | app/billing/service.py:1423-1489 | a checkout event unblocks exactly when it reports the subscription's hosted card checkout paid, for the first time or again |
| BillingUnblocking.AuthorizationUnblocksExactlyWhen | app/billing/service.py:1543-1722 | an authorization event unblocks exactly when it ends the authorization of the subscription's checkout or activates it at the right amount, with no conflict of references |
| BillingUnblocking.PaymentUnblocksExactlyWhen | app/billing/service.py:1759-1863 | a payment event unblocks exactly when it pays the subscription's Pix checkout, is of the amount of its paid card checkout or confirms its price, and does not withdraw access itself |
| BillingUnblocking.StepUnblocksExactlyWhen | app/billing/service.py:150-1863 | over all calls and deliveries, complete or cut short: a step lifts a block exactly on those inputs, and no other step does |
| BillingUnblocking.BlockedStaysBlocked | app/billing/service.py:150-1863 | over every run a blocked subscription stays blocked unless some step meets that condition |
| BillingUnblocking.LiftedBlockRestoresAccess | app/billing/entitlements.py:18-35 | whoever is unblocked has access again at every instant of the remaining period |
| BillingPeriods.PaidPeriodAfterPayment | app/billing/service.py:1759-1863 | every payment event but a refund or chargeback carries access_until exactly to the latest of the old end, the Pix and card renewals and the cycle paid for; a card renewal needs no confirmed payment |
| BillingPeriods.StepLengthensOnlyWhen | app/billing/service.py:150-1863 | no API call lengthens a paid period, and a webhook only by activating its checkout or confirming a payment of its price |
| BillingPeriods.CardEventBuysACycle | app/billing/service.py:1759-1776 | a first delivery of any event of a paid card checkout's amount gives its business access for a whole cycle, unless it withdraws access itself |
| BillingPeriods.OverdueCustomerRegainsAccess | app/billing/service.py:1111-1369 | from an empty store: a customer who paid once and is overdue has no access, and has it again after canceling, asking for the refund in time, losing the recurrence or the next invoice |
| BillingPeriods.UnpaidInvoiceGivesAccess | app/billing/service.py:1759-1776 | however late it comes, the creation of the next invoice gives that customer access |
| BillingRuns.FirstPaidStays | app/billing/service.py:1034-1048 | the first paid checkout of a business stays the first |
| BillingRuns.OneGuaranteePerBusiness | app/billing/service.py:1028-1054 | over a whole run at most one checkout of a business is ever guarantee-eligible, within seven days of its one payment instant |
| BillingRuns.ReplayChangesNothing | app/billing/webhooks.py:88-92 | delivered again at any later time, a processed event changes nothing |
| BillingRefunds.StatusReadAsksExactlyWhen | app/billing/service.py:903-920 | reading the status asks for a refund exactly when one is open, its payment can be found and its recurrence canceled |
| BillingRefunds.RefundRequestAsksExactlyWhen | app/billing/service.py:1179-1296 | a request asks exactly when it is the first, guaranteed and submittable, or resumes an open one |
| BillingRefunds.FirstRequestsAskOnce | app/billing/service.py:1192-1296 | in every run the first-request path asks at most once per subscription, webhooks included |
| BillingRefunds.ApiNeverReopens | app/billing/service.py:150-1369 | no API call reopens a canceled or suspended subscription |
| BillingRefunds.StepAsksAgainExactlyWhen | app/billing/service.py:903-1369 | one step asks a second time exactly when it reads or requests a refund that was asked for before, is unreconciled, was reopened and can be submitted |
| BillingRefunds.RefundsAreAskedOnceExactlyWhen | app/billing/service.py:903-1369 | a run asks at most once per subscription exactly when none of its calls meets that condition before it starts |
| BillingRefunds.RefundsAreAskedOnce | app/billing/service.py:1298-1369 | in particular every run in which no webhook reopens a submitted subscription asks at most once for each |
| BillingRefunds.RefundCanBeAskedTwice | app/billing/service.py:1784-1802 | a five-step run from an empty store that asks twice, after a late confirmation reopened the subscription |
| RateLimiter.RetryAfterHeader | app/auth/rate_limit.py:50-55 | the header is the delay in whole seconds, rounded up, at least one |
| RateLimiter.PrunedIsTail | app/auth/rate_limit.py:44-48 | pruning drops expired calls only, and stops at an unexpired one |
| RateLimiter.PruningATail | app/auth/rate_limit.py:44-48 | pruning the deque is pruning the whole history: nothing in the window was lost before |
| RateLimiter.PrunedIsTheWindow | app/auth/rate_limit.py:44-48 | what pruning leaves is as many calls as the history has in the window |
| RateLimiter.SlidingWindowBound | app/auth/rate_limit.py:70-89 | calls spaced by the limit never exceed it in any window at any instant |
| RateLimiter.RetryDelayIsExact | app/auth/rate_limit.py:57-58 | a rejection lifts at the reported delay and not before |
| RateLimiter.LiveCallsWithinLimit | app/auth/rate_limit.py:75-86 | a deque never holds more than its limit inside the window |
| RateLimiter.CleanedIsBounded | app/auth/rate_limit.py:60-68 | a cleanup leaves at most the maximum number of buckets |
| RateLimiter.CleanedBucket | app/auth/rate_limit.py:60-68 | a cleanup keeps a bucket's unexpired calls, unless it was popped from a map still full |
| RateLimiter.CleanedKeepsTheNewest | app/auth/rate_limit.py:60-68 | the newest bucket survives every cleanup |
| RateLimiter.WithoutOldestPops | app/auth/rate_limit.py:67-68 | the pops remove the oldest entries, in insertion order |
| RateLimiter.LoginRateLimiter.Prune | app/auth/rate_limit.py:44-48 | the popping loop computes the pruned deque |
| RateLimiter.LoginRateLimiter.SweepEmailBuckets | app/auth/rate_limit.py:63-66 | the sweep over a snapshot of the entries prunes all and deletes the empty ones |
| RateLimiter.LoginRateLimiter.CleanupEmailBuckets | app/auth/rate_limit.py:60-68 | sweep only over the maximum, then pop down to it |
| RateLimiter.LoginRateLimiter.Acquire | app/auth/rate_limit.py:70-89 | an attempt is decided by the calls accepted in the two windows; a rejected one consumes nothing; an admitted one is recorded and, with room for one bucket, never loses its own history; with a limit of at least one the map never exceeds its maximum |
| RateLimiter.LoginRateLimiter.AcquireForAccount | app/auth/rate_limit.py:80-89 | the account's half of an attempt, with the same promises |
| RateLimiter.LoginRateLimiter.Success | app/auth/rate_limit.py:91-96 | a successful login forgets the account's own calls, leaves the global budget spent and keeps the map within its maximum |
| RateLimiter.LoginRateLimiter.GlobalBudget | app/auth/rate_limit.py:70-89 | in every reachable state, every window of the whole history holds at most the global limit |
| RateLimiter.LoginRateLimiter.AccountBudget | app/auth/rate_limit.py:70-89 | the same per account, since its last success or eviction |
| RateLimiter.LoginRateLimiter.DequesAreTheWindow | app/auth/rate_limit.py:70-89 | a pruned deque is exactly the unexpired part of its accepted history |
| AuthSessions.StepIsGood | app/auth/service.py:162-494 | every call keeps tokens distinct and at most one live reset token per user |
| AuthSessions.RunIsGood | app/auth/service.py:162-494 | over every run revocation and expiry never move back and a rotated-out token stays out |
| AuthSessions.RefreshTokensAreAcceptedOnce | app/auth/service.py:450-467 | a refresh token accepted once is never accepted again |
| AuthSessions.EndedSessionsStayEnded | app/auth/service.py:469-480 | a revoked or expired session authenticates nobody ever after |
| AuthSessions.ResetEndsEarlierSessions | app/auth/service.py:287-340 | after a reset no earlier session of the user is usable, the token is spent and the old password opens nothing |
| AuthSessions.ResetTokensAreSpentOnce | app/auth/service.py:287-340 | a reset token accepted once is never accepted again, with any password |
| AuthSessions.ChangeKeepsOnlyItsSession | app/auth/service.py:237-285 | after a password change exactly the session it was made from still authenticates |
| AuthSessions.OneLiveReset | app/auth/service.py:205-229 | in every reachable state a user has at most one reset token that could be accepted |
| AuthService.Service.Login | app/auth/service.py:342-351 | a login opens one session that authenticates, exactly when password and account are good |
| AuthService.Service.SignUp | app/auth/service.py:353-448 | a new address gets a user, a business and a session; a keyed retry opens a session for its owner; a session is opened only for the given address and password |
| AuthSessions.SignUpRetryOpensOnlyASession | app/auth/service.py:353-392 | retrying a sign-up that succeeded opens another session of the same user and nothing else |
| AuthSessions.ForeignKeyChangesNothing | app/auth/service.py:353-383 | whatever request repeats a used key, no user, business, reset token or earlier session changes; at most one session is opened, for the owner, exactly when name, address and password are repeated |
| AuthSessions.SignUpKeysStayWithTheirOwner | app/auth/service.py:353-448 | in every continuation of a run the key of a successful sign-up opens sessions for the user it created and nobody else, exactly for its name, address and current password |
| AuthSessions.LoginAcrossAResetStaysOpen | app/auth/service.py:342-351 | a login that has checked the old password when a reset commits leaves a usable session |
| AuthService.Service.Refresh | app/auth/service.py:450-467 | an accepted token is rotated in its row |
| AuthService.Service.Authenticate | app/auth/service.py:469-480 | true exactly for an open, unexpired session of an active user |
| AuthSessions.LogoutEndsItsSession | app/auth/service.py:482-494 | after a logout its session authenticates nobody and its token refreshes nothing, ever after |
| AuthService.Service.RevokeSessions | app/auth/service.py:162-186 | the loop revokes every open session of the user but the kept one |
| AuthService.Service.RevokePasswordResetTokens | app/auth/service.py:188-203 | every live reset token of the user but the kept one is revoked |
| AuthService.Service.IssuePasswordReset | app/auth/service.py:205-229 | issuing revokes the live tokens first |
| AuthSessions.WithdrawnResetsAreNeverAccepted | app/auth/service.py:231-235 | a withdrawn reset token is never accepted, with any password, ever after |
| AuthService.Service.ResetPassword | app/auth/service.py:287-340 | a reset succeeds exactly for a live, unexpired token of an active user with a different password |
| AuthService.Service.ChangePassword | app/auth/service.py:237-285 | a change succeeds exactly from a usable session with the current password and a different new one |
| RouteCache.GoogleRoutesPort.Cached | app/booking/travel.py:247-260 | a hit is a provider's answer for the same route, stored less than a TTL before; an expired entry is dropped |
| RouteCache.GoogleRoutesPort.Oldest | app/booking/travel.py:268-271 | the eviction victim is nearest to its expiry |
| RouteCache.GoogleRoutesPort.Store | app/booking/travel.py:262-277 | storing evicts one entry only from a full cache, a live one only if all are live, and never exceeds the limit |
| RouteCache.GoogleRoutesPort.Lookup | app/booking/travel.py:114-129 | the provider is asked exactly when there is no fresh answer |
| RouteCache.GoogleRoutesPort.Answered | app/booking/travel.py:206-222 | a failure is never stored |
| Recommender.RecommendationIsBest | app/booking/equipment_recommender.py:106-174 | the choice fits spaces and cycle, is adequate if anything is, affordable if anything adequate is, has least capacity among those and is least in the ranking key |
| Recommender.RecommendsExactlyWhen | app/booking/equipment_recommender.py:106-135 | something is recommended exactly when the inputs are in range and an item that fits is strong enough |
| Recommender.NoneAdequateChoosesTheSmallest | app/booking/equipment_recommender.py:127-152 | with nothing at 90% of the requirement the smallest item it may choose is chosen, with or without a budget |
| Recommender.ChoosesTheStrongestExactlyWhen | app/booking/equipment_recommender.py:127-160 | the choice is the strongest of the items it may choose exactly when all of those have one capacity |
| Recommender.StrongestMayBePassedOver | app/booking/equipment_recommender.py:127-152 | a room that needs 19800 gets 16000 although 17000 is in the catalogue |
| Recommender.CatalogOrderDoesNotMatter | app/booking/equipment_recommender.py:160-174 | capacity and ranking key of the choice do not depend on the order of the catalogue |
| Recommender.CatalogOrderDoesNotDecide | app/booking/equipment_recommender.py:106-135 | nor does whether anything is recommended |
| Recommender.LeastByRankIsLeast | app/booking/equipment_recommender.py:160-174 | the first least item by key is least |

## Left out

- Time zones: a business lives in one fixed offset from UTC; daylight saving is not modelled. A slot interval is positive, as the table's check demands.
- Travel: the routes provider and the configured region rules appear as one deterministic function per address pair; the textual equivalence of two addresses and the request retries are not modelled.
- Loading of inactive businesses and services, text labels, notes, equipment details, notifications and outreach rows written beside an appointment.
- Staff edits of appointments appear only as steps that keep id, business and key.
- AppointmentStore.AppointmentTable.Insert: reports the key violation first when both constraints fail; the interleaving model of BookingRuns allows either.
- BookingRuns.StepKeepsInv: a database transaction that writes one row is one step; row locks are taken at the step that begins a move.
- Money is whole cents and measures are real numbers; the overflow of fixed-width columns is not modelled.
- Dates beyond the year 9999, where the original raises.
- BusinessAccess rows: administrative and legacy grants, the operational-history flag and the access mode written after a refund.
- BillingRuns.StepIsGood: each API call is one step; two calls of one business interleaved inside a provider call are not modelled. A transaction that a unique index aborts is a call that changes nothing.
- BillingRuns.OneGuaranteePerBusiness: the clock strictly increases from reading to reading; two checkouts paid at one instant would be told apart by creation and id instead.
- BillingRefunds.RefundsAreAskedOnce: holds only for runs in which no webhook reopens a submitted subscription, because the original then may ask again; the exact statement is RefundsAreAskedOnceExactlyWhen.
- BillingService.Service.CreateCheckout: payer names, return addresses and QR payload texts are not stored; the switches, the origin check and the WhatsApp rule are flags of the request.
- BillingService.Service.ApplyPaymentEvent: several rows matching one provider reference resolve to the earliest; web-push events of an overdue payment are not modelled.
- BillingService.Service.ProcessWebhook: event identifiers are given; payload shape checks are assumed passed.
- Catalogue prices are a parameter of the payment step; the six offer amounts are not enumerated.
- RateLimiter.LoginRateLimiter.Acquire: readings of the clock do not go back from call to call. The original reads the clock before it takes the lock, but no critical section suspends, so calls enter in the order of their readings. Token hashes are injective.
- AuthSessions.RefreshTokensAreAcceptedOnce: newly drawn tokens were never drawn before, and hashes are injective; passwords verify exactly when equal. A call reads its clock once.
- AuthSessions.ResetEndsEarlierSessions: each call is one step, so an earlier session is one stored before the reset commits; login and the retry of a sign-up verify the password without a lock, so a session may be stored after a reset or a change that replaced it; LoginAcrossAResetStaysOpen shows it for a login. The other calls lock the rows they decide on, or write one row.
- AuthService.Service.SignUp: the membership, access and default service rows of a new business are not modelled, nor are the active business of a session and its web-push subscriptions.
- RouteCache.GoogleRoutesPort.Lookup: the two request attempts, token fetching and response parsing; an answer is given or is a failure.
- Recommender.RecommendationIsBest: areas, dimensions and prices are reals instead of floats, brands and lines are their alphabetical places, and the default catalogue file is a parameter.
- HTTP routers, cookies, logging, analytics, message interpretation and the onboarding flows.
