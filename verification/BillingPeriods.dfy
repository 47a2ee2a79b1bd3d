/**
 How far a paid period reaches, and what a customer who stops paying may still get.  Only
 activations of its checkout and confirmed payments of its price lengthen a period, but any event
 of a card payment activates a checkout that was paid before.
 */
module BillingPeriods {
  import opened BillingDomain
  import opened BillingInvariants
  import opened BillingLaws
  import opened BillingRefunds
  import opened BillingRuns
  import opened BillingSafety
  import opened BillingSteps
  import opened BillingUnblocking
  import opened Calendar
  import opened Seqs

  // ---- How far a period reaches ----

  function Longer(until: Instant, longer: bool, to: Instant): Instant {
    if longer then Max(until, to) else until
  }

  /** How far a payment event may carry the paid period: a Pix renewal, a card renewal, a cycle from the due date. */
  function PeriodAfter(s: Store, e: PaymentEvent, prices: Prices, r: Readings, i: nat): Instant
    requires i < |s.subscriptions|
  {
    var x := s.subscriptions[i];
    var renewed := Longer(Longer(x.accessUntil, PixRenews(s, e, i), PixUntil(s, e, r)), CardRenews(s, e, i),
        CardUntil(s, e, r));
    Longer(renewed, PaysPrice(s, e, prices, r, i), PaidUntil(x, e, r.t6))
  }

  /**
   A payment event carries the paid period exactly so far, unless it is a refund or a chargeback.
   A card event renews whether or not it confirms a payment.
   */
  lemma PaidPeriodAfterPayment(s: Store, e: PaymentEvent, prices: Prices, r: Readings, i: nat)
    requires i < |s.subscriptions|
    ensures var t := PaymentApplied(s, e, prices, r);
            && i < |t.subscriptions| && t.subscriptions[i].accessUntil <= PeriodAfter(s, e, prices, r, i)
            && (!CutsPeriod(e.kind) ==> t.subscriptions[i].accessUntil == PeriodAfter(s, e, prices, r, i))
  {
    CapturedRow(s, e, r, i);
    LastStagePeriod(CapturedBy(s, e, r), e, prices, r.t6, i);
  }

  lemma LastStagePeriod(s: Store, e: PaymentEvent, prices: Prices, now: Instant, i: nat)
    requires i < |s.subscriptions|
    ensures var t := SubscriptionPaymentApplied(s, e, prices, now); var x := s.subscriptions[i];
            var pays := PaymentSubscription(s, e) == Some(i) && Confirms(e)
                        && e.cents == Some(prices(x.plan, x.cycle));
            var until := Longer(x.accessUntil, pays, PaidUntil(x, e, now));
            && |t.subscriptions| == |s.subscriptions| && t.subscriptions[i].accessUntil <= until
            && (!CutsPeriod(e.kind) ==> t.subscriptions[i].accessUntil == until)
  {
    var x := s.subscriptions[i];
    PaidThroughPeriod(s, x, e, prices(x.plan, x.cycle), now);
  }

  lemma PaidThroughPeriod(s: Store, x: Subscription, e: PaymentEvent, price: int, now: Instant)
    ensures var y := PaidThrough(s, x, e, price, now);
            var until := Longer(x.accessUntil, Confirms(e) && e.cents == Some(price), PaidUntil(x, e, now));
            y.accessUntil <= until && (!CutsPeriod(e.kind) ==> y.accessUntil == until)
  {
  }

  /** The inputs on which a step may lengthen the paid period. */
  predicate Lengthens(s: Store, e: Event, prices: Prices, r: Readings, i: nat)
    requires i < |s.subscriptions|
  {
    match e
    case CheckoutEvent(kind, session) => CheckoutLifts(s, kind, session, i)
    case Payment(payment) => PixRenews(s, payment, i) || CardRenews(s, payment, i)
        || PaysPrice(s, payment, prices, r, i)
    case Authorization(authorization) =>
      authorization.kind == AuthorizationActivated && AuthorizationLifts(s, authorization, i)
    case SubscriptionEvent(_, _, _) => false
    case Instruction => false
  }

  lemma CheckoutEventLengthensOnlyWhen(s: Store, kind: CheckoutKind, session: Ref, r: Readings, i: nat)
    requires i < |s.subscriptions| && !CheckoutLifts(s, kind, session, i)
    ensures var t := CheckoutEventApplied(s, kind, session, r);
            i < |t.subscriptions| && t.subscriptions[i] == s.subscriptions[i]
  {
    match FirstAt(s.checkouts, WithHosted(session)) {
      case None =>
      case Some(c) =>
        var k := s.checkouts[c];
        var paid := if k.status == Paid then k else PaidAtFirst(k, r.t1);
        ActivatedRow(WithCheckout(s, c, paid), c, r.t2, i);
    }
  }

  lemma AuthorizationLengthensOnlyWhen(s: Store, e: AuthorizationEvent, r: Readings, i: nat)
    requires i < |s.subscriptions| && !(e.kind == AuthorizationActivated && AuthorizationLifts(s, e, i))
    ensures var t := AuthorizationApplied(s, e, r);
            i < |t.subscriptions| && t.subscriptions[i].accessUntil == s.subscriptions[i].accessUntil
  {
    match AuthorizedCheckout(s, e) {
      case None =>
      case Some(c) =>
        match AuthorizationBound(s.checkouts[c], e) {
          case Conflict(_) =>
          case Bound(k) =>
            BoundAmount(s.checkouts[c], e);
            MovedPeriod(s, c, k, e, r, i);
        }
    }
  }

  lemma MovedPeriod(s: Store, c: nat, k: Checkout, e: AuthorizationEvent, r: Readings, i: nat)
    requires c < |s.checkouts| && i < |s.subscriptions|
    requires !(e.kind == AuthorizationActivated && SubscriptionFor(s, c) == Some(i) && Moves(k, e))
    ensures var t := AuthorizationMoved(s, c, k, e, r);
            i < |t.subscriptions| && t.subscriptions[i].accessUntil == s.subscriptions[i].accessUntil
  {
    ActivatedRow(WithCheckout(s, c, PaidAtFirst(k, r.t1)), c, r.t2, i);
  }

  /** No webhook makes a paid period longer except by activating its checkout or confirming its price. */
  lemma EventLengthensOnlyWhen(s: Store, e: Event, prices: Prices, r: Readings, i: nat)
    requires i < |s.subscriptions|
    ensures var t := EventApplied(s, e, prices, r);
            && i < |t.subscriptions|
            && (Lengthens(s, e, prices, r, i) || t.subscriptions[i].accessUntil <= s.subscriptions[i].accessUntil)
  {
    match e {
      case CheckoutEvent(kind, session) =>
        if !CheckoutLifts(s, kind, session, i) {
          CheckoutEventLengthensOnlyWhen(s, kind, session, r, i);
        }
      case SubscriptionEvent(kind, recurrence, active) =>
        RecurrenceEventsUnblockExactlyWhen(s, kind, recurrence, active, r.t1, i);
      case Payment(payment) => PaidPeriodAfterPayment(s, payment, prices, r, i);
      case Authorization(authorization) =>
        if !(authorization.kind == AuthorizationActivated && AuthorizationLifts(s, authorization, i)) {
          AuthorizationLengthensOnlyWhen(s, authorization, r, i);
        }
      case Instruction =>
    }
  }

  ghost predicate NotLonger(s: Store, t: Store, i: nat)
    requires i < |s.subscriptions|
  {
    i < |t.subscriptions| && t.subscriptions[i].accessUntil <= s.subscriptions[i].accessUntil
  }

  lemma ResumedNeverLengthens(s: Store, l: nat, g: RefundGateway, r: Readings, i: nat)
    requires l < |s.subscriptions| && i < |s.subscriptions|
    ensures NotLonger(s, ResumedThenReconciled(s, l, g, r), i)
  {
    var t := if Resumable(s.subscriptions[l]) then RefundResumed(s, l, g, r.t1) else s;
    ReconciledRow(t, l, g.details, r.t2, i);
  }

  lemma FirstAskedNeverLengthens(s: Store, l: nat, g: RefundGateway, r: Readings, i: nat)
    requires l < |s.subscriptions| && i < |s.subscriptions|
    ensures NotLonger(s, RefundFirstAsked(s, l, g, r), i)
  {
    var x := s.subscriptions[l];
    if GuaranteeEligible(s, l, r.t1) && x.status != Suspended {
      var t := WithResolvedPayment(s, x.checkout, g.payments);
      var asked := x.(cancellationRequestedAt := OrElse(x.cancellationRequestedAt, r.t2),
                      refundRequestedAt := OrElse(x.refundRequestedAt, r.t2));
      ReconciledRow(WithSubscription(t, l, asked.(refund := ReconcileRequired)), l, g.details, r.t4, i);
      ReconciledRow(Submitted(WithSubscription(t, l, asked.(refund := Requested)), l, true, g.refundOk, r.t3), l,
                    g.details, r.t4, i);
    }
  }

  lemma CancellationNeverLengthens(s: Store, business: nat, g: RefundGateway, r: Readings, i: nat)
    requires i < |s.subscriptions|
    ensures NotLonger(s, CancellationAsked(s, business, g, r), i)
  {
  }

  lemma UpgradeNeverLengthens(
    s: Store, business: nat, plusEnabled: bool, gatewayOk: bool, g: RefundGateway, r: Readings, i: nat)
    requires i < |s.subscriptions|
    ensures NotLonger(s, UpgradeAsked(s, business, plusEnabled, gatewayOk, g, r), i)
  {
  }

  lemma RefundCallsNeverLengthen(s: Store, business: nat, g: RefundGateway, r: Readings, i: nat)
    requires i < |s.subscriptions|
    ensures NotLonger(s, StatusRead(s, business, g, r), i) && NotLonger(s, RefundAsked(s, business, g, r), i)
  {
    match LatestSubscription(s, business) {
      case None =>
      case Some(l) =>
        ResumedNeverLengthens(s, l, g, r, i);
        FirstAskedNeverLengthens(s, l, g, r, i);
    }
  }

  lemma CallsNeverLengthen(s: Store, step: Step, prices: Prices, clock: Instant, i: nat)
    requires Inv(s, clock) && i < |s.subscriptions| && !IsWebhook(step.action)
    ensures NotLonger(s, Apply(s, step, prices), i)
  {
    var r := step.readings;
    match step.action {
      case PayCard(business, c, allowed, g) => CardPaymentLeaves(s, business, c, allowed, g, r, clock, i);
      case RequestCancellation(business, g) => CancellationNeverLengthens(s, business, g, r, i);
      case ReadStatus(business, g) => RefundCallsNeverLengthen(s, business, g, r, i);
      case RequestRefund(business, g) => RefundCallsNeverLengthen(s, business, g, r, i);
      case Upgrade(business, plusEnabled, gatewayOk, g) =>
        UpgradeNeverLengthens(s, business, plusEnabled, gatewayOk, g, r, i);
      case CreateCheckout(_, _, _) =>
      case PollCheckout(_, _) =>
      case CancelCheckout(_, _, _) =>
    }
  }

  /** No step makes a paid period longer but such a webhook, delivered for the first time. */
  lemma StepLengthensOnlyWhen(s: Store, step: Step, prices: Prices, clock: Instant, i: nat)
    requires Inv(s, clock) && i < |s.subscriptions|
    ensures var a := step.action;
            || NotLonger(s, Apply(s, step, prices), i)
            || (&& IsWebhook(a) && !IsProcessed(s, a.id)
                && Lengthens(Seen(s, a.id), a.event, prices, step.readings, i))
  {
    if IsWebhook(step.action) {
      WebhookSubscriptions(s, step, prices);
      EventLengthensOnlyWhen(Seen(s, step.action.id), step.action.event, prices, step.readings, i);
    } else {
      CallsNeverLengthen(s, step, prices, clock, i);
    }
  }

  // ---- What an event of a card payment gives ----

  /** The last stage leaves a granting subscription granting, unless it withdraws access. */
  lemma LastStageGrants(s: Store, e: PaymentEvent, prices: Prices, now: Instant, i: nat, business: nat, at: Instant)
    requires !Withdraws(e.kind) && GrantsAt(s.subscriptions, i, business, at)
    ensures GrantsAt(SubscriptionPaymentApplied(s, e, prices, now).subscriptions, i, business, at)
  {
    var x := s.subscriptions[i];
    PaidThroughBecomes(s, x, e, prices(x.plan, x.cycle), now);
  }

  lemma CapturedGrants(s: Store, e: PaymentEvent, r: Readings, i: nat, at: Instant)
    requires i < |s.subscriptions| && CardRenews(s, e, i) && at < CardUntil(s, e, r)
    ensures GrantsAt(CapturedBy(s, e, r).subscriptions, i, s.subscriptions[i].business, at)
  {
    CapturedRow(s, e, r, i);
  }

  lemma CardEventRow(s: Store, e: PaymentEvent, prices: Prices, r: Readings, i: nat, at: Instant)
    requires i < |s.subscriptions| && !Withdraws(e.kind) && CardRenews(s, e, i) && at < CardUntil(s, e, r)
    ensures GrantsAt(PaymentApplied(s, e, prices, r).subscriptions, i, s.subscriptions[i].business, at)
  {
    CapturedGrants(s, e, r, i, at);
    LastStageGrants(CapturedBy(s, e, r), e, prices, r.t6, i, s.subscriptions[i].business, at);
  }

  /**
   Whether or not it confirms a payment, a first delivery of an event of the subscription's card
   gives the business access for a whole cycle, unless it withdraws access itself.
   */
  lemma CardEventBuysACycle(
    s: Store, id: nat, e: PaymentEvent, prices: Prices, r: Readings, i: nat, at: Instant)
    requires !IsProcessed(s, id) && i < |s.subscriptions|
    requires !Withdraws(e.kind) && CardRenews(Seen(s, id), e, i)
    requires at < CardUntil(Seen(s, id), e, r)
    ensures HasAccess(WebhookProcessed(s, id, Payment(e), prices, r), s.subscriptions[i].business, at)
  {
    PaymentDelivered(s, id, e, prices, r);
    CardEventRow(Seen(s, id), e, prices, r, i, at);
  }

  lemma PaymentDelivered(s: Store, id: nat, e: PaymentEvent, prices: Prices, r: Readings)
    requires !IsProcessed(s, id)
    ensures WebhookProcessed(s, id, Payment(e), prices, r).subscriptions
         == PaymentApplied(Seen(s, id), e, prices, r).subscriptions
  {
  }

  // ---- A customer who stops paying ----

  function LateInvoice(): PaymentEvent {
    PaymentEvent(PaymentOverdue, Some(8), Some(19700), None, Some(5), None, None, None, None, None, None)
  }

  // Created, not paid.
  function NextInvoice(): PaymentEvent { LateInvoice().(kind := OtherPayment, id := Some(11)) }

  function Answers(): RefundGateway { RefundGateway(None, true, true, None) }

  function OverdueStep(): Step { Step(Deliver(9, Payment(LateInvoice())), At(18)) }

  function CancelStep(now: Instant): Step { Step(RequestCancellation(1, Answers()), At(now)) }

  function RefundStep(now: Instant): Step { Step(RequestRefund(1, Answers()), At(now)) }

  function DeletedStep(now: Instant): Step {
    Step(Deliver(10, SubscriptionEvent(SubscriptionDeleted, 5, false)), At(now))
  }

  function NextInvoiceStep(now: Instant): Step { Step(Deliver(10, Payment(NextInvoice())), At(now)) }

  function PaidThenOverdue(): seq<Step> { [OpeningStep(), PayingStep(), OverdueStep()] }

  function OverdueStore(until: Instant, events: map<nat, bool>): Store {
    PaidStore(FirstSubscription(until).(status := PastDue)).(events := events)
  }

  lemma OverdueResult(s: Store, prices: Prices, until: Instant, extended: Instant)
    requires s == PaidStore(FirstSubscription(until)) && extended == Max(until, CycleEnd(23, Monthly))
    ensures Apply(s, OverdueStep(), prices) == OverdueStore(extended, map[9 := true])
  {
    LateInvoiceApplied(s.(events := map[9 := false]), LateInvoice(), prices, At(18), until, extended);
    DeliveredFirst(s, 9, LateInvoice(), prices, At(18), OverdueStore(extended, map[9 := false]));
  }

  lemma LateInvoiceApplied(s: Store, e: PaymentEvent, prices: Prices, r: Readings, until: Instant, extended: Instant)
    requires s == PaidStore(FirstSubscription(until)).(events := map[9 := false])
    requires e == LateInvoice() && r == At(18) && extended == Max(until, CycleEnd(r.t5, Monthly))
    ensures PaymentApplied(s, e, prices, r) == OverdueStore(extended, map[9 := false])
  {
    var t := PaidStore(FirstSubscription(extended)).(events := map[9 := false]);
    assert CommonPixApplied(s, e, r) == s && PixInitialApplied(s, e, r) == s;
    LateInvoiceRenews(s, e, r, until, extended);
    LateInvoiceBlocks(t, e, prices, r.t6, extended);
  }

  lemma LateInvoiceBlocks(s: Store, e: PaymentEvent, prices: Prices, now: Instant, until: Instant)
    requires s == PaidStore(FirstSubscription(until)).(events := map[9 := false]) && e == LateInvoice()
    ensures SubscriptionPaymentApplied(s, e, prices, now) == OverdueStore(until, map[9 := false])
  {
    assert WithRecurrence(5)(s.subscriptions[0]);
    assert PaymentSubscription(s, e) == Some(0);
    OneRow(FirstSubscription(until), FirstSubscription(until).(status := PastDue));
  }

  lemma LateInvoiceRenews(s: Store, e: PaymentEvent, r: Readings, until: Instant, extended: Instant)
    requires s == PaidStore(FirstSubscription(until)).(events := map[9 := false])
    requires e == LateInvoice() && r == At(18) && extended == Max(until, CycleEnd(r.t5, Monthly))
    ensures CardApplied(s, e, r) == PaidStore(FirstSubscription(extended)).(events := map[9 := false])
  {
    assert ByRecurrence(5, CreditCard)(s.checkouts[0]) && ForCheckout(0)(s.subscriptions[0]);
    assert CardCheckout(s, e) == Some(0) && SubscriptionFor(s, 0) == Some(0);
    OneRow(PaidCheckout(), PaidCheckout());
    OneRow(FirstSubscription(until), FirstSubscription(extended));
  }

  lemma OverdueAfterThree(prices: Prices, until: Instant, extended: Instant)
    requires until == CycleEnd(11, Monthly) && extended == Max(until, CycleEnd(23, Monthly))
    ensures Run(EmptyStore(), PaidThenOverdue(), prices) == OverdueStore(extended, map[9 := true])
    ensures Timed(0, PaidThenOverdue()) && Inv(OverdueStore(extended, map[9 := true]), 24)
  {
    var steps := [OpeningStep(), PayingStep()];
    assert PaidThenOverdue() == steps + [OverdueStep()];
    PaidAfterTwo(prices, until);
    RunThen(EmptyStore(), steps, [OverdueStep()], prices);
    OverdueResult(PaidStore(FirstSubscription(until)), prices, until, extended);
    RunOfOne(PaidStore(FirstSubscription(until)), OverdueStep(), prices);
    assert PaidThenOverdue()[1..] == [PayingStep(), OverdueStep()] && PaidThenOverdue()[1..][1..] == [OverdueStep()];
    EmptyIsGood(0);
    RunKeepsRows(EmptyStore(), PaidThenOverdue(), prices, 0);
    assert EndOf(0, PaidThenOverdue()) == 24;
  }

  /** With nothing paid: canceling, asking for the refund in time, losing the recurrence, or the next invoice. */
  predicate PaysNothing(step: Step, now: Instant) {
    || step in {CancelStep(now), DeletedStep(now), NextInvoiceStep(now)}
    || (step == RefundStep(now) && now + 1 <= 10 + GUARANTEE)
  }

  lemma OverdueIsLifted(s: Store, step: Step, prices: Prices, until: Instant, now: Instant)
    requires s == OverdueStore(until, map[9 := true]) && PaysNothing(step, now)
    ensures Lifts(s, step, prices, 0) && step.readings == At(now)
  {
    assert OfBusiness(1)(s.subscriptions[0]) && WithRecurrence(5)(s.subscriptions[0]);
    assert ByRecurrence(5, CreditCard)(s.checkouts[0]) && ForCheckout(0)(s.subscriptions[0]);
    assert NotPaidBefore(s.checkouts, 1, 0, 0);
  }

  lemma OverdueHasNoAccess(s: Store, until: Instant, at: Instant)
    requires s == OverdueStore(until, map[9 := true])
    ensures !HasAccess(s, 1, at)
  {
  }

  lemma OverdueRegains(s: Store, step: Step, prices: Prices, until: Instant, now: Instant, at: Instant)
    requires s == OverdueStore(until, map[9 := true]) && Inv(s, 24) && 24 <= now && at < until
    requires PaysNothing(step, now)
    ensures HasAccess(Apply(s, step, prices), 1, at)
  {
    OverdueIsLifted(s, step, prices, until, now);
    LiftedBlockRestoresAccess(s, step, prices, 24, 0, at);
  }

  /** An overdue customer has no access, and after any one of these has it again to the end of the period. */
  lemma OverdueCustomerRegainsAccess(prices: Prices, step: Step, now: Instant, at: Instant)
    requires 24 <= now && at < CycleEnd(11, Monthly) && PaysNothing(step, now)
    ensures var s := Run(EmptyStore(), PaidThenOverdue(), prices);
            Timed(0, PaidThenOverdue()) && !HasAccess(s, 1, at) && HasAccess(Apply(s, step, prices), 1, at)
  {
    var until := CycleEnd(11, Monthly);
    var extended := Max(until, CycleEnd(23, Monthly));
    var s := Run(EmptyStore(), PaidThenOverdue(), prices);
    OverdueAfterThree(prices, until, extended);
    OverdueHasNoAccess(s, extended, at);
    OverdueRegains(s, step, prices, extended, now, at);
  }

  lemma NextInvoiceRenews(s: Store, until: Instant, e: PaymentEvent, r: Readings)
    requires s.checkouts == [PaidCheckout()] && e == NextInvoice()
    requires s.subscriptions == [FirstSubscription(until).(status := PastDue)]
    ensures CardRenews(s, e, 0) && r.t5 < CardUntil(s, e, r)
  {
    assert ByRecurrence(5, CreditCard)(s.checkouts[0]) && ForCheckout(0)(s.subscriptions[0]);
    assert CardCheckout(s, e) == Some(0) && SubscriptionFor(s, 0) == Some(0);
  }

  lemma NextInvoiceGives(s: Store, e: PaymentEvent, prices: Prices, r: Readings, until: Instant)
    requires s == OverdueStore(until, map[9 := true]) && e == NextInvoice()
    ensures HasAccess(WebhookProcessed(s, 10, Payment(e), prices, r), 1, r.t5)
  {
    NextInvoiceRenews(Seen(s, 10), until, e, r);
    assert s.subscriptions[0].business == 1;
    CardEventBuysACycle(s, 10, e, prices, r, 0, r.t5);
  }

  /** However long ago the period ended, the next invoice, created and not paid, gives access at the instant it does. */
  lemma UnpaidInvoiceGivesAccess(prices: Prices, e: PaymentEvent, r: Readings)
    requires e == NextInvoice() && Increasing(24, r)
    ensures var s := Run(EmptyStore(), PaidThenOverdue(), prices);
            !HasAccess(s, 1, r.t5) && HasAccess(WebhookProcessed(s, 10, Payment(e), prices, r), 1, r.t5)
  {
    var until := CycleEnd(11, Monthly);
    var extended := Max(until, CycleEnd(23, Monthly));
    var s := Run(EmptyStore(), PaidThenOverdue(), prices);
    OverdueAfterThree(prices, until, extended);
    OverdueHasNoAccess(s, extended, r.t5);
    NextInvoiceGives(s, e, prices, r, extended);
  }
}
