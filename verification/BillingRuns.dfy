/**
 Runs of the billing: any sequence of API calls with any gateway answers, and of webhook
 deliveries in any order, repeated or cut short.
 */
module BillingRuns {
  import opened BillingDomain
  import opened BillingInvariants
  import opened BillingSafety
  import opened BillingSteps
  import opened Seqs

  datatype Action =
    | CreateCheckout(request: CheckoutRequest, retireOk: bool, made: Preparation)
    | PayCard(business: nat, checkout: nat, allowed: bool, card: CardGateway)
    | PollCheckout(business: nat, checkout: nat)
    | CancelCheckout(business: nat, checkout: nat, gatewayOk: bool)
    | ReadStatus(business: nat, gateway: RefundGateway)
    | RequestRefund(business: nat, gateway: RefundGateway)
    | RequestCancellation(business: nat, gateway: RefundGateway)
    | Upgrade(business: nat, plusEnabled: bool, gatewayOk: bool, gateway: RefundGateway)
    | Deliver(id: nat, event: Event)
    | Interrupt(id: nat, event: Event, applied: bool)

  datatype Step = Step(action: Action, readings: Readings)

  function Apply(s: Store, step: Step, prices: Prices): Store {
    var r := step.readings;
    match step.action
    case CreateCheckout(q, retireOk, made) => CheckoutCreated(s, q, retireOk, made, r)
    case PayCard(business, c, allowed, g) => CardPaid(s, business, c, allowed, g, r)
    case PollCheckout(business, c) => CheckoutPolled(s, business, c, r.t1)
    case CancelCheckout(business, c, gatewayOk) => CheckoutAbandoned(s, business, c, gatewayOk)
    case ReadStatus(business, g) => StatusRead(s, business, g, r)
    case RequestRefund(business, g) => RefundAsked(s, business, g, r)
    case RequestCancellation(business, g) => CancellationAsked(s, business, g, r)
    case Upgrade(business, plusEnabled, gatewayOk, g) => UpgradeAsked(s, business, plusEnabled, gatewayOk, g, r)
    case Deliver(id, e) => WebhookProcessed(s, id, e, prices, r)
    case Interrupt(id, e, applied) => WebhookInterrupted(s, id, e, applied, prices, r)
  }

  function Run(s: Store, steps: seq<Step>, prices: Prices): Store
    decreases |steps|
  {
    if steps == [] then s else Run(Apply(s, steps[0], prices), steps[1..], prices)
  }

  lemma {:induction false} RunThen(s: Store, before: seq<Step>, after: seq<Step>, prices: Prices)
    ensures Run(s, before + after, prices) == Run(Run(s, before, prices), after, prices)
    decreases |before|
  {
    if before == [] {
      assert before + after == after;
    } else {
      RunThen(Apply(s, before[0], prices), before[1..], after, prices);
      assert (before + after)[1..] == before[1..] + after;
    }
  }

  /** The clock strictly increases from reading to reading, within steps and between them. */
  ghost predicate Timed(clock: Instant, steps: seq<Step>)
    decreases |steps|
  {
    steps != [] ==> Increasing(clock, steps[0].readings) && Timed(steps[0].readings.t6, steps[1..])
  }

  function EndOf(clock: Instant, steps: seq<Step>): Instant
    decreases |steps|
  {
    if steps == [] then clock else EndOf(steps[0].readings.t6, steps[1..])
  }

  function EmptyStore(): Store { Store([], [], [], map[]) }

  lemma EmptyIsGood(clock: Instant)
    ensures Inv(EmptyStore(), clock)
  {
  }

  // ---- One step ----

  /** The subscription whose access a step may take: by a withdrawing payment event or a completed refund. */
  function TakenFrom(s: Store, step: Step, prices: Prices): Option<nat> {
    match step.action
    case ReadStatus(business, _) => Ended(s, business, Apply(s, step, prices))
    case RequestRefund(business, _) => Ended(s, business, Apply(s, step, prices))
    case RequestCancellation(business, _) => Ended(s, business, Apply(s, step, prices))
    case Upgrade(business, _, _, _) => Ended(s, business, Apply(s, step, prices))
    case Deliver(id, e) => EventWithdraws(Seen(s, id), e, step.readings)
    case Interrupt(id, e, _) => EventWithdraws(Seen(s, id), e, step.readings)
    case CreateCheckout(_, _, _) => None
    case PayCard(_, _, _, _) => None
    case PollCheckout(_, _) => None
    case CancelCheckout(_, _, _) => None
  }

  function Ended(s: Store, business: nat, t: Store): Option<nat> {
    match LatestSubscription(s, business)
    case None => None
    case Some(i) => EndedBy(s, i, t)
  }

  lemma StepIsGood(s: Store, step: Step, prices: Prices, clock: Instant)
    requires Inv(s, clock) && Increasing(clock, step.readings)
    ensures Good(s, Apply(s, step, prices), clock, step.readings.t6, TakenFrom(s, step, prices))
  {
    match step.action {
      case Deliver(id, e) => DeliveryIsGood(s, e, id, prices, clock, step.readings);
      case Interrupt(id, e, applied) => InterruptionIsGood(s, e, id, applied, prices, clock, step.readings);
      case ReadStatus(business, g) => RefundCallIsGood(s, step, business, g, prices, clock);
      case RequestRefund(business, g) => RefundCallIsGood(s, step, business, g, prices, clock);
      case RequestCancellation(_, _) => SubscriptionCallIsGood(s, step, prices, clock);
      case Upgrade(_, _, _, _) => SubscriptionCallIsGood(s, step, prices, clock);
      case CreateCheckout(_, _, _) => CheckoutCallIsGood(s, step, prices, clock);
      case PayCard(_, _, _, _) => CheckoutCallIsGood(s, step, prices, clock);
      case PollCheckout(_, _) => CheckoutCallIsGood(s, step, prices, clock);
      case CancelCheckout(_, _, _) => CheckoutCallIsGood(s, step, prices, clock);
    }
  }

  predicate CheckoutCall(a: Action) {
    a.CreateCheckout? || a.PayCard? || a.PollCheckout? || a.CancelCheckout?
  }

  lemma CheckoutCallIsGood(s: Store, step: Step, prices: Prices, clock: Instant)
    requires Inv(s, clock) && Increasing(clock, step.readings) && CheckoutCall(step.action)
    ensures Good(s, Apply(s, step, prices), clock, step.readings.t6, None)
  {
    var r := step.readings;
    match step.action {
      case CreateCheckout(q, retireOk, made) => CheckoutCreatedIsGood(s, q, retireOk, made, clock, r);
      case PayCard(business, c, allowed, g) =>
        var t := CardPaid(s, business, c, allowed, g, r);
        CardPaidIsGood(s, business, c, allowed, g, clock, r);
        Unchanged(t, r.t5, r.t6, None);
        GoodThen(s, t, t, clock, r.t5, r.t6, None);
      case PollCheckout(business, c) => CheckoutPolledIsGood(s, business, c, r.t1, clock, r.t6);
      case CancelCheckout(business, c, gatewayOk) => CheckoutAbandonedIsGood(s, business, c, gatewayOk, clock, r.t6);
    }
  }

  lemma SubscriptionCallIsGood(s: Store, step: Step, prices: Prices, clock: Instant)
    requires Inv(s, clock) && Increasing(clock, step.readings)
    requires step.action.RequestCancellation? || step.action.Upgrade?
    ensures Good(s, Apply(s, step, prices), clock, step.readings.t6,
        Ended(s, step.action.business, Apply(s, step, prices)))
  {
    var r := step.readings;
    if LatestSubscription(s, step.action.business).None? {
      Unchanged(s, clock, r.t6, None);
    } else {
      match step.action {
        case RequestCancellation(business, g) => CancellationIsGood(s, business, g, clock, r);
        case Upgrade(business, plusEnabled, gatewayOk, g) => UpgradeIsGood(s, business, plusEnabled, gatewayOk, g,
            clock, r);
      }
    }
  }

  lemma RefundCallIsGood(s: Store, step: Step, business: nat, g: RefundGateway, prices: Prices, clock: Instant)
    requires Inv(s, clock) && Increasing(clock, step.readings)
    requires step.action == ReadStatus(business, g) || step.action == RequestRefund(business, g)
    ensures var t := Apply(s, step, prices); Good(s, t, clock, step.readings.t6, Ended(s, business, t))
  {
    match LatestSubscription(s, business) {
      case None => Unchanged(s, clock, step.readings.t6, None);
      case Some(i) =>
        ResumedThenReconciledIsGood(s, i, g, clock, step.readings);
        if s.subscriptions[i].refund == NoRefund {
          FirstRequestIsGood(s, i, g, clock, step.readings);
        }
    }
  }

  lemma SeenIsGood(s: Store, id: nat, clock: Instant, hi: Instant, lost: Option<nat>)
    requires Inv(s, clock) && clock <= hi
    ensures Good(s, Seen(s, id), clock, hi, lost)
  {
    Unchanged(s, clock, hi, lost);
    MarkingIsGood(s, s, Seen(s, id).events, clock, hi, lost);
  }

  lemma InterruptionIsGood(s: Store, e: Event, id: nat, applied: bool, prices: Prices, clock: Instant, r: Readings)
    requires Inv(s, clock) && Increasing(clock, r)
    ensures Good(s, WebhookInterrupted(s, id, e, applied, prices, r), clock, r.t6, EventWithdraws(Seen(s, id), e, r))
  {
    var lost := EventWithdraws(Seen(s, id), e, r);
    Unchanged(s, clock, r.t6, lost);
    SeenIsGood(s, id, clock, r.t6, lost);
    SeenIsGood(s, id, clock, clock, None);
    EventIsGood(Seen(s, id), e, prices, clock, r);
    GoodThen(s, Seen(s, id), EventApplied(Seen(s, id), e, prices, r), clock, clock, r.t6, lost);
  }

  lemma DeliveryIsGood(s: Store, e: Event, id: nat, prices: Prices, clock: Instant, r: Readings)
    requires Inv(s, clock) && Increasing(clock, r)
    ensures Good(s, WebhookProcessed(s, id, e, prices, r), clock, r.t6, EventWithdraws(Seen(s, id), e, r))
  {
    var lost := EventWithdraws(Seen(s, id), e, r);
    var t := WebhookInterrupted(s, id, e, true, prices, r);
    InterruptionIsGood(s, e, id, true, prices, clock, r);
    MarkingIsGood(s, t, t.events[id := true], clock, r.t6, lost);
  }

  lemma MarkingIsGood(s: Store, t: Store, events: map<nat, bool>, lo: Instant, hi: Instant, lost: Option<nat>)
    requires Good(s, t, lo, hi, lost)
    ensures Good(s, t.(events := events), lo, hi, lost)
  {
    var u := t.(events := events);
    forall i | 0 <= i < |u.subscriptions| ensures Linked(u, i) {
      assert Linked(t, i);
    }
    forall j | 0 <= j < |u.refundCalls| ensures CallShown(u, j) {
      assert CallShown(t, j);
    }
  }

  // ---- Whole runs ----

  ghost predicate Lasting(a: seq<Subscription>, b: seq<Subscription>, i: nat)
    requires i < |a| <= |b|
  {
    SubscriptionBecomes(a[i], b[i])
  }

  /** What lasts over any number of steps: write-once instants, and refunds on record. */
  ghost predicate Evolved(s: Store, t: Store, lo: Instant, hi: Instant) {
    && lo <= hi
    && |s.checkouts| <= |t.checkouts| && |s.subscriptions| <= |t.subscriptions|
    && (forall c | 0 <= c < |s.checkouts| :: CheckoutKept(s.checkouts, t.checkouts, lo, hi, c))
    && (forall c | |s.checkouts| <= c < |t.checkouts| :: NewCheckoutUnpaid(t.checkouts, lo, hi, c))
    && (forall i | 0 <= i < |s.subscriptions| :: Lasting(s.subscriptions, t.subscriptions, i))
  }

  lemma KeptThenEvolved(s: Store, t: Store, u: Store, lo: Instant, mid: Instant, hi: Instant, lost: Option<nat>)
    requires Kept(s, t, lo, mid, lost) && Evolved(t, u, mid, hi)
    ensures Evolved(s, u, lo, hi)
  {
    forall c | 0 <= c < |s.checkouts| ensures CheckoutKept(s.checkouts, u.checkouts, lo, hi, c) {
      assert CheckoutKept(s.checkouts, t.checkouts, lo, mid, c);
      assert CheckoutKept(t.checkouts, u.checkouts, mid, hi, c);
    }
    forall c | |s.checkouts| <= c < |u.checkouts| ensures NewCheckoutUnpaid(u.checkouts, lo, hi, c) {
      if c < |t.checkouts| {
        assert NewCheckoutUnpaid(t.checkouts, lo, mid, c);
        assert CheckoutKept(t.checkouts, u.checkouts, mid, hi, c);
      } else {
        assert NewCheckoutUnpaid(u.checkouts, mid, hi, c);
      }
    }
    forall i | 0 <= i < |s.subscriptions| ensures Lasting(s.subscriptions, u.subscriptions, i) {
      assert SubscriptionKept(s.subscriptions, t.subscriptions, lost, i);
      assert Lasting(t.subscriptions, u.subscriptions, i);
    }
  }

  /**
   Over every run the invariant holds, paid_at is written once, and a refund status never
   returns to none.
   */
  lemma {:induction false} RunKeepsRows(s: Store, steps: seq<Step>, prices: Prices, clock: Instant)
    requires Inv(s, clock) && Timed(clock, steps)
    ensures Inv(Run(s, steps, prices), EndOf(clock, steps))
    ensures Evolved(s, Run(s, steps, prices), clock, EndOf(clock, steps))
    decreases |steps|
  {
    if steps == [] {
      Unchanged(s, clock, clock, None);
      forall i | 0 <= i < |s.subscriptions| ensures Lasting(s.subscriptions, s.subscriptions, i) {
      }
    } else {
      var t := Apply(s, steps[0], prices);
      var mid := steps[0].readings.t6;
      StepIsGood(s, steps[0], prices, clock);
      RunKeepsRows(t, steps[1..], prices, mid);
      KeptThenEvolved(s, t, Run(s, steps, prices), clock, mid, EndOf(clock, steps), TakenFrom(s, steps[0], prices));
    }
  }

  // ---- Access ----

  /** active_subscription_exists. */
  ghost predicate HasAccess(s: Store, business: nat, at: Instant) {
    exists i :: GrantsAt(s.subscriptions, i, business, at)
  }

  ghost predicate GrantsAt(a: seq<Subscription>, i: int, business: nat, at: Instant) {
    0 <= i < |a| && a[i].business == business && Grants(a[i], at)
  }

  // What the inputs of a step say about the access it may take.

  predicate AsksProvider(a: Action) {
    a.ReadStatus? || a.RequestRefund? || a.RequestCancellation? || a.Upgrade?
  }

  /** The call concerns this subscription, its refund is asked for, and the provider reports it done. */
  predicate FoundDone(s: Store, a: Action, i: nat) {
    && AsksProvider(a) && LatestSubscription(s, a.business) == Some(i) && i < |s.subscriptions|
    && var x := s.subscriptions[i];
       && (x.refund in {Requested, ReconcileRequired} || (a.RequestRefund? && x.refund == NoRefund))
       && x.checkout < |s.checkouts| && a.gateway.details.Some?
       && RefundVerdict(a.gateway.details.value, s.checkouts[x.checkout].amount) == AllDone
  }

  /** The delivered payment event is for this subscription and of one of these kinds. */
  predicate DeliversTo(s: Store, step: Step, i: nat, kinds: PaymentKind -> bool) {
    && (step.action.Deliver? || step.action.Interrupt?)
    && step.action.event.Payment? && kinds(step.action.event.payment.kind)
    && EventWithdraws(Seen(s, step.action.id), step.action.event, step.readings) == Some(i)
  }

  function Withdrawing(): PaymentKind -> bool { (kind: PaymentKind) => Withdraws(kind) }

  function Cutting(): PaymentKind -> bool { (kind: PaymentKind) => CutsPeriod(kind) }

  /** A step may block this subscription: an overdue, refund or chargeback event for it, or its refund found done. */
  predicate MayBlock(s: Store, step: Step, i: nat) {
    FoundDone(s, step.action, i) || DeliversTo(s, step, i, Withdrawing())
  }

  /** A step may end its paid period: the same without overdue. */
  predicate MayCut(s: Store, step: Step, i: nat) {
    FoundDone(s, step.action, i) || DeliversTo(s, step, i, Cutting())
  }

  lemma ReconciledOnlyIfReported(s: Store, i: nat, details: Option<seq<ProviderRefund>>, now: Instant)
    requires i < |s.subscriptions|
    ensures EndedBy(s, i, RefundReconciled(s, i, details, now)).Some? ==>
              var x := s.subscriptions[i];
              && x.refund in {Requested, ReconcileRequired} && x.checkout < |s.checkouts| && details.Some?
              && RefundVerdict(details.value, s.checkouts[x.checkout].amount) == AllDone
  {
  }

  lemma AmountsStay(s: Store, c: nat, payments: Option<seq<ProviderPayment>>)
    requires c < |s.checkouts|
    ensures WithResolvedPayment(s, c, payments).checkouts[c].amount == s.checkouts[c].amount
  {
  }

  lemma ResumedOnlyIfReported(s: Store, i: nat, g: RefundGateway, r: Readings)
    requires i < |s.subscriptions|
    ensures EndedBy(s, i, ResumedThenReconciled(s, i, g, r)).Some? ==>
              var x := s.subscriptions[i];
              && x.refund in {Requested, ReconcileRequired} && x.checkout < |s.checkouts| && g.details.Some?
              && RefundVerdict(g.details.value, s.checkouts[x.checkout].amount) == AllDone
  {
    var x := s.subscriptions[i];
    var t := if Resumable(x) then RefundResumed(s, i, g, r.t1) else s;
    if x.checkout < |s.checkouts| {
      AmountsStay(s, x.checkout, g.payments);
    }
    ReconciledOnlyIfReported(t, i, g.details, r.t2);
  }

  lemma FirstAskedOnlyIfReported(s: Store, i: nat, g: RefundGateway, r: Readings)
    requires i < |s.subscriptions|
    ensures EndedBy(s, i, RefundFirstAsked(s, i, g, r)).Some? ==>
              var x := s.subscriptions[i];
              && x.checkout < |s.checkouts| && g.details.Some?
              && RefundVerdict(g.details.value, s.checkouts[x.checkout].amount) == AllDone
  {
    var x := s.subscriptions[i];
    if GuaranteeEligible(s, i, r.t1) && x.status != Suspended {
      AmountsStay(s, x.checkout, g.payments);
      var t := WithResolvedPayment(s, x.checkout, g.payments);
      var asked := x.(cancellationRequestedAt := OrElse(x.cancellationRequestedAt, r.t2),
                      refundRequestedAt := OrElse(x.refundRequestedAt, r.t2));
      ReconciledOnlyIfReported(WithSubscription(t, i, asked.(refund := ReconcileRequired)), i, g.details, r.t4);
      ReconciledOnlyIfReported(Submitted(WithSubscription(t, i, asked.(refund := Requested)), i, true, g.refundOk,
          r.t3),
                               i, g.details, r.t4);
    }
  }

  /** Access lost to an API call was lost to a refund that the provider reported done. */
  lemma EndedOnlyIfFoundDone(s: Store, step: Step, prices: Prices, i: nat)
    requires AsksProvider(step.action) && TakenFrom(s, step, prices) == Some(i)
    ensures FoundDone(s, step.action, i)
  {
    var r := step.readings;
    match step.action {
      case ReadStatus(_, g) => ResumedOnlyIfReported(s, i, g, r);
      case RequestRefund(_, g) =>
        ResumedOnlyIfReported(s, i, g, r);
        FirstAskedOnlyIfReported(s, i, g, r);
      case RequestCancellation(_, _) =>
      case Upgrade(_, _, _, _) =>
    }
  }

  /**
   A step blocks a subscription or shortens its access only if its inputs say so: a payment event
   that is overdue, a refund or a chargeback and is for this very subscription, or a call that
   finds its refund done.
   */
  lemma OnlyWithdrawalsCutAccess(s: Store, step: Step, prices: Prices, clock: Instant, i: nat)
    requires Inv(s, clock) && Increasing(clock, step.readings) && i < |s.subscriptions|
    ensures var t := Apply(s, step, prices);
            && |s.subscriptions| <= |t.subscriptions|
            && (AccessKept(s.subscriptions[i], t.subscriptions[i]) || MayBlock(s, step, i))
  {
    StepIsGood(s, step, prices, clock);
    var t := Apply(s, step, prices);
    assert SubscriptionKept(s.subscriptions, t.subscriptions, TakenFrom(s, step, prices), i);
    if AsksProvider(step.action) && TakenFrom(s, step, prices) == Some(i) {
      EndedOnlyIfFoundDone(s, step, prices, i);
    }
  }

  ghost predicate PeriodKept(a: seq<Subscription>, b: seq<Subscription>, i: nat)
    requires i < |a| <= |b|
  {
    a[i].accessUntil <= b[i].accessUntil
  }

  ghost predicate PeriodsKept(s: Store, t: Store) {
    |s.subscriptions| <= |t.subscriptions|
    && forall i | 0 <= i < |s.subscriptions| :: PeriodKept(s.subscriptions, t.subscriptions, i)
  }

  /** The paid period itself ends earlier only by a refund or a chargeback: overdue and cancellation leave it. */
  lemma OnlyRefundsShortenPeriods(s: Store, step: Step, prices: Prices, clock: Instant, i: nat)
    requires Inv(s, clock) && Increasing(clock, step.readings) && i < |s.subscriptions|
    ensures var t := Apply(s, step, prices);
            && |s.subscriptions| <= |t.subscriptions|
            && (PeriodKept(s.subscriptions, t.subscriptions, i) || MayCut(s, step, i))
  {
    var t := Apply(s, step, prices);
    OnlyWithdrawalsCutAccess(s, step, prices, clock, i);
    if PaysWithoutCutting(step.action) {
      OtherEventsKeepPeriods(s, step, prices, clock);
      assert PeriodKept(s.subscriptions, t.subscriptions, i);
    }
  }

  predicate PaysWithoutCutting(a: Action) {
    (a.Deliver? || a.Interrupt?) && a.event.Payment? && !CutsPeriod(a.event.payment.kind)
  }

  lemma OtherEventsKeepPeriods(s: Store, step: Step, prices: Prices, clock: Instant)
    requires Inv(s, clock) && Increasing(clock, step.readings) && PaysWithoutCutting(step.action)
    ensures PeriodsKept(s, Apply(s, step, prices))
  {
    var a, r := step.action, step.readings;
    if a.Deliver? {
      ApplyDeliver(s, a.id, a.event, prices, r);
      DeliveryKeepsPeriods(s, a.id, a.event, prices, clock, r);
      assert step == Step(Deliver(a.id, a.event), r);
    } else {
      ApplyInterrupt(s, a.id, a.event, a.applied, prices, r);
      InterruptionKeepsPeriods(s, a.id, a.event, a.applied, prices, clock, r);
      assert step == Step(Interrupt(a.id, a.event, a.applied), r);
    }
  }

  lemma ApplyDeliver(s: Store, id: nat, e: Event, prices: Prices, r: Readings)
    ensures Apply(s, Step(Deliver(id, e), r), prices) == WebhookProcessed(s, id, e, prices, r)
  {
  }

  lemma ApplyInterrupt(s: Store, id: nat, e: Event, applied: bool, prices: Prices, r: Readings)
    ensures Apply(s, Step(Interrupt(id, e, applied), r), prices) == WebhookInterrupted(s, id, e, applied, prices, r)
  {
  }

  lemma DeliveryKeepsPeriods(s: Store, id: nat, e: Event, prices: Prices, clock: Instant, r: Readings)
    requires Inv(s, clock) && Increasing(clock, r) && e.Payment? && !CutsPeriod(e.payment.kind)
    ensures PeriodsKept(s, WebhookProcessed(s, id, e, prices, r))
  {
    var t := WebhookInterrupted(s, id, e, true, prices, r);
    InterruptionKeepsPeriods(s, id, e, true, prices, clock, r);
    MarkingKeepsPeriods(s, t, t.events[id := true]);
  }

  lemma MarkingKeepsPeriods(s: Store, t: Store, events: map<nat, bool>)
    requires PeriodsKept(s, t)
    ensures PeriodsKept(s, t.(events := events))
  {
  }

  lemma InterruptionKeepsPeriods(
    s: Store, id: nat, e: Event, applied: bool, prices: Prices, clock: Instant, r: Readings)
    requires Inv(s, clock) && Increasing(clock, r) && e.Payment? && !CutsPeriod(e.payment.kind)
    ensures PeriodsKept(s, WebhookInterrupted(s, id, e, applied, prices, r))
  {
    SeenIsGood(s, id, clock, clock, None);
    var seen, t := Seen(s, id), WebhookInterrupted(s, id, e, applied, prices, r);
    OtherPaymentsKeepPeriods(seen, e.payment, prices, clock, r);
    forall i | 0 <= i < |s.subscriptions| ensures PeriodKept(s.subscriptions, t.subscriptions, i) {
    }
  }

  /** The step blocks no subscription of the business. */
  ghost predicate Spares(s: Store, step: Step, business: nat) {
    forall i: nat | i < |s.subscriptions| && s.subscriptions[i].business == business :: !MayBlock(s, step, i)
  }

  /** Whoever had access at an instant still has it after any step that spares it, whatever it takes from others. */
  lemma AccessSurvives(s: Store, step: Step, prices: Prices, clock: Instant, business: nat, at: Instant)
    requires Inv(s, clock) && Increasing(clock, step.readings) && HasAccess(s, business, at)
    requires Spares(s, step, business)
    ensures HasAccess(Apply(s, step, prices), business, at)
  {
    var t := Apply(s, step, prices);
    var i :| GrantsAt(s.subscriptions, i, business, at);
    StepIsGood(s, step, prices, clock);
    OnlyWithdrawalsCutAccess(s, step, prices, clock, i);
    assert !MayBlock(s, step, i);
    assert SubscriptionKept(s.subscriptions, t.subscriptions, TakenFrom(s, step, prices), i);
    assert GrantsAt(t.subscriptions, i, business, at);
  }

  ghost predicate AllSpare(s: Store, steps: seq<Step>, prices: Prices, business: nat)
    decreases |steps|
  {
    steps != [] ==> Spares(s, steps[0], business) && AllSpare(Apply(s, steps[0], prices), steps[1..], prices, business)
  }

  /** Over a whole run a business keeps its access if no step withdraws it: nothing else ends a paid period. */
  lemma {:induction false} AccessSurvivesRuns(
    s: Store, steps: seq<Step>, prices: Prices, clock: Instant, business: nat, at: Instant)
    requires Inv(s, clock) && Timed(clock, steps) && HasAccess(s, business, at)
    requires AllSpare(s, steps, prices, business)
    ensures HasAccess(Run(s, steps, prices), business, at)
    decreases |steps|
  {
    if steps != [] {
      StepIsGood(s, steps[0], prices, clock);
      AccessSurvives(s, steps[0], prices, clock, business, at);
      AccessSurvivesRuns(Apply(s, steps[0], prices), steps[1..], prices, steps[0].readings.t6, business, at);
    }
  }

  // ---- The guarantee ----

  lemma FirstPaidIsUnique(a: seq<Checkout>, business: nat, c: nat, d: nat)
    requires IsFirstPaid(a, business, c) && IsFirstPaid(a, business, d)
    ensures c == d
  {
    assert NotPaidBefore(a, business, d, c);
    assert NotPaidBefore(a, business, c, d);
  }

  /** Once a business has a first paid checkout, it stays the first, paid at the same instant. */
  lemma FirstPaidStays(s: Store, t: Store, lo: Instant, hi: Instant, business: nat, c: nat)
    requires Inv(s, lo) && Evolved(s, t, lo, hi) && IsFirstPaid(s.checkouts, business, c)
    ensures IsFirstPaid(t.checkouts, business, c) && t.checkouts[c].paidAt == s.checkouts[c].paidAt
  {
    assert PaidBy(s.checkouts, lo, c);
    assert CheckoutKept(s.checkouts, t.checkouts, lo, hi, c);
    forall d | 0 <= d < |t.checkouts| ensures NotPaidBefore(t.checkouts, business, d, c) {
      if d < |s.checkouts| {
        assert CheckoutKept(s.checkouts, t.checkouts, lo, hi, d);
        assert NotPaidBefore(s.checkouts, business, d, c);
      } else {
        assert NewCheckoutUnpaid(t.checkouts, lo, hi, d);
      }
    }
  }

  /**
   Over a whole run at most one checkout of a business is ever eligible for the guarantee, and
   only until seven days after the one instant at which it was paid.
   */
  lemma OneGuaranteePerBusiness(s: Store, steps: seq<Step>, prices: Prices, clock: Instant,
                                i: nat, now: Instant, j: nat, later: Instant)
    requires Inv(s, clock) && Timed(clock, steps)
    requires i < |s.subscriptions| && GuaranteeEligible(s, i, now)
    requires var t := Run(s, steps, prices);
             && j < |t.subscriptions| && GuaranteeEligible(t, j, later)
             && t.subscriptions[j].business == s.subscriptions[i].business
    ensures var t := Run(s, steps, prices); var c := s.subscriptions[i].checkout;
            && t.subscriptions[j].checkout == c && j == i
            && s.checkouts[c].paidAt.Some? && later <= s.checkouts[c].paidAt.value + GUARANTEE
  {
    var t := Run(s, steps, prices);
    var end := EndOf(clock, steps);
    var c := s.subscriptions[i].checkout;
    RunKeepsRows(s, steps, prices, clock);
    FirstPaidStays(s, t, clock, end, s.subscriptions[i].business, c);
    FirstPaidIsUnique(t.checkouts, s.subscriptions[i].business, c, t.subscriptions[j].checkout);
    assert Lasting(s.subscriptions, t.subscriptions, i);
    SameCheckout(t, i, j);
  }

  lemma SameCheckout(t: Store, i: nat, j: nat)
    requires LinkInv(t) && i < |t.subscriptions| && j < |t.subscriptions|
    requires t.subscriptions[i].checkout == t.subscriptions[j].checkout
    ensures i == j
  {
    assert i < j ==> OwnCheckout(t.subscriptions, i, j);
    assert j < i ==> OwnCheckout(t.subscriptions, j, i);
  }

  // ---- Webhook replay ----

  lemma {:induction false} ProcessedStays(s: Store, steps: seq<Step>, prices: Prices, id: nat)
    requires IsProcessed(s, id)
    ensures IsProcessed(Run(s, steps, prices), id)
    decreases |steps|
  {
    if steps != [] {
      StepKeepsProcessed(s, steps[0], prices, id);
      ProcessedStays(Apply(s, steps[0], prices), steps[1..], prices, id);
    }
  }

  lemma StepKeepsProcessed(s: Store, step: Step, prices: Prices, id: nat)
    requires IsProcessed(s, id)
    ensures IsProcessed(Apply(s, step, prices), id)
  {
  }

  /** Delivered again at any later time, with whatever payload, a processed event changes nothing. */
  lemma ReplayChangesNothing(s: Store, id: nat, e: Event, r: Readings, steps: seq<Step>, prices: Prices, again: Event,
      r2: Readings)
    ensures var t := Run(WebhookProcessed(s, id, e, prices, r), steps, prices);
            WebhookProcessed(t, id, again, prices, r2) == t
  {
    ProcessedStays(WebhookProcessed(s, id, e, prices, r), steps, prices, id);
  }
}
