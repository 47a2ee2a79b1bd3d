/**
 Which steps give access back to a blocked subscription.  A payment of the price does; so do a
 cancellation, a submitted refund and the end of a recurrence, because a canceled subscription
 counts until its end; and so does any event of a card payment, paid or not, because it
 activates a checkout that was paid before.
 */
module BillingUnblocking {
  import opened BillingDomain
  import opened BillingInvariants
  import opened BillingLaws
  import opened BillingRefunds
  import opened BillingRuns
  import opened BillingSafety
  import opened BillingSteps
  import opened Calendar
  import opened Seqs

  /** Subscription i of s was blocked and is not any more. */
  predicate Unblocked(s: Store, t: Store, i: nat)
    requires i < |s.subscriptions|
  {
    i < |t.subscriptions| && !Granting(s.subscriptions[i]) && Granting(t.subscriptions[i])
  }

  // ---- Calls ----

  /** The provider reports that refunds done cover what the subscription's checkout cost. */
  predicate ReportedDone(s: Store, x: Subscription, details: Option<seq<ProviderRefund>>) {
    x.checkout < |s.checkouts| && details.Some?
    && RefundVerdict(details.value, s.checkouts[x.checkout].amount) == AllDone
  }

  /** What a reconciliation suspends: a refund asked for, of a known payment, reported done. */
  predicate EndsRefund(s: Store, x: Subscription, details: Option<seq<ProviderRefund>>) {
    && x.refund in {Requested, ReconcileRequired} && ReportedDone(s, x, details)
    && s.checkouts[x.checkout].payment.Some?
  }

  lemma ReconciledRow(s: Store, i: nat, details: Option<seq<ProviderRefund>>, now: Instant, j: nat)
    requires i < |s.subscriptions| && j < |s.subscriptions|
    ensures var t := RefundReconciled(s, i, details, now);
            && |t.subscriptions| == |s.subscriptions|
            && (i != j ==> t.subscriptions[j] == s.subscriptions[j])
            && t.subscriptions[i].accessUntil <= s.subscriptions[i].accessUntil
            && (Granting(t.subscriptions[i]) <==>
                  Granting(s.subscriptions[i]) && !EndsRefund(s, s.subscriptions[i], details))
  {
  }

  /** The overdue subscription is its business's latest, its recurrence can be canceled, and its refund is not done. */
  predicate CancellationLifts(s: Store, business: nat, g: RefundGateway, i: nat)
    requires i < |s.subscriptions|
  {
    var x := s.subscriptions[i];
    && LatestSubscription(s, business) == Some(i) && x.status == PastDue
    && RecurrenceCancels(x, g.recurrenceOk) && !EndsRefund(s, x, g.details)
  }

  /** Canceling gives an overdue customer the rest of the period back, whatever is still owed. */
  lemma CancellationUnblocksExactlyWhen(s: Store, business: nat, g: RefundGateway, r: Readings, i: nat)
    requires i < |s.subscriptions|
    ensures Unblocked(s, CancellationAsked(s, business, g, r), i) <==> CancellationLifts(s, business, g, i)
  {
    match LatestSubscription(s, business) {
      case None =>
      case Some(l) =>
        var x := s.subscriptions[l];
        var asked := x.(cancellationRequestedAt := OrElse(x.cancellationRequestedAt, r.t1));
        var local := WithSubscription(s, l, asked.(status := Canceled, canceledAt := Some(r.t1)));
        var canceled := WithSubscription(s, l, asked.(status := Canceled, canceledAt := OrElse(x.canceledAt, r.t2)));
        ReconciledRow(s, l, g.details, r.t3, i);
        ReconciledRow(local, l, g.details, r.t3, i);
        ReconciledRow(canceled, l, g.details, r.t3, i);
    }
  }

  /** The call submits the refund of the business's latest subscription, which is overdue, and finds it not done. */
  predicate SubmissionLifts(s: Store, a: Action, r: Readings, i: nat)
    requires i < |s.subscriptions| && (a.ReadStatus? || a.RequestRefund?)
  {
    var x := s.subscriptions[i];
    && LatestSubscription(s, a.business) == Some(i) && x.status == PastDue
    && (x.refund == ReconcileRequired
        || (a.RequestRefund? && x.refund == NoRefund && GuaranteeEligible(s, i, r.t1)))
    && Submittable(s, i, a.gateway) && !ReportedDone(s, x, a.gateway.details)
  }

  lemma ResumedUnblocksExactlyWhen(s: Store, l: nat, g: RefundGateway, r: Readings, i: nat)
    requires l < |s.subscriptions| && i < |s.subscriptions|
    ensures Unblocked(s, ResumedThenReconciled(s, l, g, r), i) <==>
              var x := s.subscriptions[i];
              && l == i && x.status == PastDue && x.refund == ReconcileRequired
              && Submittable(s, i, g) && !ReportedDone(s, x, g.details)
  {
    var t := if Resumable(s.subscriptions[l]) then RefundResumed(s, l, g, r.t1) else s;
    ReconciledRow(t, l, g.details, r.t2, i);
  }

  lemma FirstAskedUnblocksExactlyWhen(s: Store, l: nat, g: RefundGateway, r: Readings, i: nat)
    requires l < |s.subscriptions| && i < |s.subscriptions|
    ensures Unblocked(s, RefundFirstAsked(s, l, g, r), i) <==>
              var x := s.subscriptions[i];
              && l == i && x.status == PastDue && GuaranteeEligible(s, i, r.t1)
              && Submittable(s, i, g) && !ReportedDone(s, x, g.details)
  {
    var x := s.subscriptions[l];
    if GuaranteeEligible(s, l, r.t1) && x.status != Suspended {
      var t := WithResolvedPayment(s, x.checkout, g.payments);
      var asked := x.(cancellationRequestedAt := OrElse(x.cancellationRequestedAt, r.t2),
                      refundRequestedAt := OrElse(x.refundRequestedAt, r.t2));
      ReconciledRow(WithSubscription(t, l, asked.(refund := ReconcileRequired)), l, g.details, r.t4, i);
      ReconciledRow(Submitted(WithSubscription(t, l, asked.(refund := Requested)), l, true, g.refundOk, r.t3), l,
                    g.details, r.t4, i);
    }
  }

  /** Submitting a refund cancels the subscription, and so gives an overdue customer the period back meanwhile. */
  lemma SubmissionUnblocksExactlyWhen(s: Store, step: Step, prices: Prices, i: nat)
    requires i < |s.subscriptions| && (step.action.ReadStatus? || step.action.RequestRefund?)
    ensures Unblocked(s, Apply(s, step, prices), i) <==> SubmissionLifts(s, step.action, step.readings, i)
  {
    var a := step.action;
    match LatestSubscription(s, a.business) {
      case None =>
      case Some(l) =>
        ResumedUnblocksExactlyWhen(s, l, a.gateway, step.readings, i);
        FirstAskedUnblocksExactlyWhen(s, l, a.gateway, step.readings, i);
    }
  }

  // ---- Activation ----

  /** What an activation does to a subscription that was there: it renews its own and no other. */
  lemma ActivatedRow(s: Store, c: nat, now: Instant, i: nat)
    requires c < |s.checkouts| && i < |s.subscriptions|
    ensures var t := Activated(s, c, now); var k := s.checkouts[c];
            && |s.subscriptions| <= |t.subscriptions|
            && t.subscriptions[i] == if SubscriptionFor(s, c) == Some(i)
                                     then Renewed(s.subscriptions[i], k, CycleEnd(now, k.cycle))
                                     else s.subscriptions[i]
  {
  }

  // ---- Events ----

  /** A hosted card checkout with a recurrence is reported paid, once more or for the first time. */
  predicate CheckoutLifts(s: Store, kind: CheckoutKind, session: Ref, i: nat) {
    && kind == CheckoutPaidEvent
    && match FirstAt(s.checkouts, WithHosted(session))
       case None => false
       case Some(c) =>
         var k := s.checkouts[c];
         k.payWith == CreditCard && k.recurrence.Some? && SubscriptionFor(s, c) == Some(i)
  }

  lemma CheckoutEventUnblocksExactlyWhen(s: Store, kind: CheckoutKind, session: Ref, r: Readings, i: nat)
    requires i < |s.subscriptions| && !Granting(s.subscriptions[i])
    ensures Unblocked(s, CheckoutEventApplied(s, kind, session, r), i) <==> CheckoutLifts(s, kind, session, i)
  {
    match FirstAt(s.checkouts, WithHosted(session)) {
      case None =>
      case Some(c) =>
        var k := s.checkouts[c];
        var paid := if k.status == Paid then k else PaidAtFirst(k, r.t1);
        ActivatedRow(WithCheckout(s, c, paid), c, r.t2, i);
    }
  }

  /** The authorization ends, or is activated at the right amount. */
  predicate Moves(k: Checkout, e: AuthorizationEvent) {
    || e.kind in {AuthorizationCancelled, AuthorizationExpired}
    || (e.kind == AuthorizationActivated && e.cents == Some(k.amount))
  }

  /** The authorization of its checkout moves so, and its references do not conflict. */
  predicate AuthorizationLifts(s: Store, e: AuthorizationEvent, i: nat) {
    match AuthorizedCheckout(s, e)
    case None => false
    case Some(c) =>
      && SubscriptionFor(s, c) == Some(i) && AuthorizationBound(s.checkouts[c], e).Bound?
      && Moves(s.checkouts[c], e)
  }

  lemma AuthorizationUnblocksExactlyWhen(s: Store, e: AuthorizationEvent, r: Readings, i: nat)
    requires i < |s.subscriptions| && !Granting(s.subscriptions[i])
    ensures Unblocked(s, AuthorizationApplied(s, e, r), i) <==> AuthorizationLifts(s, e, i)
  {
    match AuthorizedCheckout(s, e) {
      case None =>
      case Some(c) =>
        match AuthorizationBound(s.checkouts[c], e) {
          case Conflict(_) =>
          case Bound(k) =>
            BoundAmount(s.checkouts[c], e);
            MovedRow(s, c, k, e, r, i);
        }
    }
  }

  lemma BoundAmount(k: Checkout, e: AuthorizationEvent)
    ensures AuthorizationBound(k, e).row.amount == k.amount
  {
  }

  lemma MovedRow(s: Store, c: nat, k: Checkout, e: AuthorizationEvent, r: Readings, i: nat)
    requires c < |s.checkouts| && i < |s.subscriptions| && !Granting(s.subscriptions[i])
    ensures Unblocked(s, AuthorizationMoved(s, c, k, e, r), i) <==> SubscriptionFor(s, c) == Some(i) && Moves(k, e)
  {
    ActivatedRow(WithCheckout(s, c, PaidAtFirst(k, r.t1)), c, r.t2, i);
  }

  // A payment event: two of its stages activate a checkout, the last is about the subscription.

  /** The event pays the subscription's common Pix checkout. */
  predicate PixRenews(s: Store, e: PaymentEvent, i: nat) {
    match CommonPixCheckout(s, e)
    case None => false
    case Some(c) => PaysCommonPix(s.checkouts[c], c, e) && SubscriptionFor(s, c) == Some(i)
  }

  /** The event, of whatever kind, is of the amount of the subscription's card checkout, paid by it or before. */
  predicate CardRenews(s: Store, e: PaymentEvent, i: nat) {
    match CardCheckout(s, e)
    case None => false
    case Some(c) =>
      var k := s.checkouts[c];
      && e.cents == Some(k.amount) && SubscriptionFor(s, c) == Some(i)
      && (k.status == Paid || (k.hosted.None? && Confirms(e)))
  }

  /** The subscription is renewed until that instant, or is as it was. */
  predicate RenewedIf(renews: bool, x: Subscription, y: Subscription, until: Instant) {
    if renews then
      && y.status == Active && y.accessUntil == Max(x.accessUntil, until)
      && y.checkout == x.checkout && y.business == x.business && y.plan == x.plan && y.cycle == x.cycle
    else y == x
  }

  function PixUntil(s: Store, e: PaymentEvent, r: Readings): Instant {
    match CommonPixCheckout(s, e)
    case None => r.t2
    case Some(c) => CycleEnd(r.t2, s.checkouts[c].cycle)
  }

  function CardUntil(s: Store, e: PaymentEvent, r: Readings): Instant {
    match CardCheckout(s, e)
    case None => r.t5
    case Some(c) => CycleEnd(r.t5, s.checkouts[c].cycle)
  }

  lemma CommonPixRow(s: Store, e: PaymentEvent, r: Readings, i: nat)
    requires i < |s.subscriptions|
    ensures var t := CommonPixApplied(s, e, r);
            && |s.subscriptions| <= |t.subscriptions|
            && RenewedIf(PixRenews(s, e, i), s.subscriptions[i], t.subscriptions[i], PixUntil(s, e, r))
  {
    match CommonPixCheckout(s, e) {
      case None =>
      case Some(c) =>
        var k := s.checkouts[c];
        var known := if e.customer.Some? then k.(customer := e.customer) else k;
        var paid := PaidAtFirst(WithInitialPayment(known, true, e.id), r.t1);
        ActivatedRow(WithCheckout(s, c, paid), c, r.t2, i);
    }
  }

  lemma CardRow(s: Store, e: PaymentEvent, r: Readings, i: nat)
    requires i < |s.subscriptions|
    ensures var t := CardApplied(s, e, r);
            && |s.subscriptions| <= |t.subscriptions|
            && RenewedIf(CardRenews(s, e, i), s.subscriptions[i], t.subscriptions[i], CardUntil(s, e, r))
  {
    match CardCheckout(s, e) {
      case None =>
      case Some(c) =>
        var bound := CardReferences(s.checkouts[c], e);
        var paid := if bound.hosted.None? && Confirms(e) then PaidAtFirst(bound, r.t4) else bound;
        ActivatedRow(WithCheckout(s, c, paid), c, r.t5, i);
    }
  }

  /** The card rows are as they were, and the subscriptions are still of the same checkouts. */
  ghost predicate SameCards(s: Store, t: Store) {
    && |t.checkouts| == |s.checkouts| && |s.subscriptions| <= |t.subscriptions|
    && (forall c | 0 <= c < |s.checkouts| :: SameCard(s.checkouts[c], t.checkouts[c]))
    && (forall i | 0 <= i < |s.subscriptions| :: t.subscriptions[i].checkout == s.subscriptions[i].checkout)
  }

  predicate SameCard(k: Checkout, l: Checkout) {
    l.payWith == k.payWith && (k.payWith == CreditCard ==> l == k)
  }

  lemma CardRenewsLater(s: Store, t: Store, e: PaymentEvent, r: Readings, i: nat)
    requires SameCards(s, t) && i < |s.subscriptions|
    ensures CardRenews(s, e, i) <==> CardRenews(t, e, i)
    ensures CardUntil(s, e, r) == CardUntil(t, e, r)
  {
    if e.recurrence.Some? {
      if e.session.Some? {
        SameCardFound(s, t, CardBySession(e.session.value));
      }
      SameCardFound(s, t, ByRecurrence(e.recurrence.value, CreditCard));
      if CardCheckout(s, e).Some? {
        FirstAtStays(s.subscriptions, t.subscriptions, ForCheckout(CardCheckout(s, e).value));
      }
    }
  }

  lemma SameCardFound(s: Store, t: Store, p: Checkout -> bool)
    requires SameCards(s, t) && forall k | p(k) :: k.payWith == CreditCard
    ensures FirstAt(t.checkouts, p) == FirstAt(s.checkouts, p)
  {
    forall c | 0 <= c < |s.checkouts| ensures p(s.checkouts[c]) == p(t.checkouts[c]) {
      assert SameCard(s.checkouts[c], t.checkouts[c]);
    }
    FirstAtStays(s.checkouts, t.checkouts, p);
  }

  lemma CommonPixKeepsCards(s: Store, e: PaymentEvent, r: Readings)
    ensures SameCards(s, CommonPixApplied(s, e, r))
  {
    var t := CommonPixApplied(s, e, r);
    forall i | 0 <= i < |s.subscriptions|
      ensures i < |t.subscriptions| && t.subscriptions[i].checkout == s.subscriptions[i].checkout
    {
      CommonPixRow(s, e, r, i);
    }
  }

  lemma PixInitialKeepsCards(s: Store, e: PaymentEvent, r: Readings)
    ensures SameCards(s, PixInitialApplied(s, e, r))
  {
    assert PixAutomaticCheckout(s, e).Some? ==> s.checkouts[PixAutomaticCheckout(s, e).value].payWith == PixAutomatic;
  }

  /** What the stages before the last leave of a subscription: renewed by a Pix payment, then by a card event. */
  lemma CapturedRow(s: Store, e: PaymentEvent, r: Readings, i: nat)
    requires i < |s.subscriptions|
    ensures var t1 := CommonPixApplied(s, e, r); var t := CapturedBy(s, e, r);
            && |s.subscriptions| <= |t1.subscriptions| <= |t.subscriptions|
            && RenewedIf(PixRenews(s, e, i), s.subscriptions[i], t1.subscriptions[i], PixUntil(s, e, r))
            && RenewedIf(CardRenews(s, e, i), t1.subscriptions[i], t.subscriptions[i], CardUntil(s, e, r))
  {
    var s1 := CommonPixApplied(s, e, r);
    var s2 := PixInitialApplied(s1, e, r);
    CommonPixRow(s, e, r, i);
    CommonPixKeepsCards(s, e, r);
    CardRenewsLater(s, s1, e, r, i);
    PixInitialKeepsCards(s1, e, r);
    CardRenewsLater(s1, s2, e, r, i);
    CardRow(s2, e, r, i);
  }

  /** The event is for the subscription once its references are captured. */
  predicate IsFor(s: Store, e: PaymentEvent, r: Readings, i: nat) {
    PaymentSubscription(CapturedBy(s, e, r), e) == Some(i)
  }

  /** The event confirms a payment of the subscription's price. */
  predicate PaysPrice(s: Store, e: PaymentEvent, prices: Prices, r: Readings, i: nat)
    requires i < |s.subscriptions|
  {
    var x := s.subscriptions[i];
    IsFor(s, e, r, i) && Confirms(e) && e.cents == Some(prices(x.plan, x.cycle))
  }

  /** It renews the subscription's checkout or pays its price, and does not itself withdraw access. */
  predicate PaymentLifts(s: Store, e: PaymentEvent, prices: Prices, r: Readings, i: nat)
    requires i < |s.subscriptions|
  {
    && (PixRenews(s, e, i) || CardRenews(s, e, i) || PaysPrice(s, e, prices, r, i))
    && !(Withdraws(e.kind) && IsFor(s, e, r, i))
  }

  lemma PaidThroughGrants(s: Store, x: Subscription, e: PaymentEvent, price: int, now: Instant)
    ensures Granting(PaidThrough(s, x, e, price, now)) <==>
              (Granting(x) || (Confirms(e) && e.cents == Some(price))) && !Withdraws(e.kind)
  {
  }

  lemma LastStageRow(s: Store, e: PaymentEvent, prices: Prices, now: Instant, i: nat)
    requires i < |s.subscriptions|
    ensures var t := SubscriptionPaymentApplied(s, e, prices, now); var x := s.subscriptions[i];
            var mine := PaymentSubscription(s, e) == Some(i);
            && |t.subscriptions| == |s.subscriptions|
            && (Granting(t.subscriptions[i]) <==>
                  && (Granting(x) || (mine && Confirms(e) && e.cents == Some(prices(x.plan, x.cycle))))
                  && !(Withdraws(e.kind) && mine))
  {
    var x := s.subscriptions[i];
    PaidThroughGrants(s, x, e, prices(x.plan, x.cycle), now);
  }

  lemma PaymentUnblocksExactlyWhen(s: Store, e: PaymentEvent, prices: Prices, r: Readings, i: nat)
    requires i < |s.subscriptions| && !Granting(s.subscriptions[i])
    ensures Unblocked(s, PaymentApplied(s, e, prices, r), i) <==> PaymentLifts(s, e, prices, r, i)
  {
    CapturedRow(s, e, r, i);
    LastStageRow(CapturedBy(s, e, r), e, prices, r.t6, i);
  }

  predicate EventLifts(s: Store, e: Event, prices: Prices, r: Readings, i: nat)
    requires i < |s.subscriptions|
  {
    match e
    case CheckoutEvent(kind, session) => CheckoutLifts(s, kind, session, i)
    case SubscriptionEvent(kind, recurrence, _) =>
      kind in {SubscriptionInactivated, SubscriptionDeleted}
      && FirstAt(s.subscriptions, WithRecurrence(recurrence)) == Some(i)
    case Payment(payment) => PaymentLifts(s, payment, prices, r, i)
    case Authorization(authorization) => AuthorizationLifts(s, authorization, i)
    case Instruction => false
  }

  lemma EventUnblocksExactlyWhen(s: Store, e: Event, prices: Prices, r: Readings, i: nat)
    requires i < |s.subscriptions| && !Granting(s.subscriptions[i])
    ensures Unblocked(s, EventApplied(s, e, prices, r), i) <==> EventLifts(s, e, prices, r, i)
  {
    match e {
      case CheckoutEvent(kind, session) => CheckoutEventUnblocksExactlyWhen(s, kind, session, r, i);
      case SubscriptionEvent(kind, recurrence, active) =>
        RecurrenceEventsUnblockExactlyWhen(s, kind, recurrence, active, r.t1, i);
      case Payment(payment) => PaymentUnblocksExactlyWhen(s, payment, prices, r, i);
      case Authorization(authorization) => AuthorizationUnblocksExactlyWhen(s, authorization, r, i);
      case Instruction =>
    }
  }

  // ---- All steps ----

  /** The inputs on which a step gives a blocked subscription access again. */
  predicate Lifts(s: Store, step: Step, prices: Prices, i: nat)
    requires i < |s.subscriptions|
  {
    var r := step.readings;
    match step.action
    case RequestCancellation(business, g) => CancellationLifts(s, business, g, i)
    case ReadStatus(_, _) => SubmissionLifts(s, step.action, r, i)
    case RequestRefund(_, _) => SubmissionLifts(s, step.action, r, i)
    case Deliver(id, e) => !IsProcessed(s, id) && EventLifts(Seen(s, id), e, prices, r, i)
    case Interrupt(id, e, applied) => applied && !IsProcessed(s, id) && EventLifts(Seen(s, id), e, prices, r, i)
    case CreateCheckout(_, _, _) => false
    case PayCard(_, _, _, _) => false
    case PollCheckout(_, _) => false
    case CancelCheckout(_, _, _) => false
    case Upgrade(_, _, _, _) => false
  }

  /** A delivery applies its event unless it is processed already, or cut short before. */
  lemma WebhookSubscriptions(s: Store, step: Step, prices: Prices)
    requires IsWebhook(step.action)
    ensures var a := step.action;
            Apply(s, step, prices).subscriptions ==
              if IsProcessed(s, a.id) || (a.Interrupt? && !a.applied) then s.subscriptions
              else EventApplied(Seen(s, a.id), a.event, prices, step.readings).subscriptions
  {
    var a, r := step.action, step.readings;
    if a.Deliver? {
      ApplyDeliver(s, a.id, a.event, prices, r);
      assert step == Step(Deliver(a.id, a.event), r);
    } else {
      ApplyInterrupt(s, a.id, a.event, a.applied, prices, r);
      assert step == Step(Interrupt(a.id, a.event, a.applied), r);
    }
  }

  /** A native card checkout that can be paid has no subscription yet. */
  lemma CardPaymentLeaves(s: Store, business: nat, c: nat, allowed: bool, g: CardGateway, r: Readings, clock: Instant,
      i: nat)
    requires Inv(s, clock) && i < |s.subscriptions|
    ensures var t := CardPaid(s, business, c, allowed, g, r);
            i < |t.subscriptions| && t.subscriptions[i] == s.subscriptions[i]
  {
    if c < |s.checkouts| && Native(s.checkouts[c]) && s.checkouts[c].status != Paid {
      UnpaidNativeHasNone(s, c);
      if g.found.Some? {
        NativeBoundOnlyAppends(s, c, g.found.value, g.payments, r);
      }
      ChargeOnlyAppends(WithCheckout(s, c, s.checkouts[c].(customer := g.customer, status := Creating)), c, g, r);
      var t := CardPaid(s, business, c, allowed, g, r);
      assert t.subscriptions[..|s.subscriptions|] == s.subscriptions;
      assert t.subscriptions[i] == t.subscriptions[..|s.subscriptions|][i];
    }
  }

  lemma CallUnblocksExactlyWhen(s: Store, step: Step, prices: Prices, clock: Instant, i: nat)
    requires Inv(s, clock) && i < |s.subscriptions| && !IsWebhook(step.action)
    ensures Unblocked(s, Apply(s, step, prices), i) <==> Lifts(s, step, prices, i)
  {
    match step.action {
      case RequestCancellation(business, g) => CancellationUnblocksExactlyWhen(s, business, g, step.readings, i);
      case ReadStatus(_, _) => SubmissionUnblocksExactlyWhen(s, step, prices, i);
      case RequestRefund(_, _) => SubmissionUnblocksExactlyWhen(s, step, prices, i);
      case PayCard(business, c, allowed, g) => CardPaymentLeaves(s, business, c, allowed, g, step.readings, clock, i);
      case CreateCheckout(_, _, _) =>
      case PollCheckout(_, _) =>
      case CancelCheckout(_, _, _) =>
      case Upgrade(_, _, _, _) =>
    }
  }

  /** A blocked subscription is unblocked by a step exactly on those inputs. */
  lemma StepUnblocksExactlyWhen(s: Store, step: Step, prices: Prices, clock: Instant, i: nat)
    requires Inv(s, clock) && i < |s.subscriptions| && !Granting(s.subscriptions[i])
    ensures Unblocked(s, Apply(s, step, prices), i) <==> Lifts(s, step, prices, i)
  {
    if IsWebhook(step.action) {
      WebhookSubscriptions(s, step, prices);
      EventUnblocksExactlyWhen(Seen(s, step.action.id), step.action.event, prices, step.readings, i);
    } else {
      CallUnblocksExactlyWhen(s, step, prices, clock, i);
    }
  }

  ghost predicate NeverLifted(s: Store, steps: seq<Step>, prices: Prices, i: nat)
    decreases |steps|
  {
    steps != [] ==>
      var t := Apply(s, steps[0], prices);
      i < |s.subscriptions| && !Lifts(s, steps[0], prices, i) && NeverLifted(t, steps[1..], prices, i)
  }

  /** Over a whole run a blocked subscription stays blocked unless some step meets that condition. */
  lemma {:induction false} BlockedStaysBlocked(s: Store, steps: seq<Step>, prices: Prices, clock: Instant, i: nat)
    requires Inv(s, clock) && Timed(clock, steps) && i < |s.subscriptions| && !Granting(s.subscriptions[i])
    requires NeverLifted(s, steps, prices, i)
    ensures var t := Run(s, steps, prices); i < |t.subscriptions| && !Granting(t.subscriptions[i])
    decreases |steps|
  {
    if steps != [] {
      StepIsGood(s, steps[0], prices, clock);
      StepUnblocksExactlyWhen(s, steps[0], prices, clock, i);
      BlockedStaysBlocked(Apply(s, steps[0], prices), steps[1..], prices, steps[0].readings.t6, i);
    }
  }

  // ---- What it means to the business ----

  lemma CancellationEndsOnlyWhen(s: Store, business: nat, g: RefundGateway, r: Readings, i: nat)
    requires i < |s.subscriptions| && LatestSubscription(s, business) == Some(i)
    ensures EndedBy(s, i, CancellationAsked(s, business, g, r)).Some? ==> EndsRefund(s, s.subscriptions[i], g.details)
  {
  }

  lemma LiftedIsNotTaken(s: Store, step: Step, prices: Prices, i: nat)
    requires i < |s.subscriptions| && Lifts(s, step, prices, i)
    ensures TakenFrom(s, step, prices) != Some(i)
  {
    if TakenFrom(s, step, prices) == Some(i) && AsksProvider(step.action) {
      EndedOnlyIfFoundDone(s, step, prices, i);
      if step.action.RequestCancellation? {
        CancellationEndsOnlyWhen(s, step.action.business, step.action.gateway, step.readings, i);
      }
    }
  }

  /** Whoever is unblocked has access again until the end of the period. */
  lemma LiftedBlockRestoresAccess(s: Store, step: Step, prices: Prices, clock: Instant, i: nat, at: Instant)
    requires Inv(s, clock) && Increasing(clock, step.readings)
    requires i < |s.subscriptions| && !Granting(s.subscriptions[i]) && at < s.subscriptions[i].accessUntil
    requires Lifts(s, step, prices, i)
    ensures HasAccess(Apply(s, step, prices), s.subscriptions[i].business, at)
  {
    var t := Apply(s, step, prices);
    StepUnblocksExactlyWhen(s, step, prices, clock, i);
    StepIsGood(s, step, prices, clock);
    LiftedIsNotTaken(s, step, prices, i);
    assert SubscriptionKept(s.subscriptions, t.subscriptions, TakenFrom(s, step, prices), i);
    assert GrantsAt(t.subscriptions, i, s.subscriptions[i].business, at);
  }
}
