/**
 How often the provider is asked to refund.  A first request asks at most once per subscription
 in any run.  A resumption asks again only if a webhook has reopened the subscription meanwhile;
 without that, every run asks at most once, and a five-step run shows that it can happen.
 */
module BillingRefunds {
  import opened BillingDomain
  import opened BillingInvariants
  import opened BillingRuns
  import opened BillingSteps
  import opened Calendar
  import opened Seqs

  // ---- When a call asks the provider ----

  predicate PaymentFound(s: Store, x: Subscription, g: RefundGateway) {
    && x.checkout < |s.checkouts|
    && (s.checkouts[x.checkout].payment.Some? || ResolvedPayment(s.checkouts[x.checkout], g.payments).Some?)
  }

  /** What lets a subscription's refund be submitted: its payment is known and its recurrence can be canceled. */
  predicate Submittable(s: Store, i: nat, g: RefundGateway)
    requires i < |s.subscriptions|
  {
    PaymentFound(s, s.subscriptions[i], g) && RecurrenceCancels(s.subscriptions[i], g.recurrenceOk)
  }

  /** Reading the status asks the provider exactly when an open, unreconciled refund can be submitted. */
  lemma StatusReadAsksExactlyWhen(s: Store, business: nat, g: RefundGateway, r: Readings)
    ensures match LatestSubscription(s, business)
            case None => StatusRead(s, business, g, r) == s
            case Some(i) =>
              StatusRead(s, business, g, r).refundCalls ==
                s.refundCalls + if Resumable(s.subscriptions[i]) && Submittable(s, i, g) then [RefundCall(i, false)]
                    else []
  {
  }

  /** A refund request asks the provider exactly when it is the first and guaranteed, or resumes an open one. */
  lemma RefundRequestAsksExactlyWhen(s: Store, business: nat, g: RefundGateway, r: Readings)
    ensures match LatestSubscription(s, business)
            case None => RefundAsked(s, business, g, r) == s
            case Some(i) =>
              var x := s.subscriptions[i];
              var first := x.refund == NoRefund && GuaranteeEligible(s, i, r.t1) && x.status != Suspended;
              RefundAsked(s, business, g, r).refundCalls ==
                s.refundCalls + if (first || Resumable(x)) && Submittable(s, i, g) then [RefundCall(i, first)] else []
  {
  }

  // ---- At most one first request ----

  /** In every run from an empty store, the first-request path asks at most once per subscription. */
  lemma FirstRequestsAskOnce(steps: seq<Step>, prices: Prices, clock: Instant, j: nat, k: nat)
    requires Timed(clock, steps)
    requires var calls := Run(EmptyStore(), steps, prices).refundCalls;
             j < k < |calls| && calls[j].first && calls[k].first
    ensures var calls := Run(EmptyStore(), steps, prices).refundCalls;
            calls[j].subscription != calls[k].subscription
  {
    EmptyIsGood(clock);
    RunKeepsRows(EmptyStore(), steps, prices, clock);
    assert FirstCallsApart(Run(EmptyStore(), steps, prices).refundCalls, j, k);
  }

  // ---- At most one request without reopening ----

  predicate Over(x: Subscription) { x.status in {Canceled, Suspended} }

  ghost predicate StaysOver(a: seq<Subscription>, b: seq<Subscription>, i: nat)
    requires i < |a| <= |b|
  {
    Over(a[i]) ==> Over(b[i])
  }

  ghost predicate NeverReopens(s: Store, t: Store) {
    |s.subscriptions| <= |t.subscriptions|
    && forall i | 0 <= i < |s.subscriptions| :: StaysOver(s.subscriptions, t.subscriptions, i)
  }

  predicate IsWebhook(a: Action) { a.Deliver? || a.Interrupt? }

  /** No API call reopens a canceled or suspended subscription. */
  lemma ApiNeverReopens(s: Store, step: Step, prices: Prices, clock: Instant)
    requires Inv(s, clock) && !IsWebhook(step.action)
    ensures NeverReopens(s, Apply(s, step, prices))
  {
    match step.action {
      case PayCard(business, c, allowed, g) => CardNeverReopens(s, business, c, allowed, g, step.readings, clock);
      case ReadStatus(_, g) => RefundNeverReopens(s, step, g, prices);
      case RequestRefund(_, g) => RefundNeverReopens(s, step, g, prices);
      case RequestCancellation(business, g) => CancellationNeverReopens(s, business, g, step.readings);
      case Upgrade(business, plusEnabled, gatewayOk, g) =>
        UpgradeNeverReopens(s, business, plusEnabled, gatewayOk, g, step.readings);
      case CreateCheckout(_, _, _) => SameSubscriptions(s, Apply(s, step, prices));
      case PollCheckout(_, _) => SameSubscriptions(s, Apply(s, step, prices));
      case CancelCheckout(_, _, _) => SameSubscriptions(s, Apply(s, step, prices));
    }
  }

  lemma SameSubscriptions(s: Store, t: Store)
    requires t.subscriptions == s.subscriptions
    ensures NeverReopens(s, t)
  {
    forall i | 0 <= i < |s.subscriptions| ensures StaysOver(s.subscriptions, t.subscriptions, i) {
    }
  }

  lemma OneSubscription(s: Store, t: Store, i: nat)
    requires i < |s.subscriptions| == |t.subscriptions|
    requires t.subscriptions == s.subscriptions[i := t.subscriptions[i]]
    requires Over(s.subscriptions[i]) ==> Over(t.subscriptions[i])
    ensures NeverReopens(s, t)
  {
    forall j | 0 <= j < |s.subscriptions| ensures StaysOver(s.subscriptions, t.subscriptions, j) {
    }
  }

  lemma Appended(s: Store, t: Store)
    requires |s.subscriptions| <= |t.subscriptions| && t.subscriptions[..|s.subscriptions|] == s.subscriptions
    ensures NeverReopens(s, t)
  {
    forall j | 0 <= j < |s.subscriptions| ensures StaysOver(s.subscriptions, t.subscriptions, j) {
      assert t.subscriptions[j] == s.subscriptions[j];
    }
  }

  lemma ActivationOnlyAppends(s: Store, c: nat, now: Instant)
    requires c < |s.checkouts| && SubscriptionFor(s, c).None?
    ensures var t := CardActivatedIfReady(s, c, now);
            |s.subscriptions| <= |t.subscriptions| && t.subscriptions[..|s.subscriptions|] == s.subscriptions
  {
  }

  lemma NativeReconciledOnlyAppends(s: Store, c: nat, payments: Option<seq<ProviderPayment>>, r: Readings)
    requires c < |s.checkouts| && SubscriptionFor(s, c).None?
    ensures var t := NativeReconciled(s, c, payments, r);
            |s.subscriptions| <= |t.subscriptions| && t.subscriptions[..|s.subscriptions|] == s.subscriptions
  {
    var k := s.checkouts[c];
    if k.recurrence.Some? && k.status != Paid && payments.Some? {
      match FirstAt(payments.value, SettledFor(k.amount)) {
        case None =>
        case Some(i) =>
          var p := payments.value[i];
          var paid := PaidAtFirst(WithInitialPayment(k, true, p.id), r.t4);
          var l := if p.customer.Some? then paid.(customer := p.customer) else paid;
          ActivationOnlyAppends(WithCheckout(s, c, l), c, r.t5);
      }
    }
  }

  lemma NativeBoundOnlyAppends(s: Store, c: nat, recurrence: Ref, payments: Option<seq<ProviderPayment>>, r: Readings)
    requires c < |s.checkouts| && SubscriptionFor(s, c).None?
    ensures var t := NativeBound(s, c, recurrence, payments, r);
            |s.subscriptions| <= |t.subscriptions| && t.subscriptions[..|s.subscriptions|] == s.subscriptions
  {
    var k := s.checkouts[c].(recurrence := Some(recurrence), status := Open);
    NativeReconciledOnlyAppends(WithCheckout(s, c, k), c, payments, r);
  }

  lemma UnpaidNativeHasNone(s: Store, c: nat)
    requires LinkInv(s) && c < |s.checkouts| && Native(s.checkouts[c]) && s.checkouts[c].status != Paid
    ensures SubscriptionFor(s, c).None?
  {
    forall i | 0 <= i < |s.subscriptions| ensures !ForCheckout(c)(s.subscriptions[i]) {
      assert Linked(s, i);
    }
  }

  /** A native card checkout that is not paid has no subscription yet, so paying it reopens none. */
  lemma CardNeverReopens(s: Store, business: nat, c: nat, allowed: bool, g: CardGateway, r: Readings, clock: Instant)
    requires Inv(s, clock)
    ensures NeverReopens(s, CardPaid(s, business, c, allowed, g, r))
  {
    SameSubscriptions(s, s);
    if c < |s.checkouts| && Native(s.checkouts[c]) && s.checkouts[c].status != Paid {
      UnpaidNativeHasNone(s, c);
      if g.found.Some? {
        NativeBoundOnlyAppends(s, c, g.found.value, g.payments, r);
      }
      ChargeOnlyAppends(WithCheckout(s, c, s.checkouts[c].(customer := g.customer, status := Creating)), c, g, r);
      Appended(s, CardPaid(s, business, c, allowed, g, r));
    }
  }

  lemma ChargeOnlyAppends(s: Store, c: nat, g: CardGateway, r: Readings)
    requires c < |s.checkouts| && SubscriptionFor(s, c).None?
    ensures var t := CardCharged(s, c, g, r);
            |s.subscriptions| <= |t.subscriptions| && t.subscriptions[..|s.subscriptions|] == s.subscriptions
  {
    match g.outcome {
      case Rejected =>
      case Created(recurrence) => NativeBoundOnlyAppends(s, c, recurrence, g.payments, r);
      case Uncertain =>
        if g.found.Some? {
          NativeBoundOnlyAppends(s, c, g.found.value, g.payments, r);
        }
    }
  }

  /** What a reconciliation or a submission leaves of the other subscriptions, and of an ended one. */
  ghost predicate OnlyEnds(s: Store, t: Store, i: nat) {
    && i < |s.subscriptions| == |t.subscriptions|
    && t.subscriptions == s.subscriptions[i := t.subscriptions[i]]
    && (Over(s.subscriptions[i]) ==> Over(t.subscriptions[i]))
  }

  lemma ReconciledOnlyEnds(s: Store, i: nat, details: Option<seq<ProviderRefund>>, now: Instant)
    requires i < |s.subscriptions|
    ensures OnlyEnds(s, RefundReconciled(s, i, details, now), i)
  {
  }

  lemma ResumedOnlyEnds(s: Store, i: nat, g: RefundGateway, now: Instant)
    requires i < |s.subscriptions|
    ensures OnlyEnds(s, RefundResumed(s, i, g, now), i)
  {
  }

  lemma FirstAskedOnlyEnds(s: Store, i: nat, g: RefundGateway, r: Readings)
    requires i < |s.subscriptions|
    ensures OnlyEnds(s, RefundFirstAsked(s, i, g, r), i)
  {
    var x := s.subscriptions[i];
    if GuaranteeEligible(s, i, r.t1) && x.status != Suspended {
      var t := WithResolvedPayment(s, x.checkout, g.payments);
      var asked := x.(cancellationRequestedAt := OrElse(x.cancellationRequestedAt, r.t2),
                      refundRequestedAt := OrElse(x.refundRequestedAt, r.t2));
      ReconciledOnlyEnds(WithSubscription(t, i, asked.(refund := ReconcileRequired)), i, g.details, r.t4);
      ReconciledOnlyEnds(Submitted(WithSubscription(t, i, asked.(refund := Requested)), i, true, g.refundOk, r.t3),
                         i, g.details, r.t4);
    }
  }

  lemma ResumedThenReconciledOnlyEnds(s: Store, i: nat, g: RefundGateway, r: Readings)
    requires i < |s.subscriptions|
    ensures OnlyEnds(s, ResumedThenReconciled(s, i, g, r), i)
  {
    var t := if Resumable(s.subscriptions[i]) then RefundResumed(s, i, g, r.t1) else s;
    ResumedOnlyEnds(s, i, g, r.t1);
    ReconciledOnlyEnds(t, i, g.details, r.t2);
  }

  lemma RefundNeverReopens(s: Store, step: Step, g: RefundGateway, prices: Prices)
    requires step.action.ReadStatus? || step.action.RequestRefund?
    requires step.action.gateway == g
    ensures NeverReopens(s, Apply(s, step, prices))
  {
    match LatestSubscription(s, step.action.business) {
      case None => SameSubscriptions(s, s);
      case Some(i) =>
        ResumedThenReconciledOnlyEnds(s, i, g, step.readings);
        FirstAskedOnlyEnds(s, i, g, step.readings);
        OneSubscription(s, Apply(s, step, prices), i);
    }
  }

  lemma CancellationNeverReopens(s: Store, business: nat, g: RefundGateway, r: Readings)
    ensures NeverReopens(s, CancellationAsked(s, business, g, r))
  {
    match LatestSubscription(s, business) {
      case None => SameSubscriptions(s, s);
      case Some(i) => OneSubscription(s, CancellationAsked(s, business, g, r), i);
    }
  }

  lemma UpgradeNeverReopens(s: Store, business: nat, plusEnabled: bool, gatewayOk: bool, g: RefundGateway, r: Readings)
    ensures NeverReopens(s, UpgradeAsked(s, business, plusEnabled, gatewayOk, g, r))
  {
    match LatestSubscription(s, business) {
      case None => SameSubscriptions(s, s);
      case Some(i) => OneSubscription(s, UpgradeAsked(s, business, plusEnabled, gatewayOk, g, r), i);
    }
  }

  /** A subscription whose refund was submitted is over. */
  ghost predicate CallOver(s: Store, j: nat)
    requires j < |s.refundCalls|
  {
    var i := s.refundCalls[j].subscription;
    i < |s.subscriptions| && Over(s.subscriptions[i])
  }

  ghost predicate CallsApart(calls: seq<RefundCall>, j: nat, k: nat)
    requires j < |calls| && k < |calls|
  {
    calls[j].subscription != calls[k].subscription
  }

  ghost predicate Distinct(calls: seq<RefundCall>) {
    forall j, k | 0 <= j < k < |calls| :: CallsApart(calls, j, k)
  }

  ghost predicate AskedOnce(s: Store) {
    (forall j | 0 <= j < |s.refundCalls| :: CallOver(s, j)) && Distinct(s.refundCalls)
  }

  /** A webhook that leaves every submitted subscription over. */
  ghost predicate LeavesOver(s: Store, t: Store) {
    forall j | 0 <= j < |s.refundCalls| :: CallOver(s, j) ==> j < |t.refundCalls| && CallOver(t, j)
  }

  /** No webhook of the run moves a submitted subscription out of canceled or suspended. */
  ghost predicate NoReopening(s: Store, steps: seq<Step>, prices: Prices)
    decreases |steps|
  {
    steps != [] ==>
      var t := Apply(s, steps[0], prices);
      (IsWebhook(steps[0].action) ==> LeavesOver(s, t)) && NoReopening(t, steps[1..], prices)
  }

  /** A step that asks for one subscription, not yet submitted or reopened, which is over afterwards. */
  ghost predicate AsksFor(s: Store, t: Store, i: nat, first: bool) {
    && t.refundCalls == s.refundCalls + [RefundCall(i, first)]
    && i < |s.subscriptions| == |t.subscriptions|
    && (s.subscriptions[i].refund == NoRefund || !Over(s.subscriptions[i]))
    && Over(t.subscriptions[i])
  }

  lemma ApiCallsOnce(s: Store, step: Step, prices: Prices)
    requires !IsWebhook(step.action)
    ensures var t := Apply(s, step, prices);
            t.refundCalls == s.refundCalls || exists i: nat, first: bool :: AsksFor(s, t, i, first)
  {
    match step.action {
      case ReadStatus(business, g) => StatusReadCallsOnce(s, business, g, step.readings);
      case RequestRefund(business, g) => RefundRequestCallsOnce(s, business, g, step.readings);
      case RequestCancellation(_, _) =>
      case Upgrade(_, _, _, _) =>
      case CreateCheckout(_, _, _) =>
      case PayCard(_, _, _, _) =>
      case PollCheckout(_, _) =>
      case CancelCheckout(_, _, _) =>
    }
  }

  lemma StatusReadCallsOnce(s: Store, business: nat, g: RefundGateway, r: Readings)
    ensures var t := StatusRead(s, business, g, r);
            t.refundCalls == s.refundCalls || exists i: nat, first: bool :: AsksFor(s, t, i, first)
  {
    StatusReadAsksExactlyWhen(s, business, g, r);
    match LatestSubscription(s, business) {
      case None =>
      case Some(i) =>
        var t := StatusRead(s, business, g, r);
        ResumedThenReconciledEnds(s, i, g, r);
        assert t.refundCalls != s.refundCalls ==> AsksFor(s, t, i, false);
    }
  }

  lemma RefundRequestCallsOnce(s: Store, business: nat, g: RefundGateway, r: Readings)
    ensures var t := RefundAsked(s, business, g, r);
            t.refundCalls == s.refundCalls || exists i: nat, first: bool :: AsksFor(s, t, i, first)
  {
    RefundRequestAsksExactlyWhen(s, business, g, r);
    match LatestSubscription(s, business) {
      case None =>
      case Some(i) =>
        var t := RefundAsked(s, business, g, r);
        ResumedThenReconciledEnds(s, i, g, r);
        FirstAskedEnds(s, i, g, r);
        assert t.refundCalls != s.refundCalls ==> AsksFor(s, t, i, s.subscriptions[i].refund == NoRefund);
    }
  }

  lemma ResumedThenReconciledEnds(s: Store, i: nat, g: RefundGateway, r: Readings)
    requires i < |s.subscriptions|
    ensures var t := ResumedThenReconciled(s, i, g, r);
            |t.subscriptions| == |s.subscriptions| && (t.refundCalls != s.refundCalls ==> Over(t.subscriptions[i]))
  {
    var t := if Resumable(s.subscriptions[i]) then RefundResumed(s, i, g, r.t1) else s;
    ReconciledOnlyEnds(t, i, g.details, r.t2);
  }

  lemma FirstAskedEnds(s: Store, i: nat, g: RefundGateway, r: Readings)
    requires i < |s.subscriptions|
    ensures var t := RefundFirstAsked(s, i, g, r);
            |t.subscriptions| == |s.subscriptions| && (t.refundCalls != s.refundCalls ==> Over(t.subscriptions[i]))
  {
    var x := s.subscriptions[i];
    FirstAskedOnlyEnds(s, i, g, r);
    if GuaranteeEligible(s, i, r.t1) && x.status != Suspended {
      var t := WithResolvedPayment(s, x.checkout, g.payments);
      var asked := x.(cancellationRequestedAt := OrElse(x.cancellationRequestedAt, r.t2),
                      refundRequestedAt := OrElse(x.refundRequestedAt, r.t2));
      ReconciledOnlyEnds(Submitted(WithSubscription(t, i, asked.(refund := Requested)), i, true, g.refundOk, r.t3),
                         i, g.details, r.t4);
    }
  }

  lemma ApiKeepsAskedOnce(s: Store, step: Step, prices: Prices, clock: Instant)
    requires Inv(s, clock) && AskedOnce(s) && !IsWebhook(step.action)
    ensures AskedOnce(Apply(s, step, prices))
  {
    var t := Apply(s, step, prices);
    ApiNeverReopens(s, step, prices, clock);
    ApiCallsOnce(s, step, prices);
    forall j | 0 <= j < |t.refundCalls| ensures CallOver(t, j) {
      if j < |s.refundCalls| {
        assert CallOver(s, j);
        assert StaysOver(s.subscriptions, t.subscriptions, s.refundCalls[j].subscription);
      }
    }
    forall j, k | 0 <= j < k < |t.refundCalls| ensures CallsApart(t.refundCalls, j, k) {
      assert CallOver(s, j) && CallShown(s, j);
      assert k < |s.refundCalls| ==> CallsApart(s.refundCalls, j, k);
    }
  }

  lemma WebhookKeepsAskedOnce(s: Store, step: Step, prices: Prices)
    requires AskedOnce(s) && IsWebhook(step.action) && LeavesOver(s, Apply(s, step, prices))
    ensures AskedOnce(Apply(s, step, prices))
  {
    var t := Apply(s, step, prices);
    WebhooksNeverAsk(s, step, prices);
    forall j | 0 <= j < |t.refundCalls| ensures CallOver(t, j) {
      assert CallOver(s, j);
    }
    forall j, k | 0 <= j < k < |t.refundCalls| ensures CallsApart(t.refundCalls, j, k) {
      assert CallsApart(s.refundCalls, j, k);
    }
  }

  lemma WebhooksNeverAsk(s: Store, step: Step, prices: Prices)
    requires IsWebhook(step.action)
    ensures Apply(s, step, prices).refundCalls == s.refundCalls
  {
  }

  /** Every run in which no webhook reopens a submitted subscription asks at most once for each. */
  lemma {:induction false} RefundsAreAskedOnce(s: Store, steps: seq<Step>, prices: Prices, clock: Instant)
    requires Inv(s, clock) && AskedOnce(s) && Timed(clock, steps) && NoReopening(s, steps, prices)
    ensures AskedOnce(Run(s, steps, prices))
    decreases |steps|
  {
    if steps != [] {
      var t := Apply(s, steps[0], prices);
      StepIsGood(s, steps[0], prices, clock);
      if IsWebhook(steps[0].action) {
        WebhookKeepsAskedOnce(s, steps[0], prices);
      } else {
        ApiKeepsAskedOnce(s, steps[0], prices, clock);
      }
      RefundsAreAskedOnce(t, steps[1..], prices, steps[0].readings.t6);
    }
  }

  // ---- Exactly when a refund is asked for twice ----

  ghost predicate Asked(calls: seq<RefundCall>, i: nat) {
    exists j | 0 <= j < |calls| :: !NotCalled(calls, j, i)
  }

  /**
   A call that will ask again: its business's latest subscription was asked for before, its refund
   is unreconciled, a webhook has reopened it, and the refund can be submitted.
   */
  ghost predicate AsksAgain(s: Store, a: Action) {
    && (a.ReadStatus? || a.RequestRefund?)
    && match LatestSubscription(s, a.business)
       case None => false
       case Some(i) => Asked(s.refundCalls, i) && Resumable(s.subscriptions[i]) && Submittable(s, i, a.gateway)
  }

  ghost predicate NeverAsksAgain(s: Store, steps: seq<Step>, prices: Prices)
    decreases |steps|
  {
    steps != [] ==> !AsksAgain(s, steps[0].action) && NeverAsksAgain(Apply(s, steps[0], prices), steps[1..], prices)
  }

  lemma OneMoreIsDistinct(calls: seq<RefundCall>, call: RefundCall)
    requires Distinct(calls)
    ensures Distinct(calls + [call]) <==> !Asked(calls, call.subscription)
  {
    var all := calls + [call];
    if Distinct(all) {
      forall j | 0 <= j < |calls| ensures NotCalled(calls, j, call.subscription) {
        assert CallsApart(all, j, |calls|);
      }
    }
    if !Asked(calls, call.subscription) {
      forall j, k | 0 <= j < k < |all| ensures CallsApart(all, j, k) {
        assert k < |calls| ==> CallsApart(calls, j, k);
        assert NotCalled(calls, j, call.subscription);
      }
    }
  }

  lemma UnrefundedWasNotAsked(s: Store, i: nat)
    requires CallInv(s) && i < |s.subscriptions| && s.subscriptions[i].refund == NoRefund
    ensures !Asked(s.refundCalls, i)
  {
    forall j | 0 <= j < |s.refundCalls| ensures NotCalled(s.refundCalls, j, i) {
      assert CallShown(s, j);
    }
  }

  lemma ReadingAsksAgainExactlyWhen(s: Store, business: nat, g: RefundGateway, r: Readings)
    requires CallInv(s) && Distinct(s.refundCalls)
    ensures Distinct(StatusRead(s, business, g, r).refundCalls) <==> !AsksAgain(s, ReadStatus(business, g))
  {
    StatusReadAsksExactlyWhen(s, business, g, r);
    if LatestSubscription(s, business).Some? {
      OneMoreIsDistinct(s.refundCalls, RefundCall(LatestSubscription(s, business).value, false));
    }
  }

  lemma RequestAsksAgainExactlyWhen(s: Store, business: nat, g: RefundGateway, r: Readings)
    requires CallInv(s) && Distinct(s.refundCalls)
    ensures Distinct(RefundAsked(s, business, g, r).refundCalls) <==> !AsksAgain(s, RequestRefund(business, g))
  {
    RefundRequestAsksExactlyWhen(s, business, g, r);
    if LatestSubscription(s, business).Some? {
      var i := LatestSubscription(s, business).value;
      OneMoreIsDistinct(s.refundCalls, RefundCall(i, false));
      OneMoreIsDistinct(s.refundCalls, RefundCall(i, true));
      if s.subscriptions[i].refund == NoRefund {
        UnrefundedWasNotAsked(s, i);
      }
    }
  }

  /** One step keeps the calls distinct exactly when it does not ask again. */
  lemma StepAsksAgainExactlyWhen(s: Store, step: Step, prices: Prices)
    requires CallInv(s) && Distinct(s.refundCalls)
    ensures Distinct(Apply(s, step, prices).refundCalls) <==> !AsksAgain(s, step.action)
  {
    match step.action {
      case ReadStatus(business, g) => ReadingAsksAgainExactlyWhen(s, business, g, step.readings);
      case RequestRefund(business, g) => RequestAsksAgainExactlyWhen(s, business, g, step.readings);
      case RequestCancellation(_, _) =>
      case Upgrade(_, _, _, _) =>
      case CreateCheckout(_, _, _) =>
      case PayCard(_, _, _, _) =>
      case PollCheckout(_, _) =>
      case CancelCheckout(_, _, _) =>
      case Deliver(_, _) =>
      case Interrupt(_, _, _) =>
    }
  }

  /** Calls are never taken back. */
  lemma {:induction false} CallsStay(s: Store, steps: seq<Step>, prices: Prices)
    ensures s.refundCalls <= Run(s, steps, prices).refundCalls
    decreases |steps|
  {
    if steps != [] {
      StepCallsStay(s, steps[0], prices);
      CallsStay(Apply(s, steps[0], prices), steps[1..], prices);
    }
  }

  lemma StepCallsStay(s: Store, step: Step, prices: Prices)
    ensures s.refundCalls <= Apply(s, step, prices).refundCalls
  {
    if IsWebhook(step.action) {
      WebhooksNeverAsk(s, step, prices);
    } else {
      ApiCallsOnce(s, step, prices);
    }
  }

  lemma PrefixIsDistinct(calls: seq<RefundCall>, all: seq<RefundCall>)
    requires calls <= all && Distinct(all)
    ensures Distinct(calls)
  {
    forall j, k | 0 <= j < k < |calls| ensures CallsApart(calls, j, k) {
      assert CallsApart(all, j, k);
    }
  }

  /**
   A run asks at most once for every subscription exactly when none of its calls meets, before it
   starts, the condition above.
   */
  lemma {:induction false} RefundsAreAskedOnceExactlyWhen(s: Store, steps: seq<Step>, prices: Prices, clock: Instant)
    requires Inv(s, clock) && Timed(clock, steps) && Distinct(s.refundCalls)
    ensures Distinct(Run(s, steps, prices).refundCalls) <==> NeverAsksAgain(s, steps, prices)
    decreases |steps|
  {
    if steps != [] {
      var t := Apply(s, steps[0], prices);
      StepIsGood(s, steps[0], prices, clock);
      StepAsksAgainExactlyWhen(s, steps[0], prices);
      if AsksAgain(s, steps[0].action) {
        CallsStay(t, steps[1..], prices);
        if Distinct(Run(s, steps, prices).refundCalls) {
          PrefixIsDistinct(t.refundCalls, Run(s, steps, prices).refundCalls);
        }
      } else {
        RefundsAreAskedOnceExactlyWhen(t, steps[1..], prices, steps[0].readings.t6);
      }
    }
  }

  // ---- A run that asks twice ----

  function At(t: Instant): Readings { Readings(t + 1, t + 2, t + 3, t + 4, t + 5, t + 6) }

  function OpeningStep(): Step {
    Step(CreateCheckout(CheckoutRequest(1, 1, Basic, Monthly, CreditCard, 19700, true, true, true), true, Refused),
        At(0))
  }

  function PayingStep(): Step {
    Step(PayCard(1, 0, true, CardAnswers()), At(6))
  }

  // The provider's answer to the refund call is lost.
  function LostRefundStep(): Step {
    Step(RequestRefund(1, RefundGateway(None, true, false, None)), At(12))
  }

  // The confirmation of the initial payment arrives late.
  function LatePaymentStep(): Step {
    Step(Deliver(9, Payment(LatePayment())), At(18))
  }

  function ReadingStep(): Step {
    Step(ReadStatus(1, RefundGateway(None, true, true, None)), At(24))
  }

  function OpenCheckout(): Checkout {
    Checkout(1, 1, Basic, Monthly, CreditCard, 19700, Open, Some(3 + CHECKOUT_TTL), None,
             None, None, None, false, None, None, None)
  }

  function ChargingCheckout(): Checkout { OpenCheckout().(customer := Some(3), status := Creating) }

  function BoundCheckout(): Checkout { OpenCheckout().(customer := Some(3), recurrence := Some(5)) }

  function PaidCheckout(): Checkout {
    BoundCheckout().(status := Paid, paidAt := Some(10), payment := Some(7))
  }

  function FirstSubscription(until: Instant): Subscription {
    Subscription(0, 1, Basic, Monthly, CreditCard, Active, until, None, Some(5), None, Some(3),
                 None, None, NoRefund, None, None)
  }

  function AskedSubscription(until: Instant): Subscription {
    FirstSubscription(until).(cancellationRequestedAt := Some(14), refundRequestedAt := Some(14), refund := Requested)
  }

  function LostSubscription(until: Instant): Subscription {
    AskedSubscription(until).(status := Canceled, canceledAt := Some(15), refund := ReconcileRequired)
  }

  function ReopenedSubscription(until: Instant, extended: Instant): Subscription {
    LostSubscription(until).(status := Active, accessUntil := extended)
  }

  // The stores on the way, each with one checkout.

  function Unsubscribed(k: Checkout): Store { Store([k], [], [], map[]) }

  function PaidStore(x: Subscription): Store { Store([PaidCheckout()], [x], [], map[]) }

  function LostStore(until: Instant, events: map<nat, bool>): Store {
    Store([PaidCheckout()], [LostSubscription(until)], [RefundCall(0, true)], events)
  }

  function ReopenedStore(until: Instant, extended: Instant, events: map<nat, bool>): Store {
    Store([PaidCheckout()], [ReopenedSubscription(until, extended)], [RefundCall(0, true)], events)
  }

  lemma OneRow<T>(x: T, y: T)
    ensures [x][0 := y] == [y]
  {
  }

  lemma OpeningResult(prices: Prices)
    ensures Apply(EmptyStore(), OpeningStep(), prices) == Unsubscribed(OpenCheckout())
  {
  }

  function CardAnswers(): CardGateway {
    CardGateway(Some(3), Created(5), None, Some([SettledPayment()]))
  }

  function SettledPayment(): ProviderPayment { ProviderPayment(Some(7), Confirmed, Some(19700), Some(3)) }

  lemma PayingResult(s: Store, prices: Prices, until: Instant)
    requires s == Unsubscribed(OpenCheckout()) && until == CycleEnd(11, Monthly)
    ensures Apply(s, PayingStep(), prices) == PaidStore(FirstSubscription(until))
  {
    var t := Unsubscribed(ChargingCheckout());
    PayingCharges(s, t, CardAnswers(), At(6));
    PayingBinds(t, CardAnswers().payments, At(6), until);
  }

  lemma PayingCharges(s: Store, t: Store, g: CardGateway, r: Readings)
    requires s == Unsubscribed(OpenCheckout()) && t == Unsubscribed(ChargingCheckout())
    requires g == CardAnswers() && r == At(6)
    ensures CardPaid(s, 1, 0, true, g, r) == NativeBound(t, 0, 5, g.payments, r)
  {
    OneRow(OpenCheckout(), ChargingCheckout());
    assert CardPaid(s, 1, 0, true, g, r) == CardCharged(t, 0, g, r);
  }

  lemma PayingBinds(s: Store, payments: Option<seq<ProviderPayment>>, r: Readings, until: Instant)
    requires s == Unsubscribed(ChargingCheckout()) && until == CycleEnd(11, Monthly)
    requires payments == Some([SettledPayment()]) && r == At(6)
    ensures NativeBound(s, 0, 5, payments, r) == PaidStore(FirstSubscription(until))
  {
    OneRow(ChargingCheckout(), BoundCheckout());
    assert SettledFor(19700)(payments.value[0]);
    assert FirstAt(payments.value, SettledFor(19700)) == Some(0);
    PayingActivates(Unsubscribed(BoundCheckout()), SettledPayment(), r, until);
  }

  lemma PayingActivates(s: Store, p: ProviderPayment, r: Readings, until: Instant)
    requires s == Unsubscribed(BoundCheckout()) && until == CycleEnd(11, Monthly)
    requires p == SettledPayment() && r == At(6)
    ensures NativePaid(s, 0, p, r) == PaidStore(FirstSubscription(until))
  {
    OneRow(BoundCheckout(), PaidCheckout());
    var t := Unsubscribed(PaidCheckout());
    assert NativePaid(s, 0, p, r) == CardActivatedIfReady(t, 0, r.t5);
    FirstActivation(t, r.t5, until);
  }

  lemma FirstActivation(s: Store, now: Instant, until: Instant)
    requires s == Unsubscribed(PaidCheckout()) && until == CycleEnd(now, Monthly)
    ensures CardActivatedIfReady(s, 0, now) == PaidStore(FirstSubscription(until))
  {
    assert SubscriptionFor(s, 0).None? && ActiveSubscription(s, 1, now).None?;
  }

  /** The two steps after which a customer has paid. */
  lemma PaidAfterTwo(prices: Prices, until: Instant)
    requires until == CycleEnd(11, Monthly)
    ensures Run(EmptyStore(), [OpeningStep(), PayingStep()], prices) == PaidStore(FirstSubscription(until))
  {
    var s := Apply(EmptyStore(), OpeningStep(), prices);
    OpeningResult(prices);
    PayingResult(s, prices, until);
    assert [OpeningStep(), PayingStep()][1..] == [PayingStep()];
    RunOfOne(s, PayingStep(), prices);
  }

  lemma RunOfOne(s: Store, step: Step, prices: Prices)
    ensures Run(s, [step], prices) == Apply(s, step, prices)
  {
  }

  lemma LostRefundResult(s: Store, prices: Prices, until: Instant)
    requires s == PaidStore(FirstSubscription(until))
    ensures Apply(s, LostRefundStep(), prices) == LostStore(until, map[])
  {
    assert OfBusiness(1)(s.subscriptions[0]);
    assert LatestSubscription(s, 1) == Some(0);
    LostRequest(s, RefundGateway(None, true, false, None), At(12), until);
  }

  lemma LostRequest(s: Store, g: RefundGateway, r: Readings, until: Instant)
    requires s == PaidStore(FirstSubscription(until))
    requires g == RefundGateway(None, true, false, None) && r == At(12)
    ensures RefundFirstAsked(s, 0, g, r) == LostStore(until, map[])
  {
    assert NotPaidBefore(s.checkouts, 1, 0, 0);
    assert GuaranteeEligible(s, 0, r.t1);
    OneRow(FirstSubscription(until), AskedSubscription(until));
    LostSubmission(PaidStore(AskedSubscription(until)), r.t3, until);
  }

  lemma LostSubmission(s: Store, now: Instant, until: Instant)
    requires s == PaidStore(AskedSubscription(until)) && now == 15
    ensures Submitted(s, 0, true, false, now) == LostStore(until, map[])
  {
    OneRow(AskedSubscription(until), LostSubscription(until));
  }

  function LatePayment(): PaymentEvent {
    PaymentEvent(PaymentReceived, Some(7), Some(19700), None, None, None, None, None, None, None, None)
  }

  lemma LatePaymentResult(s: Store, prices: Prices, until: Instant, extended: Instant)
    requires s == LostStore(until, map[])
    requires prices(Basic, Monthly) == 19700 && extended == Max(until, CycleEnd(24, Monthly))
    ensures Apply(s, LatePaymentStep(), prices) == ReopenedStore(until, extended, map[9 := true])
  {
    LatePaymentApplied(LostStore(until, map[9 := false]), LatePayment(), prices, At(18), until, extended);
    DeliveredFirst(s, 9, LatePayment(), prices, At(18), ReopenedStore(until, extended, map[9 := false]));
  }

  /** What a first delivery does, to a store that has recorded none. */
  lemma DeliveredFirst(s: Store, id: nat, e: PaymentEvent, prices: Prices, r: Readings, t: Store)
    requires s.events == map[] && PaymentApplied(s.(events := map[id := false]), e, prices, r) == t
    ensures Apply(s, Step(Deliver(id, Payment(e)), r), prices) == t.(events := map[id := true])
  {
    ApplyDeliver(s, id, Payment(e), prices, r);
    assert s.events[id := false] == map[id := false];
    assert map[id := false][id := true] == map[id := true];
  }

  lemma LatePaymentApplied(s: Store, e: PaymentEvent, prices: Prices, r: Readings, until: Instant, extended: Instant)
    requires s == LostStore(until, map[9 := false])
    requires e == LatePayment() && prices(Basic, Monthly) == 19700 && extended == Max(until, CycleEnd(24, Monthly))
        && r.t6 == 24
    ensures PaymentApplied(s, e, prices, r) == ReopenedStore(until, extended, map[9 := false])
  {
    assert CommonPixApplied(s, e, r) == s && PixInitialApplied(s, e, r) == s && CardApplied(s, e, r) == s;
    LatePaymentReopens(s, e, prices, until, extended);
  }

  lemma LatePaymentReopens(s: Store, e: PaymentEvent, prices: Prices, until: Instant, extended: Instant)
    requires s == LostStore(until, map[9 := false])
    requires e == LatePayment() && prices(Basic, Monthly) == 19700 && extended == Max(until, CycleEnd(24, Monthly))
    ensures SubscriptionPaymentApplied(s, e, prices, 24) == ReopenedStore(until, extended, map[9 := false])
  {
    assert ByPayment(7)(s.checkouts[0]) && ForCheckout(0)(s.subscriptions[0]);
    assert PaymentSubscription(s, e) == Some(0);
    OneRow(LostSubscription(until), ReopenedSubscription(until, extended));
  }

  lemma ReadingResult(s: Store, prices: Prices, until: Instant, extended: Instant)
    requires s == ReopenedStore(until, extended, map[9 := true])
    ensures Apply(s, ReadingStep(), prices).refundCalls == [RefundCall(0, true), RefundCall(0, false)]
  {
    assert OfBusiness(1)(s.subscriptions[0]);
    assert LatestSubscription(s, 1) == Some(0);
    StatusReadAsksExactlyWhen(s, 1, RefundGateway(None, true, true, None), At(24));
  }

  function LostThenReopened(): seq<Step> { [LostRefundStep(), LatePaymentStep(), ReadingStep()] }

  lemma AskedAgainAfterReopening(s: Store, prices: Prices, until: Instant)
    requires s == PaidStore(FirstSubscription(until)) && prices(Basic, Monthly) == 19700
    ensures Run(s, LostThenReopened(), prices).refundCalls == [RefundCall(0, true), RefundCall(0, false)]
  {
    var steps := LostThenReopened();
    var extended := Max(until, CycleEnd(24, Monthly));
    var s3 := Apply(s, LostRefundStep(), prices);
    LostRefundResult(s, prices, until);
    var s4 := Apply(s3, LatePaymentStep(), prices);
    LatePaymentResult(s3, prices, until, extended);
    ReadingResult(s4, prices, until, extended);
    assert steps[1..] == [LatePaymentStep(), ReadingStep()] && steps[1..][1..] == [ReadingStep()];
    RunOfOne(s4, ReadingStep(), prices);
  }

  lemma TwiceIsTimed(steps: seq<Step>)
    requires steps == [OpeningStep(), PayingStep()] + LostThenReopened()
    ensures Timed(0, steps)
  {
    assert steps[1..][1..] == LostThenReopened();
    assert LostThenReopened()[1..][1..] == [ReadingStep()];
  }

  /**
   The refund call times out, a late confirmation reopens the subscription, and reading the
   status asks the provider to refund the same payment again.
   */
  lemma RefundCanBeAskedTwice(prices: Prices)
    requires prices(Basic, Monthly) == 19700
    ensures var steps := [OpeningStep(), PayingStep()] + LostThenReopened();
            Timed(0, steps)
            && Run(EmptyStore(), steps, prices).refundCalls == [RefundCall(0, true), RefundCall(0, false)]
  {
    var until := CycleEnd(11, Monthly);
    PaidAfterTwo(prices, until);
    RunThen(EmptyStore(), [OpeningStep(), PayingStep()], LostThenReopened(), prices);
    AskedAgainAfterReopening(PaidStore(FirstSubscription(until)), prices, until);
    TwiceIsTimed([OpeningStep(), PayingStep()] + LostThenReopened());
  }
}
