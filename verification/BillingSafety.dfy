/**
 Every billing step, whatever the provider answers and in whatever order its events arrive, is a
 good change: the invariant of the rows holds again, payment instants are written once, a refund
 that was asked for stays on record, and access is cut only by overdue, refund or chargeback.
 */
module BillingSafety {
  import opened BillingDomain
  import opened BillingInvariants
  import opened BillingSteps
  import opened Calendar
  import opened Seqs

  // ---- Activation ----

  lemma ActivationIsGood(s: Store, c: nat, now: Instant, lo: Instant, hi: Instant)
    requires Inv(s, lo) && lo <= hi && c < |s.checkouts|
    requires Native(s.checkouts[c]) ==> s.checkouts[c].status == Paid
    ensures Good(s, Activated(s, c, now), lo, hi, None)
  {
    var k := s.checkouts[c];
    var until := CycleEnd(now, k.cycle);
    match SubscriptionFor(s, c) {
      case Some(i) =>
        SubscriptionChange(s, i, Renewed(s.subscriptions[i], k, until), lo, hi, None);
      case None =>
        if ActiveSubscription(s, k.business, now).Some? {
          Unchanged(s, lo, hi, None);
        } else {
          SubscriptionOpened(s, FirstPeriod(c, k, until), lo, hi);
        }
    }
  }

  lemma CardActivationIsGood(s: Store, c: nat, now: Instant, lo: Instant, hi: Instant)
    requires Inv(s, lo) && lo <= hi && c < |s.checkouts|
    ensures Good(s, CardActivatedIfReady(s, c, now), lo, hi, None)
  {
    if CardReady(s.checkouts[c]) {
      ActivationIsGood(s, c, now, lo, hi);
    } else {
      Unchanged(s, lo, hi, None);
    }
  }

  lemma PixActivationIsGood(s: Store, c: nat, now: Instant, lo: Instant, hi: Instant)
    requires Inv(s, lo) && lo <= hi && c < |s.checkouts|
    ensures Good(s, PixActivatedIfReady(s, c, now), lo, hi, None)
  {
    if PixReady(s.checkouts[c]) {
      ActivationIsGood(s, c, now, lo, hi);
    } else {
      Unchanged(s, lo, hi, None);
    }
  }

  /** A checkout row changes, then perhaps its card subscription is activated. */
  lemma ChangeThenCard(s: Store, c: nat, k: Checkout, now: Instant, lo: Instant, mid: Instant, hi: Instant)
    requires Inv(s, lo) && lo <= mid <= hi && c < |s.checkouts| && CheckoutMayBecome(s.checkouts[c], k, lo, mid)
    ensures Good(s, CardActivatedIfReady(WithCheckout(s, c, k), c, now), lo, hi, None)
  {
    var t := WithCheckout(s, c, k);
    CheckoutChange(s, c, k, lo, mid);
    CardActivationIsGood(t, c, now, mid, hi);
    GoodThen(s, t, CardActivatedIfReady(t, c, now), lo, mid, hi, None);
  }

  lemma ChangeThenPix(s: Store, c: nat, k: Checkout, now: Instant, lo: Instant, mid: Instant, hi: Instant)
    requires Inv(s, lo) && lo <= mid <= hi && c < |s.checkouts| && CheckoutMayBecome(s.checkouts[c], k, lo, mid)
    ensures Good(s, PixActivatedIfReady(WithCheckout(s, c, k), c, now), lo, hi, None)
  {
    var t := WithCheckout(s, c, k);
    CheckoutChange(s, c, k, lo, mid);
    PixActivationIsGood(t, c, now, mid, hi);
    GoodThen(s, t, PixActivatedIfReady(t, c, now), lo, mid, hi, None);
  }

  // ---- Checkouts ----

  lemma CheckoutCreatedIsGood(s: Store, q: CheckoutRequest, retireOk: bool, made: Preparation, clock: Instant,
      r: Readings)
    requires Inv(s, clock) && Increasing(clock, r)
    ensures Good(s, CheckoutCreated(s, q, retireOk, made, r), clock, r.t6, None)
  {
    Unchanged(s, clock, r.t6, None);
    if q.allowed {
      match FirstAt(s.checkouts, WithKey(q.business, q.key)) {
        case Some(c) =>
          if KeyReused(s, c, q, r.t1) != s {
            CheckoutChange(s, c, s.checkouts[c].(status := Expired), clock, r.t6);
          }
        case None =>
          NewCheckoutIsGood(s, q, retireOk, made, clock, r);
      }
    }
  }

  lemma NewCheckoutIsGood(s: Store, q: CheckoutRequest, retireOk: bool, made: Preparation, clock: Instant, r: Readings)
    requires Inv(s, clock) && Increasing(clock, r) && q.allowed
    requires FirstAt(s.checkouts, WithKey(q.business, q.key)).None?
    ensures Good(s, CheckoutCreated(s, q, retireOk, made, r), clock, r.t6, None)
  {
    Unchanged(s, clock, r.t6, None);
    var k := PreparedCheckout(NewCheckout(q, r.t3), q.native, made);
    match LastAt(s.checkouts, Blocking(q.business)) {
      case None => CheckoutOpened(s, k, clock, r.t6);
      case Some(b) =>
        match ClearingOf(s.checkouts[b], retireOk, r.t2) {
          case Blocked =>
          case Cleared(status) =>
            assert Blocking(q.business)(s.checkouts[b]);
            var t := WithCheckout(s, b, s.checkouts[b].(status := status));
            CheckoutChange(s, b, s.checkouts[b].(status := status), clock, r.t1);
            CheckoutOpened(t, k, r.t1, r.t6);
            GoodThen(s, t, t.(checkouts := t.checkouts + [k]), clock, r.t1, r.t6, None);
        }
    }
  }

  lemma CheckoutPolledIsGood(s: Store, business: nat, c: nat, now: Instant, lo: Instant, hi: Instant)
    requires Inv(s, lo) && lo <= hi
    ensures Good(s, CheckoutPolled(s, business, c, now), lo, hi, None)
  {
    Unchanged(s, lo, hi, None);
    if CheckoutPolled(s, business, c, now) != s {
      CheckoutChange(s, c, s.checkouts[c].(status := Expired), lo, hi);
    }
  }

  lemma CheckoutAbandonedIsGood(s: Store, business: nat, c: nat, gatewayOk: bool, lo: Instant, hi: Instant)
    requires Inv(s, lo) && lo <= hi
    ensures Good(s, CheckoutAbandoned(s, business, c, gatewayOk), lo, hi, None)
  {
    Unchanged(s, lo, hi, None);
    if CheckoutAbandoned(s, business, c, gatewayOk) != s {
      CheckoutChange(s, c, s.checkouts[c].(status := CheckoutCanceled), lo, hi);
    }
  }

  // ---- Native card payments ----

  lemma NativeReconciledIsGood(s: Store, c: nat, payments: Option<seq<ProviderPayment>>, lo: Instant, r: Readings)
    requires Inv(s, lo) && c < |s.checkouts| && lo < r.t4 < r.t5
    ensures Good(s, NativeReconciled(s, c, payments, r), lo, r.t5, None)
  {
    Unchanged(s, lo, r.t5, None);
    var k := s.checkouts[c];
    if k.recurrence.Some? && k.status != Paid && payments.Some? {
      match FirstAt(payments.value, SettledFor(k.amount)) {
        case None =>
        case Some(i) =>
          var p := payments.value[i];
          var paid := PaidAtFirst(WithInitialPayment(k, true, p.id), r.t4);
          ChangeThenCard(s, c, if p.customer.Some? then paid.(customer := p.customer) else paid, r.t5, lo, r.t4, r.t5);
      }
    }
  }

  lemma NativeBoundIsGood(s: Store, c: nat, recurrence: Ref, payments: Option<seq<ProviderPayment>>, lo: Instant,
      r: Readings)
    requires Inv(s, lo) && c < |s.checkouts| && s.checkouts[c].status != Paid && lo < r.t4 < r.t5
    ensures Good(s, NativeBound(s, c, recurrence, payments, r), lo, r.t5, None)
  {
    var k := s.checkouts[c].(recurrence := Some(recurrence), status := Open);
    var t := WithCheckout(s, c, k);
    CheckoutChange(s, c, k, lo, lo);
    NativeReconciledIsGood(t, c, payments, lo, r);
    GoodThen(s, t, NativeReconciled(t, c, payments, r), lo, lo, r.t5, None);
  }

  lemma CardChargedIsGood(s: Store, c: nat, g: CardGateway, lo: Instant, r: Readings)
    requires Inv(s, lo) && c < |s.checkouts| && s.checkouts[c].status != Paid && lo < r.t4 < r.t5
    ensures Good(s, CardCharged(s, c, g, r), lo, r.t5, None)
  {
    match g.outcome {
      case Rejected => CheckoutChange(s, c, s.checkouts[c].(status := Open), lo, r.t5);
      case Created(recurrence) => NativeBoundIsGood(s, c, recurrence, g.payments, lo, r);
      case Uncertain =>
        if g.found.Some? {
          NativeBoundIsGood(s, c, g.found.value, g.payments, lo, r);
        } else {
          Unchanged(s, lo, r.t5, None);
        }
    }
  }

  lemma CardPaidIsGood(s: Store, business: nat, c: nat, allowed: bool, g: CardGateway, clock: Instant, r: Readings)
    requires Inv(s, clock) && Increasing(clock, r)
    ensures Good(s, CardPaid(s, business, c, allowed, g, r), clock, r.t5, None)
  {
    Unchanged(s, clock, r.t5, None);
    if c < |s.checkouts| && s.checkouts[c].status != Paid {
      var k := s.checkouts[c];
      CheckoutChange(s, c, k.(status := Expired), clock, r.t5);
      if g.found.Some? {
        NativeBoundIsGood(s, c, g.found.value, g.payments, clock, r);
      }
      var charged := k.(customer := g.customer, status := Creating);
      var t := WithCheckout(s, c, charged);
      CheckoutChange(s, c, charged, clock, r.t1);
      CardChargedIsGood(t, c, g, r.t1, r);
      GoodThen(s, t, CardCharged(t, c, g, r), clock, r.t1, r.t5, None);
    }
  }

  // ---- Refunds ----

  /** The provider's report counts as a full refund exactly when completed refunds cover the amount. */
  lemma DoneExactlyWhenCovered(refunds: seq<ProviderRefund>, amount: int)
    requires amount > 0 && forall i | 0 <= i < |refunds| :: refunds[i].cents.Some? ==> refunds[i].cents.value > 0
    ensures RefundVerdict(refunds, amount) == AllDone <==> Total(refunds, Done) >= amount
  {
    TotalIsObserved(refunds);
  }

  lemma {:induction false} TotalIsObserved(refunds: seq<ProviderRefund>)
    requires forall i | 0 <= i < |refunds| :: refunds[i].cents.Some? ==> refunds[i].cents.value > 0
    ensures Total(refunds, Done) > 0 ==> Observed(refunds)
  {
    if refunds != [] {
      var front := refunds[..|refunds| - 1];
      TotalIsObserved(front);
      if Observed(front) {
        var i :| 0 <= i < |front| && Counts(front[i]);
        assert Counts(refunds[i]);
      } else if Total(refunds, Done) > 0 {
        assert Counts(refunds[|refunds| - 1]);
      }
    }
  }

  /** The one API step that can end access: the provider reports the refund done. */
  function EndedBy(s: Store, i: nat, t: Store): Option<nat> {
    if i < |s.subscriptions| && i < |t.subscriptions|
       && t.subscriptions[i].refund == Refunded && s.subscriptions[i].refund != Refunded
    then Some(i) else None
  }

  lemma RefundReconciledIsGood(s: Store, i: nat, details: Option<seq<ProviderRefund>>, now: Instant, lo: Instant,
      hi: Instant)
    requires Inv(s, lo) && lo <= hi && i < |s.subscriptions|
    ensures var t := RefundReconciled(s, i, details, now); Good(s, t, lo, hi, EndedBy(s, i, t))
  {
    var t := RefundReconciled(s, i, details, now);
    if t == s {
      Unchanged(s, lo, hi, EndedBy(s, i, t));
    } else {
      SubscriptionChange(s, i, t.subscriptions[i], lo, hi, EndedBy(s, i, t));
    }
  }

  lemma ResolvedIsGood(s: Store, c: nat, payments: Option<seq<ProviderPayment>>, lo: Instant, hi: Instant)
    requires Inv(s, lo) && lo <= hi && c < |s.checkouts|
    ensures Good(s, WithResolvedPayment(s, c, payments), lo, hi, None)
  {
    Unchanged(s, lo, hi, None);
    var k := s.checkouts[c];
    if k.payment.None? {
      CheckoutChange(s, c, k.(payment := ResolvedPayment(k, payments)), lo, hi);
    }
  }

  lemma RefundResumedIsGood(s: Store, i: nat, g: RefundGateway, now: Instant, lo: Instant, hi: Instant)
    requires Inv(s, lo) && lo <= hi && i < |s.subscriptions|
    ensures Good(s, RefundResumed(s, i, g, now), lo, hi, None)
  {
    var x := s.subscriptions[i];
    assert Linked(s, i);
    var t := WithResolvedPayment(s, x.checkout, g.payments);
    ResolvedIsGood(s, x.checkout, g.payments, lo, hi);
    Submission(t, i, false, g.refundOk, now, hi, hi);
    GoodThen(s, t, Submitted(t, i, false, g.refundOk, now), lo, hi, hi, None);
  }

  lemma ResumedThenReconciledIsGood(s: Store, i: nat, g: RefundGateway, clock: Instant, r: Readings)
    requires Inv(s, clock) && Increasing(clock, r) && i < |s.subscriptions|
    ensures var u := ResumedThenReconciled(s, i, g, r); Good(s, u, clock, r.t6, EndedBy(s, i, u))
  {
    var t := if Resumable(s.subscriptions[i]) then RefundResumed(s, i, g, r.t1) else s;
    var u := RefundReconciled(t, i, g.details, r.t2);
    if Resumable(s.subscriptions[i]) {
      RefundResumedIsGood(s, i, g, r.t1, clock, r.t1);
      ResumedKeepsUnrefunded(s, i, g, r.t1);
    } else {
      Unchanged(s, clock, r.t1, None);
    }
    RefundReconciledIsGood(t, i, g.details, r.t2, r.t1, r.t6);
    assert EndedBy(s, i, u) == EndedBy(t, i, u);
    GoodThen(s, t, u, clock, r.t1, r.t6, EndedBy(s, i, u));
  }

  lemma ResumedKeepsUnrefunded(s: Store, i: nat, g: RefundGateway, now: Instant)
    requires i < |s.subscriptions|
    ensures RefundResumed(s, i, g, now).subscriptions[i].refund == Refunded <==>
              s.subscriptions[i].refund == Refunded && RefundResumed(s, i, g, now).refundCalls == s.refundCalls
  {
  }

  lemma FirstRequestIsGood(s: Store, i: nat, g: RefundGateway, clock: Instant, r: Readings)
    requires Inv(s, clock) && Increasing(clock, r) && i < |s.subscriptions| && s.subscriptions[i].refund == NoRefund
    ensures var u := RefundFirstAsked(s, i, g, r); Good(s, u, clock, r.t6, EndedBy(s, i, u))
  {
    var x := s.subscriptions[i];
    var u := RefundFirstAsked(s, i, g, r);
    if !GuaranteeEligible(s, i, r.t1) || x.status == Suspended {
      Unchanged(s, clock, r.t6, EndedBy(s, i, u));
    } else {
      var t := WithResolvedPayment(s, x.checkout, g.payments);
      ResolvedIsGood(s, x.checkout, g.payments, clock, r.t1);
      var asked := x.(cancellationRequestedAt := OrElse(x.cancellationRequestedAt, r.t2),
                      refundRequestedAt := OrElse(x.refundRequestedAt, r.t2));
      if t.checkouts[x.checkout].payment.None? || !RecurrenceCancels(x, g.recurrenceOk) {
        AskedThenReconciled(s, t, i, asked.(refund := ReconcileRequired), g, clock, r);
      } else {
        AskedThenSubmitted(s, t, i, asked.(refund := Requested), g, clock, r);
      }
    }
  }

  lemma AskedThenReconciled(s: Store, t: Store, i: nat, asked: Subscription, g: RefundGateway, clock: Instant,
      r: Readings)
    requires Good(s, t, clock, r.t1, None) && Increasing(clock, r) && i < |s.subscriptions|
    requires t.subscriptions == s.subscriptions
    requires SubscriptionBecomes(s.subscriptions[i], asked) && AccessKept(s.subscriptions[i], asked)
    requires asked.refund != Refunded && s.subscriptions[i].refund != Refunded
    ensures var u := RefundReconciled(WithSubscription(t, i, asked), i, g.details, r.t4);
            Good(s, u, clock, r.t6, EndedBy(s, i, u))
  {
    var t1 := WithSubscription(t, i, asked);
    var u := RefundReconciled(t1, i, g.details, r.t4);
    SubscriptionChange(t, i, asked, r.t1, r.t2, None);
    GoodThen(s, t, t1, clock, r.t1, r.t2, None);
    RefundReconciledIsGood(t1, i, g.details, r.t4, r.t2, r.t6);
    GoodThen(s, t1, u, clock, r.t2, r.t6, EndedBy(s, i, u));
  }

  lemma AskedThenSubmitted(s: Store, t: Store, i: nat, asked: Subscription, g: RefundGateway, clock: Instant,
      r: Readings)
    requires Good(s, t, clock, r.t1, None) && Increasing(clock, r) && i < |s.subscriptions|
    requires t.subscriptions == s.subscriptions
    requires s.subscriptions[i].refund == NoRefund && asked.refund == Requested
    requires SubscriptionBecomes(s.subscriptions[i], asked) && AccessKept(s.subscriptions[i], asked)
    ensures var u := RefundReconciled(Submitted(WithSubscription(t, i, asked), i, true, g.refundOk, r.t3), i,
        g.details, r.t4);
            Good(s, u, clock, r.t6, EndedBy(s, i, u))
  {
    var t1 := WithSubscription(t, i, asked);
    var t2 := Submitted(t1, i, true, g.refundOk, r.t3);
    var u := RefundReconciled(t2, i, g.details, r.t4);
    SubscriptionChange(t, i, asked, r.t1, r.t2, None);
    GoodThen(s, t, t1, clock, r.t1, r.t2, None);
    forall j | 0 <= j < |t1.refundCalls| ensures NotCalled(t1.refundCalls, j, i) {
      assert CallShown(t, j);
    }
    Submission(t1, i, true, g.refundOk, r.t3, r.t2, r.t3);
    GoodThen(s, t1, t2, clock, r.t2, r.t3, None);
    RefundReconciledIsGood(t2, i, g.details, r.t4, r.t3, r.t6);
    GoodThen(s, t2, u, clock, r.t3, r.t6, EndedBy(s, i, u));
  }

  // ---- Cancellation and upgrade ----

  lemma ChangeThenReconciled(s: Store, i: nat, y: Subscription, g: RefundGateway, now: Instant, clock: Instant,
      r: Readings)
    requires Inv(s, clock) && Increasing(clock, r) && i < |s.subscriptions|
    requires SubscriptionBecomes(s.subscriptions[i], y) && AccessKept(s.subscriptions[i], y)
    requires y.refund == s.subscriptions[i].refund
    ensures var u := RefundReconciled(WithSubscription(s, i, y), i, g.details, now);
            Good(s, u, clock, r.t6, EndedBy(s, i, u))
  {
    var t := WithSubscription(s, i, y);
    var u := RefundReconciled(t, i, g.details, now);
    SubscriptionChange(s, i, y, clock, r.t1, None);
    RefundReconciledIsGood(t, i, g.details, now, r.t1, r.t6);
    GoodThen(s, t, u, clock, r.t1, r.t6, EndedBy(s, i, u));
  }

  lemma CancellationIsGood(s: Store, business: nat, g: RefundGateway, clock: Instant, r: Readings)
    requires Inv(s, clock) && Increasing(clock, r) && LatestSubscription(s, business).Some?
    ensures var i := LatestSubscription(s, business).value; var u := CancellationAsked(s, business, g, r);
            Good(s, u, clock, r.t6, EndedBy(s, i, u))
  {
    var i := LatestSubscription(s, business).value;
    var x := s.subscriptions[i];
    var asked := x.(cancellationRequestedAt := OrElse(x.cancellationRequestedAt, r.t1));
    if x.status in {Canceled, Suspended} {
      RefundReconciledIsGood(s, i, g.details, r.t3, clock, r.t6);
    } else if x.payWith == Pix && x.recurrence.None? {
      ChangeThenReconciled(s, i, asked.(status := Canceled, canceledAt := Some(r.t1)), g, r.t3, clock, r);
    } else if !RecurrenceCancels(x, g.recurrenceOk) {
      SubscriptionChange(s, i, asked, clock, r.t6, None);
    } else {
      ChangeThenReconciled(s, i, asked.(status := Canceled, canceledAt := OrElse(x.canceledAt, r.t2)), g, r.t3, clock,
          r);
    }
  }

  lemma UpgradeIsGood(s: Store, business: nat, plusEnabled: bool, gatewayOk: bool, g: RefundGateway, clock: Instant,
      r: Readings)
    requires Inv(s, clock) && Increasing(clock, r) && LatestSubscription(s, business).Some?
    ensures var i := LatestSubscription(s, business).value;
        var u := UpgradeAsked(s, business, plusEnabled, gatewayOk, g, r);
            Good(s, u, clock, r.t6, EndedBy(s, i, u))
  {
    var i := LatestSubscription(s, business).value;
    var x := s.subscriptions[i];
    if x.status == Active && x.plan == Plus {
      RefundReconciledIsGood(s, i, g.details, r.t1, clock, r.t6);
    } else if Upgradable(x, plusEnabled) && gatewayOk {
      ChangeThenReconciled(s, i, x.(plan := Plus), g, r.t1, clock, r);
    } else {
      Unchanged(s, clock, r.t6, EndedBy(s, i, s));
    }
  }

  // ---- Webhooks ----

  lemma CheckoutEventIsGood(s: Store, kind: CheckoutKind, session: Ref, clock: Instant, r: Readings)
    requires Inv(s, clock) && Increasing(clock, r)
    ensures Good(s, CheckoutEventApplied(s, kind, session, r), clock, r.t6, None)
  {
    Unchanged(s, clock, r.t6, None);
    match FirstAt(s.checkouts, WithHosted(session)) {
      case None =>
      case Some(c) =>
        var k := s.checkouts[c];
        assert WithHosted(session)(k);
        match kind {
          case CheckoutCreatedEvent => CheckoutChange(s, c, k.(status := Open), clock, r.t6);
          case CheckoutCanceledEvent => CheckoutChange(s, c, k.(status := CheckoutCanceled), clock, r.t6);
          case CheckoutExpiredEvent => CheckoutChange(s, c, k.(status := Expired), clock, r.t6);
          case CheckoutPaidEvent =>
            ChangeThenCard(s, c, if k.status == Paid then k else PaidAtFirst(k, r.t1), r.t2, clock, r.t1, r.t6);
        }
    }
  }

  lemma SubscriptionEventIsGood(s: Store, kind: SubscriptionKind, recurrence: Ref, active: bool, now: Instant,
      lo: Instant, hi: Instant)
    requires Inv(s, lo) && lo <= hi
    ensures Good(s, SubscriptionEventApplied(s, kind, recurrence, active, now), lo, hi, None)
  {
    var t := SubscriptionEventApplied(s, kind, recurrence, active, now);
    Unchanged(s, lo, hi, None);
    match FirstAt(s.subscriptions, WithRecurrence(recurrence)) {
      case None =>
      case Some(i) =>
        if t != s {
          SubscriptionChange(s, i, t.subscriptions[i], lo, hi, None);
        }
    }
  }

  lemma ClosedIsGood(s: Store, c: nat, now: Instant, lo: Instant, hi: Instant)
    requires Inv(s, lo) && lo <= hi
    ensures Good(s, Closed(s, c, now), lo, hi, None)
  {
    Unchanged(s, lo, hi, None);
    match SubscriptionFor(s, c) {
      case None =>
      case Some(i) =>
        SubscriptionChange(s, i, s.subscriptions[i].(status := Canceled, canceledAt := Some(now)), lo, hi, None);
    }
  }

  lemma ChangeThenClosed(s: Store, c: nat, k: Checkout, now: Instant, lo: Instant, mid: Instant, hi: Instant)
    requires Inv(s, lo) && lo <= mid <= hi && c < |s.checkouts| && CheckoutMayBecome(s.checkouts[c], k, lo, mid)
    ensures Good(s, Closed(WithCheckout(s, c, k), c, now), lo, hi, None)
  {
    var t := WithCheckout(s, c, k);
    CheckoutChange(s, c, k, lo, mid);
    ClosedIsGood(t, c, now, mid, hi);
    GoodThen(s, t, Closed(t, c, now), lo, mid, hi, None);
  }

  lemma AuthorizationIsGood(s: Store, e: AuthorizationEvent, clock: Instant, r: Readings)
    requires Inv(s, clock) && Increasing(clock, r)
    ensures Good(s, AuthorizationApplied(s, e, r), clock, r.t6, None)
  {
    Unchanged(s, clock, r.t6, None);
    match AuthorizedCheckout(s, e) {
      case None =>
      case Some(c) =>
        match AuthorizationBound(s.checkouts[c], e) {
          case Conflict(k) => CheckoutChange(s, c, k, clock, r.t6);
          case Bound(k) => AuthorizationMoveIsGood(s, c, k, e, clock, r);
        }
    }
  }

  lemma AuthorizationMoveIsGood(s: Store, c: nat, k: Checkout, e: AuthorizationEvent, clock: Instant, r: Readings)
    requires Inv(s, clock) && Increasing(clock, r) && c < |s.checkouts| && s.checkouts[c].payWith == PixAutomatic
    requires CheckoutBecomes(s.checkouts[c], k, clock, clock)
    ensures Good(s, AuthorizationMoved(s, c, k, e, r), clock, r.t6, None)
  {
    match e.kind {
      case AuthorizationActivated =>
        if e.cents != Some(k.amount) {
          CheckoutChange(s, c, k.(status := Failed), clock, r.t6);
        } else {
          var t := WithCheckout(s, c, PaidAtFirst(k, r.t1));
          CheckoutChange(s, c, PaidAtFirst(k, r.t1), clock, r.t1);
          ActivationIsGood(t, c, r.t2, r.t1, r.t6);
          GoodThen(s, t, Activated(t, c, r.t2), clock, r.t1, r.t6, None);
        }
      case AuthorizationCreated => CheckoutChange(s, c, k.(status := Open), clock, r.t6);
      case AuthorizationCancelled => ChangeThenClosed(s, c, Ended(k, CheckoutCanceled), r.t1, clock, r.t1, r.t6);
      case AuthorizationExpired => ChangeThenClosed(s, c, Ended(k, Expired), r.t1, clock, r.t1, r.t6);
      case AuthorizationRefused => CheckoutChange(s, c, Ended(k, Failed), clock, r.t6);
    }
  }

  lemma CommonPixIsGood(s: Store, e: PaymentEvent, clock: Instant, r: Readings)
    requires Inv(s, clock) && Increasing(clock, r)
    ensures Good(s, CommonPixApplied(s, e, r), clock, r.t2, None)
  {
    Unchanged(s, clock, r.t2, None);
    match CommonPixCheckout(s, e) {
      case None =>
      case Some(c) =>
        var k := s.checkouts[c];
        if PaysCommonPix(k, c, e) {
          var known := if e.customer.Some? then k.(customer := e.customer) else k;
          ChangeThenPix(s, c, PaidAtFirst(WithInitialPayment(known, true, e.id), r.t1), r.t2, clock, r.t1, r.t2);
        }
    }
  }

  lemma PixInitialIsGood(s: Store, e: PaymentEvent, lo: Instant, r: Readings)
    requires Inv(s, lo) && lo < r.t3
    ensures Good(s, PixInitialApplied(s, e, r), lo, r.t3, None)
  {
    var t := PixInitialApplied(s, e, r);
    Unchanged(s, lo, r.t3, None);
    match PixAutomaticCheckout(s, e) {
      case None =>
      case Some(c) =>
        if t != s {
          CheckoutChange(s, c, t.checkouts[c], lo, r.t3);
        }
    }
  }

  lemma CardIsGood(s: Store, e: PaymentEvent, lo: Instant, r: Readings)
    requires Inv(s, lo) && lo < r.t4 < r.t5
    ensures Good(s, CardApplied(s, e, r), lo, r.t5, None)
  {
    Unchanged(s, lo, r.t5, None);
    match CardCheckout(s, e) {
      case None =>
      case Some(c) =>
        var k := s.checkouts[c];
        if e.cents == Some(k.amount) {
          var bound := CardReferences(k, e);
          ChangeThenCard(s, c, if bound.hosted.None? && Confirms(e) then PaidAtFirst(bound, r.t4) else bound,
                         r.t5, lo, r.t4, r.t5);
        }
    }
  }

  /** Payment events that take access away. */
  predicate Withdraws(kind: PaymentKind) {
    kind in {PaymentOverdue, PaymentRefunded, ChargebackRequested, AwaitingChargebackReversal}
  }

  lemma PaidThroughBecomes(s: Store, x: Subscription, e: PaymentEvent, price: int, now: Instant)
    ensures SubscriptionBecomes(x, PaidThrough(s, x, e, price, now))
    ensures !Withdraws(e.kind) ==> AccessKept(x, PaidThrough(s, x, e, price, now))
  {
  }

  /** The subscription a payment event takes access from, if any. */
  function WithdrawnBy(s: Store, e: PaymentEvent, r: Readings): Option<nat> {
    if Withdraws(e.kind) then
      PaymentSubscription(CapturedBy(s, e, r), e)
    else None
  }

  lemma SubscriptionPaymentIsGood(s: Store, e: PaymentEvent, prices: Prices, now: Instant, lo: Instant, hi: Instant)
    requires Inv(s, lo) && lo <= hi
    ensures Good(s, SubscriptionPaymentApplied(s, e, prices, now), lo, hi,
                 if Withdraws(e.kind) then PaymentSubscription(s, e) else None)
  {
    var lost := if Withdraws(e.kind) then PaymentSubscription(s, e) else None;
    match PaymentSubscription(s, e) {
      case None => Unchanged(s, lo, hi, lost);
      case Some(i) =>
        var x := s.subscriptions[i];
        PaidThroughBecomes(s, x, e, prices(x.plan, x.cycle), now);
        SubscriptionChange(s, i, PaidThrough(s, x, e, prices(x.plan, x.cycle), now), lo, hi, lost);
    }
  }

  /** The stages before the subscription's own: checkouts are bound, paid and activated. */
  function CapturedBy(s: Store, e: PaymentEvent, r: Readings): Store {
    CardApplied(PixInitialApplied(CommonPixApplied(s, e, r), e, r), e, r)
  }

  lemma CaptureIsGood(s: Store, e: PaymentEvent, clock: Instant, r: Readings)
    requires Inv(s, clock) && Increasing(clock, r)
    ensures Good(s, CapturedBy(s, e, r), clock, r.t5, None)
  {
    var s1 := CommonPixApplied(s, e, r);
    var s2 := PixInitialApplied(s1, e, r);
    var s3 := CardApplied(s2, e, r);
    CommonPixIsGood(s, e, clock, r);
    PixInitialIsGood(s1, e, r.t2, r);
    GoodThen(s, s1, s2, clock, r.t2, r.t3, None);
    CardIsGood(s2, e, r.t3, r);
    GoodThen(s, s2, s3, clock, r.t3, r.t5, None);
  }

  lemma PaymentIsGood(s: Store, e: PaymentEvent, prices: Prices, clock: Instant, r: Readings)
    requires Inv(s, clock) && Increasing(clock, r)
    ensures Good(s, PaymentApplied(s, e, prices, r), clock, r.t6, WithdrawnBy(s, e, r))
  {
    var s3 := CapturedBy(s, e, r);
    CaptureIsGood(s, e, clock, r);
    SubscriptionPaymentIsGood(s3, e, prices, r.t6, r.t5, r.t6);
    GoodThen(s, s3, SubscriptionPaymentApplied(s3, e, prices, r.t6), clock, r.t5, r.t6, WithdrawnBy(s, e, r));
  }

  /** Payment events that end the paid period; an overdue payment only blocks it. */
  predicate CutsPeriod(kind: PaymentKind) {
    kind in {PaymentRefunded, ChargebackRequested, AwaitingChargebackReversal}
  }

  /** Every other payment event leaves every paid period as long as it was, overdue included. */
  lemma OtherPaymentsKeepPeriods(s: Store, e: PaymentEvent, prices: Prices, clock: Instant, r: Readings)
    requires Inv(s, clock) && Increasing(clock, r) && !CutsPeriod(e.kind)
    ensures var t := PaymentApplied(s, e, prices, r);
            && |s.subscriptions| <= |t.subscriptions|
            && forall i | 0 <= i < |s.subscriptions| :: s.subscriptions[i].accessUntil <= t.subscriptions[i].accessUntil
  {
    var s3 := CapturedBy(s, e, r);
    CaptureIsGood(s, e, clock, r);
    var t := SubscriptionPaymentApplied(s3, e, prices, r.t6);
    forall i | 0 <= i < |s.subscriptions| ensures s.subscriptions[i].accessUntil <= t.subscriptions[i].accessUntil {
      PeriodsThroughStages(s, s3, e, prices, clock, r, i);
    }
  }

  lemma PeriodsThroughStages(s: Store, s3: Store, e: PaymentEvent, prices: Prices, clock: Instant, r: Readings, i: nat)
    requires Kept(s, s3, clock, r.t5, None) && !CutsPeriod(e.kind) && i < |s.subscriptions|
    ensures var t := SubscriptionPaymentApplied(s3, e, prices, r.t6);
            && i < |s3.subscriptions| <= |t.subscriptions|
            && s.subscriptions[i].accessUntil <= t.subscriptions[i].accessUntil
  {
    assert SubscriptionKept(s.subscriptions, s3.subscriptions, None, i);
    SubscriptionPaymentKeepsPeriods(s3, e, prices, r.t6, i);
  }

  lemma SubscriptionPaymentKeepsPeriods(s: Store, e: PaymentEvent, prices: Prices, now: Instant, i: nat)
    requires i < |s.subscriptions|
    ensures var t := SubscriptionPaymentApplied(s, e, prices, now);
            && |s.subscriptions| <= |t.subscriptions|
            && (CutsPeriod(e.kind) || s.subscriptions[i].accessUntil <= t.subscriptions[i].accessUntil)
  {
  }

  function EventWithdraws(s: Store, e: Event, r: Readings): Option<nat> {
    match e
    case Payment(payment) => WithdrawnBy(s, payment, r)
    case CheckoutEvent(_, _) => None
    case SubscriptionEvent(_, _, _) => None
    case Authorization(_) => None
    case Instruction => None
  }

  lemma EventIsGood(s: Store, e: Event, prices: Prices, clock: Instant, r: Readings)
    requires Inv(s, clock) && Increasing(clock, r)
    ensures Good(s, EventApplied(s, e, prices, r), clock, r.t6, EventWithdraws(s, e, r))
  {
    match e {
      case CheckoutEvent(kind, session) => CheckoutEventIsGood(s, kind, session, clock, r);
      case SubscriptionEvent(kind, recurrence, active) =>
        SubscriptionEventIsGood(s, kind, recurrence, active, r.t1, clock, r.t6);
      case Payment(payment) => PaymentIsGood(s, payment, prices, clock, r);
      case Authorization(authorization) => AuthorizationIsGood(s, authorization, clock, r);
      case Instruction => Unchanged(s, clock, r.t6, None);
    }
  }
}
