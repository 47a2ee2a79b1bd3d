/**
 The billing service over its tables.  Rows are read, changed field by field and written back,
 as in one database session; every method is proved to do what BillingSteps says.
 */
module BillingService {
  import opened BillingDomain
  import opened BillingInvariants
  import opened BillingLaws
  import opened BillingRefunds
  import opened BillingSafety
  import opened BillingSteps
  import opened Calendar
  import opened Seqs

  class Service {
    var checkouts: seq<Checkout>
    var subscriptions: seq<Subscription>
    var refundCalls: seq<RefundCall>
    var events: map<nat, bool>

    constructor ()
      ensures Rows() == Store([], [], [], map[])
    {
      checkouts, subscriptions, refundCalls, events := [], [], [], map[];
    }

    function Rows(): Store
      reads this
    {
      Store(checkouts, subscriptions, refundCalls, events)
    }

    // ---- Activation ----

    method Activate(c: nat, now: Instant)
      requires c < |checkouts|
      modifies `subscriptions
      ensures Rows() == Activated(old(Rows()), c, now)
    {
      var k := checkouts[c];
      var accessUntil := CycleEnd(now, k.cycle);
      match SubscriptionFor(Rows(), c) {
        case None =>
          if ActiveSubscription(Rows(), k.business, now).Some? {
            return;
          }
          subscriptions := subscriptions + [FirstPeriod(c, k, accessUntil)];
        case Some(i) =>
          var x := subscriptions[i];
          x := x.(status := Active);
          if k.payWith != PixAutomatic || k.recurrence.Some? {
            x := x.(recurrence := k.recurrence);
          }
          if k.payWith == PixAutomatic {
            x := x.(authorization := k.authorization);
          }
          if k.payWith == Pix {
            x := x.(qrCode := k.qrCode);
          }
          x := x.(customer := k.customer);
          x := x.(accessUntil := Max(x.accessUntil, accessUntil));
          subscriptions := subscriptions[i := x];
      }
    }

    method ActivateCardIfReady(c: nat, now: Instant)
      requires c < |checkouts|
      modifies `subscriptions
      ensures Rows() == CardActivatedIfReady(old(Rows()), c, now)
    {
      var k := checkouts[c];
      if k.payWith != CreditCard || k.status != Paid || k.recurrence.None? {
        return;
      }
      Activate(c, now);
    }

    method ActivateCommonPixIfReady(c: nat, now: Instant)
      requires c < |checkouts|
      modifies `subscriptions
      ensures Rows() == PixActivatedIfReady(old(Rows()), c, now)
    {
      var k := checkouts[c];
      if k.payWith != Pix || k.status != Paid || !(k.qrCode.Some? || k.recurrence.Some?) {
        return;
      }
      Activate(c, now);
    }

    // ---- Checkouts ----

    method CreateCheckout(q: CheckoutRequest, retireOk: bool, made: Preparation, r: Readings)
      modifies `checkouts
      ensures Rows() == CheckoutCreated(old(Rows()), q, retireOk, made, r)
    {
      if !q.allowed {
        return;
      }
      var existing := FirstAt(checkouts, WithKey(q.business, q.key));
      if existing.Some? {
        ReuseKey(existing.value, q, r.t1);
        return;
      }
      if ActiveSubscription(Rows(), q.business, r.t1).Some? || !q.whatsappReady {
        return;
      }
      var blocking := LastAt(checkouts, Blocking(q.business));
      if blocking.Some? {
        var b := blocking.value;
        var k := checkouts[b];
        if k.payWith == Pix && k.paidAt.None? && k.qrCode.Some? {
          if !Expires(k, r.t2) {
            return;
          }
          k := k.(status := Expired);
        } else if k.payWith == Pix && k.paidAt.None? && k.recurrence.Some? {
          if !retireOk {
            return;
          }
          k := k.(status := CheckoutCanceled);
        } else if k.paidAt.Some? || k.payWith != CreditCard || k.recurrence.Some? || !Expires(k, r.t2) {
          return;
        } else {
          k := k.(status := Expired);
        }
        checkouts := checkouts[b := k];
      }
      var checkout := NewCheckout(q, r.t3);
      checkout := PreparedCheckout(checkout, q.native, made);
      checkouts := checkouts + [checkout];
    }

    method ReuseKey(c: nat, q: CheckoutRequest, now: Instant)
      requires c < |checkouts|
      modifies `checkouts
      ensures Rows() == KeyReused(old(Rows()), c, q, now)
    {
      var k := checkouts[c];
      if k.plan != q.plan || k.cycle != q.cycle || k.payWith != q.payWith {
        return;
      }
      if k.payWith in {Pix, PixAutomatic} && k.paidAt.Some? {
        return;
      }
      if k.payWith == Pix && k.status == Open && Expires(k, now) {
        checkouts := checkouts[c := k.(status := Expired)];
      }
    }

    method ReadCheckoutStatus(business: nat, c: nat, now: Instant)
      modifies `checkouts
      ensures Rows() == CheckoutPolled(old(Rows()), business, c, now)
      ensures c < |checkouts| && checkouts[c].business == business ==> !Overdue(checkouts[c], now)
      ensures UnpaidRowsOnly(old(checkouts), checkouts)
    {
      if c >= |checkouts| || checkouts[c].business != business {
        return;
      }
      var k := checkouts[c];
      if k.status == Open && Expires(k, now) && k.paidAt.None?
         && (k.payWith == CreditCard || (k.payWith == Pix && k.qrCode.Some?))
      {
        checkouts := checkouts[c := k.(status := Expired)];
      }
    }

    method CancelCheckout(business: nat, c: nat, gatewayOk: bool)
      modifies `checkouts
      ensures Rows() == CheckoutAbandoned(old(Rows()), business, c, gatewayOk)
      ensures checkouts != old(checkouts) ==> c < |checkouts| && !Blocks(checkouts[c])
      ensures UnpaidRowsOnly(old(checkouts), checkouts)
    {
      if c >= |checkouts| || checkouts[c].business != business {
        return;
      }
      var k := checkouts[c];
      if k.payWith == CreditCard || k.status == Paid || k.paidAt.Some? || k.status in {CheckoutCanceled, Failed} {
        return;
      }
      if k.payWith == PixAutomatic && k.authorization.Some? {
        if !gatewayOk {
          return;
        }
      } else if k.payWith == Pix && (k.qrCode.Some? || k.recurrence.Some?) {
        if !gatewayOk {
          return;
        }
      }
      checkouts := checkouts[c := k.(status := CheckoutCanceled)];
    }

    // ---- Native card payments ----

    method PayCreditCard(business: nat, c: nat, allowed: bool, g: CardGateway, r: Readings)
      modifies `checkouts, `subscriptions
      ensures Rows() == CardPaid(old(Rows()), business, c, allowed, g, r)
    {
      if !allowed || c >= |checkouts| || checkouts[c].business != business || checkouts[c].payWith != CreditCard {
        return;
      }
      var k := checkouts[c];
      if k.hosted.Some? || k.status == Paid {
        return;
      }
      var active := ActiveSubscription(Rows(), business, r.t1);
      if active.Some? && subscriptions[active.value].checkout != c {
        return;
      }
      if Expires(k, r.t2) {
        if k.status != Creating {
          checkouts := checkouts[c := k.(status := Expired)];
        }
        return;
      }
      if k.status in {CheckoutCanceled, Expired, Failed} || k.recurrence.Some? {
        return;
      }
      if k.status == Creating {
        if g.found.Some? {
          BindNative(c, g.found.value, g.payments, r);
        }
        return;
      }
      if g.customer.None? {
        return;
      }
      k := k.(customer := g.customer);
      k := k.(status := Creating);
      checkouts := checkouts[c := k];
      ChargeCard(c, g, r);
    }

    method ChargeCard(c: nat, g: CardGateway, r: Readings)
      requires c < |checkouts|
      modifies `checkouts, `subscriptions
      ensures Rows() == CardCharged(old(Rows()), c, g, r)
    {
      match g.outcome {
        case Rejected =>
          checkouts := checkouts[c := checkouts[c].(status := Open)];
        case Uncertain =>
          if g.found.Some? {
            BindNative(c, g.found.value, g.payments, r);
          }
        case Created(recurrence) =>
          BindNative(c, recurrence, g.payments, r);
      }
    }

    method BindNative(c: nat, recurrence: Ref, payments: Option<seq<ProviderPayment>>, r: Readings)
      requires c < |checkouts|
      modifies `checkouts, `subscriptions
      ensures Rows() == NativeBound(old(Rows()), c, recurrence, payments, r)
    {
      var k := checkouts[c];
      k := k.(recurrence := Some(recurrence));
      k := k.(status := Open);
      checkouts := checkouts[c := k];
      ReconcileNativePayment(c, payments, r);
    }

    /** The loop stops at the first settled payment of the right amount. */
    method ReconcileNativePayment(c: nat, payments: Option<seq<ProviderPayment>>, r: Readings)
      requires c < |checkouts|
      modifies `checkouts, `subscriptions
      ensures Rows() == NativeReconciled(old(Rows()), c, payments, r)
    {
      var k := checkouts[c];
      if k.recurrence.None? || k.status == Paid || payments.None? {
        return;
      }
      var i := 0;
      while i < |payments.value|
        invariant i <= |payments.value| && Rows() == old(Rows()) && checkouts[c] == k
        invariant forall j | 0 <= j < i :: !Settled(payments.value[j], k.amount)
      {
        var p := payments.value[i];
        if p.cents != Some(k.amount) || p.state !in {Confirmed, Received} {
          i := i + 1;
          continue;
        }
        FirstAtIs(payments.value, SettledFor(k.amount), i);
        if p.id.Some? && k.payment.None? {
          k := k.(payment := p.id);
        }
        k := k.(status := Paid);
        if k.paidAt.None? {
          k := k.(paidAt := Some(r.t4));
        }
        if p.customer.Some? {
          k := k.(customer := p.customer);
        }
        checkouts := checkouts[c := k];
        ActivateCardIfReady(c, r.t5);
        return;
      }
    }

    // ---- Refunds ----

    /** The totals the verdict is taken from, in one pass over the report. */
    static method ProviderRefundStatus(refunds: seq<ProviderRefund>, amount: int) returns (verdict: Verdict)
      ensures verdict == RefundVerdict(refunds, amount)
    {
      if refunds == [] {
        return NoReport;
      }
      var done, pending, cancelled, awaiting, observed := 0, 0, 0, 0, false;
      for i := 0 to |refunds|
        invariant done == Total(refunds[..i], Done) && pending == Total(refunds[..i], Pending)
        invariant cancelled == Total(refunds[..i], Cancelled) && awaiting == Total(refunds[..i], AwaitingAuthorization)
        invariant observed <==> exists j | 0 <= j < i :: Counts(refunds[j])
      {
        assert refunds[..i + 1][..i] == refunds[..i] && refunds[..i + 1][i] == refunds[i];
        var refund := refunds[i];
        if refund.state == OtherRefund || refund.cents.None? {
          continue;
        }
        assert Counts(refunds[i]);
        match refund.state {
          case Done => done := done + refund.cents.value;
          case Pending => pending := pending + refund.cents.value;
          case Cancelled => cancelled := cancelled + refund.cents.value;
          case AwaitingAuthorization => awaiting := awaiting + refund.cents.value;
          case OtherRefund => assert false;
        }
        observed := true;
      }
      assert refunds[..|refunds|] == refunds;
      if !observed {
        return Unknown;
      }
      if done >= amount {
        return AllDone;
      }
      if awaiting >= amount {
        return Awaiting;
      }
      if done + pending >= amount && pending > 0 {
        return AllPending;
      }
      if done > 0 || pending > 0 {
        return Partial;
      }
      return if cancelled > 0 then AllCancelled else Unknown;
    }

    method ReconcileProviderRefund(i: nat, details: Option<seq<ProviderRefund>>, now: Instant)
      requires i < |subscriptions|
      modifies `subscriptions
      ensures Rows() == RefundReconciled(old(Rows()), i, details, now)
    {
      var x := subscriptions[i];
      if x.refund !in {Requested, ReconcileRequired} {
        return;
      }
      if x.checkout >= |checkouts| || checkouts[x.checkout].payment.None? || details.None? {
        return;
      }
      var verdict := ProviderRefundStatus(details.value, checkouts[x.checkout].amount);
      match verdict {
        case AllDone =>
          x := x.(refund := Refunded);
          if x.refundedAt.None? {
            x := x.(refundedAt := Some(now));
          }
          x := x.(status := Suspended);
          x := x.(accessUntil := Min(x.accessUntil, now));
        case Awaiting => x := x.(refund := Requested);
        case AllPending => x := x.(refund := Requested);
        case AllCancelled => x := x.(refund := ReconcileRequired);
        case Partial => x := x.(refund := ReconcileRequired);
        case NoReport => return;
        case Unknown => return;
      }
      subscriptions := subscriptions[i := x];
    }

    /** Collects the distinct matching ids; only a single one is trusted. */
    static method ResolveInitialPayment(k: Checkout, payments: Option<seq<ProviderPayment>>) returns (id: Option<Ref>)
      ensures id == ResolvedPayment(k, payments)
    {
      if !((k.payWith == Pix && k.qrCode.Some?) || k.hosted.Some? || k.recurrence.Some?) || payments.None? {
        return None;
      }
      var unique: seq<Ref> := [];
      ghost var ids := [];
      for i := 0 to |payments.value|
        invariant ids == MatchingIds(payments.value[..i], k.amount)
        invariant DistinctOf(unique, ids)
      {
        assert payments.value[..i + 1][..i] == payments.value[..i] && payments.value[..i + 1][i] == payments.value[i];
        var p := payments.value[i];
        if p.id.Some? && p.state != OtherState && p.cents == Some(k.amount) {
          ids := ids + [p.id.value];
          if p.id.value !in unique {
            unique := unique + [p.id.value];
          }
        }
      }
      assert payments.value[..|payments.value|] == payments.value;
      OneDistinct(unique, ids);
      return if |unique| == 1 then Some(unique[0]) else None;
    }

    method FindPayment(c: nat, payments: Option<seq<ProviderPayment>>)
      requires c < |checkouts|
      modifies `checkouts
      ensures Rows() == WithResolvedPayment(old(Rows()), c, payments)
    {
      if checkouts[c].payment.None? {
        var id := ResolveInitialPayment(checkouts[c], payments);
        checkouts := checkouts[c := checkouts[c].(payment := id)];
      }
    }

    method ResumeRefund(i: nat, g: RefundGateway, now: Instant)
      requires i < |subscriptions|
      modifies `checkouts, `subscriptions, `refundCalls
      ensures Rows() == RefundResumed(old(Rows()), i, g, now)
    {
      var x := subscriptions[i];
      if x.checkout >= |checkouts| {
        return;
      }
      FindPayment(x.checkout, g.payments);
      if checkouts[x.checkout].payment.None? || !RecurrenceCancels(x, g.recurrenceOk) {
        return;
      }
      Submit(i, false, g.refundOk, now);
    }

    /** The one-way boundary is written first, then the provider is called. */
    method Submit(i: nat, first: bool, refundOk: bool, now: Instant)
      requires i < |subscriptions|
      modifies `subscriptions, `refundCalls
      ensures Rows() == Submitted(old(Rows()), i, first, refundOk, now)
    {
      var x := subscriptions[i];
      x := x.(status := Canceled);
      if x.canceledAt.None? {
        x := x.(canceledAt := Some(now));
      }
      x := x.(refund := Requested);
      refundCalls := refundCalls + [RefundCall(i, first)];
      if !refundOk {
        x := x.(refund := ReconcileRequired);
      }
      subscriptions := subscriptions[i := x];
    }

    method ResumeAndReconcile(i: nat, g: RefundGateway, r: Readings)
      requires i < |subscriptions|
      modifies `checkouts, `subscriptions, `refundCalls
      ensures Rows() == ResumedThenReconciled(old(Rows()), i, g, r)
    {
      var x := subscriptions[i];
      if x.refund == ReconcileRequired && x.status !in {Canceled, Suspended} {
        ResumeRefund(i, g, r.t1);
      }
      ReconcileProviderRefund(i, g.details, r.t2);
    }

    method ReadSubscriptionStatus(business: nat, g: RefundGateway, r: Readings)
      modifies `checkouts, `subscriptions, `refundCalls
      ensures Rows() == StatusRead(old(Rows()), business, g, r)
      ensures |refundCalls| <= |old(refundCalls)| + 1
      ensures |refundCalls| > |old(refundCalls)| ==>
                var latest := LatestSubscription(old(Rows()), business);
                latest.Some? && Resumable(old(subscriptions)[latest.value]) && Submittable(old(Rows()), latest.value, g)
    {
      StatusReadAsksExactlyWhen(Rows(), business, g, r);
      var latest := LatestSubscription(Rows(), business);
      if latest.Some? {
        ResumeAndReconcile(latest.value, g, r);
      }
    }

    /** The first paid checkout of a business: the least payment instant, the earliest row on a tie. */
    method FirstPaidCheckout(business: nat) returns (first: Option<nat>)
      ensures first.Some? ==> IsFirstPaid(checkouts, business, first.value)
      ensures first.None? ==>
                forall c | 0 <= c < |checkouts| :: !(checkouts[c].business == business && checkouts[c].paidAt.Some?)
    {
      first := None;
      for c := 0 to |checkouts|
        invariant first.None? ==>
                    forall d | 0 <= d < c :: !(checkouts[d].business == business && checkouts[d].paidAt.Some?)
        invariant first.Some? ==>
                    && first.value < c && checkouts[first.value].business == business
                        && checkouts[first.value].paidAt.Some?
                    && forall d | 0 <= d < c :: NotPaidBefore(checkouts, business, d, first.value)
      {
        var k := checkouts[c];
        if k.business == business && k.paidAt.Some?
           && (first.None? || k.paidAt.value < checkouts[first.value].paidAt.value)
        {
          ghost var was := first;
          first := Some(c);
          forall d | 0 <= d < c ensures NotPaidBefore(checkouts, business, d, c) {
            assert was.Some? ==> NotPaidBefore(checkouts, business, d, was.value);
          }
        }
      }
    }

    method GuaranteeHolds(i: nat, now: Instant) returns (eligible: bool)
      requires i < |subscriptions|
      ensures eligible == GuaranteeEligible(Rows(), i, now)
    {
      var x := subscriptions[i];
      var first := FirstPaidCheckout(x.business);
      if first == Some(x.checkout) {
        eligible := now <= checkouts[x.checkout].paidAt.value + GUARANTEE && x.refund != Refunded;
      } else {
        eligible := false;
        if first.Some? {
          OneFirstPaid(checkouts, x.business, first.value, x.checkout);
        }
      }
    }

    method RequestGuaranteeRefund(business: nat, g: RefundGateway, r: Readings)
      modifies `checkouts, `subscriptions, `refundCalls
      ensures Rows() == RefundAsked(old(Rows()), business, g, r)
    {
      var latest := LatestSubscription(Rows(), business);
      if latest.None? {
        return;
      }
      if subscriptions[latest.value].refund != NoRefund {
        ResumeAndReconcile(latest.value, g, r);
      } else {
        FirstRefundRequest(latest.value, g, r);
      }
    }

    method FirstRefundRequest(i: nat, g: RefundGateway, r: Readings)
      requires i < |subscriptions|
      modifies `checkouts, `subscriptions, `refundCalls
      ensures Rows() == RefundFirstAsked(old(Rows()), i, g, r)
    {
      var eligible := GuaranteeHolds(i, r.t1);
      if !eligible || subscriptions[i].status == Suspended {
        return;
      }
      FindPayment(subscriptions[i].checkout, g.payments);
      var x := subscriptions[i];
      if x.cancellationRequestedAt.None? {
        x := x.(cancellationRequestedAt := Some(r.t2));
      }
      if x.refundRequestedAt.None? {
        x := x.(refundRequestedAt := Some(r.t2));
      }
      SubmitFirst(i, x, g, r.t3);
      ReconcileProviderRefund(i, g.details, r.t4);
    }

    /** With no payment to refund or no way to end the recurrence, the request waits for a resumption. */
    method SubmitFirst(i: nat, asked: Subscription, g: RefundGateway, now: Instant)
      requires i < |subscriptions| && asked.checkout < |checkouts|
      modifies `subscriptions, `refundCalls
      ensures Rows() ==
                if checkouts[asked.checkout].payment.None? || !RecurrenceCancels(asked, g.recurrenceOk)
                then WithSubscription(old(Rows()), i, asked.(refund := ReconcileRequired))
                else Submitted(WithSubscription(old(Rows()), i, asked.(refund := Requested)), i, true, g.refundOk, now)
    {
      if checkouts[asked.checkout].payment.None? || !RecurrenceCancels(asked, g.recurrenceOk) {
        subscriptions := subscriptions[i := asked.(refund := ReconcileRequired)];
      } else {
        subscriptions := subscriptions[i := asked.(refund := Requested)];
        Submit(i, true, g.refundOk, now);
      }
    }

    // ---- Cancellation and upgrade ----

    method RequestCancellation(business: nat, g: RefundGateway, r: Readings)
      modifies `subscriptions
      ensures Rows() == CancellationAsked(old(Rows()), business, g, r)
    {
      var latest := LatestSubscription(Rows(), business);
      if latest.None? {
        return;
      }
      var i := latest.value;
      if subscriptions[i].status !in {Canceled, Suspended} {
        var canceled := CancelSubscription(i, g.recurrenceOk, r);
        if !canceled {
          return;
        }
      }
      ReconcileProviderRefund(i, g.details, r.t3);
    }

    method CancelSubscription(i: nat, recurrenceOk: bool, r: Readings) returns (canceled: bool)
      requires i < |subscriptions|
      modifies `subscriptions
      ensures var x := old(subscriptions[i]);
              var asked := x.(cancellationRequestedAt := OrElse(x.cancellationRequestedAt, r.t1));
              var direct := x.payWith == Pix && x.recurrence.None?;
              && (canceled <==> direct || RecurrenceCancels(x, recurrenceOk))
              && Rows() == WithSubscription(old(Rows()), i,
                             if direct then asked.(status := Canceled, canceledAt := Some(r.t1))
                             else if canceled then asked.(status := Canceled, canceledAt := OrElse(x.canceledAt, r.t2))
                             else asked)
    {
      var x := subscriptions[i];
      if x.cancellationRequestedAt.None? {
        x := x.(cancellationRequestedAt := Some(r.t1));
      }
      if x.payWith == Pix && x.recurrence.None? {
        subscriptions := subscriptions[i := x.(status := Canceled, canceledAt := Some(r.t1))];
        return true;
      }
      // The intent is committed before the provider is asked.
      subscriptions := subscriptions[i := x];
      if !RecurrenceCancels(x, recurrenceOk) {
        return false;
      }
      x := x.(status := Canceled);
      if x.canceledAt.None? {
        x := x.(canceledAt := Some(r.t2));
      }
      subscriptions := subscriptions[i := x];
      return true;
    }

    method UpgradeToPlus(business: nat, plusEnabled: bool, gatewayOk: bool, g: RefundGateway, r: Readings)
      modifies `subscriptions
      ensures Rows() == UpgradeAsked(old(Rows()), business, plusEnabled, gatewayOk, g, r)
    {
      var latest := LatestSubscription(Rows(), business);
      if latest.None? {
        return;
      }
      var i := latest.value;
      var x := subscriptions[i];
      if x.status != Active {
        return;
      }
      if x.plan == Basic {
        if x.cycle != Monthly || x.refund != NoRefund || x.cancellationRequestedAt.Some? {
          return;
        }
        if x.payWith !in {CreditCard, PixAutomatic} || x.recurrence.None? || !plusEnabled || !gatewayOk {
          return;
        }
        subscriptions := subscriptions[i := x.(plan := Plus)];
      }
      ReconcileProviderRefund(i, g.details, r.t1);
    }

    // ---- Webhooks ----

    method ApplyCheckoutEvent(kind: CheckoutKind, session: Ref, r: Readings)
      modifies `checkouts, `subscriptions
      ensures Rows() == CheckoutEventApplied(old(Rows()), kind, session, r)
    {
      var local := FirstAt(checkouts, WithHosted(session));
      if local.None? {
        return;
      }
      var c := local.value;
      var k := checkouts[c];
      match kind {
        case CheckoutCreatedEvent => checkouts := checkouts[c := k.(status := Open)];
        case CheckoutCanceledEvent => checkouts := checkouts[c := k.(status := CheckoutCanceled)];
        case CheckoutExpiredEvent => checkouts := checkouts[c := k.(status := Expired)];
        case CheckoutPaidEvent =>
          if k.payWith != CreditCard {
            return;
          }
          if k.status != Paid {
            k := k.(status := Paid);
            if k.paidAt.None? {
              k := k.(paidAt := Some(r.t1));
            }
          }
          checkouts := checkouts[c := k];
          ActivateCardIfReady(c, r.t2);
      }
    }

    method ApplySubscriptionEvent(kind: SubscriptionKind, recurrence: Ref, active: bool, now: Instant)
      modifies `subscriptions
      ensures Rows() == SubscriptionEventApplied(old(Rows()), kind, recurrence, active, now)
      ensures |subscriptions| == |old(subscriptions)|
      ensures forall i | 0 <= i < |subscriptions| :: AccessKept(old(subscriptions)[i], subscriptions[i])
    {
      var found := FirstAt(subscriptions, WithRecurrence(recurrence));
      if found.None? {
        return;
      }
      var x := subscriptions[found.value];
      if kind == SubscriptionInactivated || kind == SubscriptionDeleted {
        x := x.(status := Canceled);
        x := x.(canceledAt := Some(now));
        subscriptions := subscriptions[found.value := x];
      } else if active && x.status !in {Suspended, PastDue} {
        subscriptions := subscriptions[found.value := x.(status := Active)];
      }
    }

    method ApplyAuthorizationEvent(e: AuthorizationEvent, r: Readings)
      modifies `checkouts, `subscriptions
      ensures Rows() == AuthorizationApplied(old(Rows()), e, r)
    {
      var found := AuthorizedCheckout(Rows(), e);
      if found.None? {
        return;
      }
      var c := found.value;
      var k := checkouts[c];
      // A conflicting reference ends the event; what was bound before it stays.
      if k.authorization.Some? && k.authorization != Some(e.id) {
        checkouts := checkouts[c := k];
        return;
      }
      k := k.(authorization := Some(e.id));
      if e.recurrence.Some? {
        if k.recurrence.Some? && k.recurrence != e.recurrence {
          checkouts := checkouts[c := k];
          return;
        }
        k := k.(recurrence := e.recurrence);
      }
      if e.customer.Some? {
        if k.customer.Some? && k.customer != e.customer {
          checkouts := checkouts[c := k];
          return;
        }
        k := k.(customer := e.customer);
      }
      if e.expiresAt.Some? {
        k := k.(expiresAt := e.expiresAt);
      }
      if e.hasPayload {
        k := k.(hasPayload := true);
      }
      MoveAuthorization(c, k, e, r);
    }

    method MoveAuthorization(c: nat, bound: Checkout, e: AuthorizationEvent, r: Readings)
      requires c < |checkouts|
      modifies `checkouts, `subscriptions
      ensures Rows() == AuthorizationMoved(old(Rows()), c, bound, e, r)
    {
      var k := bound;
      match e.kind {
        case AuthorizationActivated =>
          if e.cents != Some(k.amount) {
            checkouts := checkouts[c := k.(status := Failed)];
            return;
          }
          k := k.(status := Paid);
          if k.paidAt.None? {
            k := k.(paidAt := Some(r.t1));
          }
          checkouts := checkouts[c := k];
          Activate(c, r.t2);
        case AuthorizationCreated => checkouts := checkouts[c := k.(status := Open)];
        case AuthorizationCancelled => EndAuthorization(c, k, CheckoutCanceled, r.t1);
        case AuthorizationExpired => EndAuthorization(c, k, Expired, r.t1);
        case AuthorizationRefused =>
          if k.status != Paid {
            k := k.(status := Failed);
          }
          checkouts := checkouts[c := k];
      }
    }

    method EndAuthorization(c: nat, bound: Checkout, status: CheckoutStatus, now: Instant)
      requires c < |checkouts|
      modifies `checkouts, `subscriptions
      ensures Rows() == Closed(WithCheckout(old(Rows()), c, Ended(bound, status)), c, now)
    {
      var found := SubscriptionFor(Rows(), c);
      if found.Some? {
        subscriptions := subscriptions[found.value :=
          subscriptions[found.value].(status := Canceled, canceledAt := Some(now))];
      }
      checkouts := checkouts[c := if bound.status != Paid then bound.(status := status) else bound];
    }

    method ApplyPaymentEvent(e: PaymentEvent, prices: Prices, r: Readings)
      modifies `checkouts, `subscriptions
      ensures Rows() == PaymentApplied(old(Rows()), e, prices, r)
    {
      CaptureCommonPix(e, r);
      CapturePixInitial(e, r);
      CaptureCard(e, r);
      var found := PaymentSubscription(Rows(), e);
      if found.None? {
        return;
      }
      MoveSubscription(found.value, e, prices, r.t6);
    }

    method CaptureCommonPix(e: PaymentEvent, r: Readings)
      modifies `checkouts, `subscriptions
      ensures Rows() == CommonPixApplied(old(Rows()), e, r)
    {
      var found := CommonPixCheckout(Rows(), e);
      if found.None? {
        return;
      }
      var c := found.value;
      var k := checkouts[c];
      if e.cents != Some(k.amount) || (e.reference.Some? && e.reference.value != Alovia(c)) {
        return;
      }
      if e.customer.Some? {
        k := k.(customer := e.customer);
      }
      if k.payment.None? && e.id.Some? {
        k := k.(payment := e.id);
      }
      k := k.(status := Paid);
      if k.paidAt.None? {
        k := k.(paidAt := Some(r.t1));
      }
      checkouts := checkouts[c := k];
      ActivateCommonPixIfReady(c, r.t2);
    }

    method CapturePixInitial(e: PaymentEvent, r: Readings)
      modifies `checkouts
      ensures Rows() == PixInitialApplied(old(Rows()), e, r)
    {
      var found := PixAutomaticCheckout(Rows(), e);
      if found.None? {
        return;
      }
      var c := found.value;
      var k := checkouts[c];
      if e.cents != Some(k.amount) {
        return;
      }
      if k.paidAt.None? {
        if k.payment.None? && e.id.Some? {
          k := k.(payment := e.id);
        }
        k := k.(paidAt := Some(r.t3));
      }
      checkouts := checkouts[c := k];
    }

    method CaptureCard(e: PaymentEvent, r: Readings)
      modifies `checkouts, `subscriptions
      ensures Rows() == CardApplied(old(Rows()), e, r)
    {
      var found := CardCheckout(Rows(), e);
      if found.None? {
        return;
      }
      var c := found.value;
      var k := checkouts[c];
      if e.cents != Some(k.amount) {
        return;
      }
      k := k.(recurrence := e.recurrence);
      if e.customer.Some? {
        k := k.(customer := e.customer);
      }
      if (e.session.Some? || k.paidAt.None?) && Confirms(e) && k.payment.None? && e.id.Some? {
        k := k.(payment := e.id);
      }
      if k.hosted.None? && Confirms(e) {
        k := k.(status := Paid);
        if k.paidAt.None? {
          k := k.(paidAt := Some(r.t4));
        }
      }
      checkouts := checkouts[c := k];
      ActivateCardIfReady(c, r.t5);
    }

    method MoveSubscription(i: nat, e: PaymentEvent, prices: Prices, now: Instant)
      requires i < |subscriptions|
      modifies `subscriptions
      ensures Rows() == WithSubscription(old(Rows()), i,
                          PaidThrough(old(Rows()), old(subscriptions[i]), e,
                                      prices(old(subscriptions[i]).plan, old(subscriptions[i]).cycle), now))
      ensures SubscriptionBecomes(old(subscriptions[i]), subscriptions[i])
      ensures CutsPeriod(e.kind) || old(subscriptions[i]).accessUntil <= subscriptions[i].accessUntil
      ensures Withdraws(e.kind) || AccessKept(old(subscriptions[i]), subscriptions[i])
    {
      var x := subscriptions[i];
      var initial := x.checkout < |checkouts| && e.id.Some? && checkouts[x.checkout].payment == e.id;
      match e.kind {
        case PaymentConfirmed => x := Extend(x, e, prices(x.plan, x.cycle), now);
        case PaymentReceived => x := Extend(x, e, prices(x.plan, x.cycle), now);
        case PaymentOverdue => x := x.(status := PastDue);
        case RefundInProgress => if initial { x := x.(refund := Requested); }
        case PartiallyRefunded => if initial { x := x.(refund := ReconcileRequired); }
        case RefundDenied => if initial { x := x.(refund := ReconcileRequired); }
        case PaymentRefunded =>
          x := x.(status := Suspended, accessUntil := Min(x.accessUntil, now));
          if initial {
            x := x.(refund := Refunded);
            if x.refundedAt.None? {
              x := x.(refundedAt := Some(now));
            }
          }
        case ChargebackRequested => x := x.(status := Suspended, accessUntil := Min(x.accessUntil, now));
        case AwaitingChargebackReversal => x := x.(status := Suspended, accessUntil := Min(x.accessUntil, now));
        case OtherPayment =>
      }
      subscriptions := subscriptions[i := x];
    }

    static method Extend(x: Subscription, e: PaymentEvent, price: int, now: Instant) returns (y: Subscription)
      ensures y == Extended(x, e, price, now)
    {
      y := x;
      if e.cents != Some(price) {
        return;
      }
      var anchor := now;
      if e.dueDate.Some? {
        anchor := e.dueDate.value * DAY;
      }
      y := y.(accessUntil := Max(y.accessUntil, CycleEnd(anchor, y.cycle)));
      y := y.(status := Active);
    }

    method ProcessWebhook(id: nat, e: Event, prices: Prices, r: Readings)
      modifies this
      ensures Rows() == WebhookProcessed(old(Rows()), id, e, prices, r)
    {
      if id in events && events[id] {
        return;
      }
      if id !in events {
        events := events[id := false];
      }
      match e {
        case CheckoutEvent(kind, session) => ApplyCheckoutEvent(kind, session, r);
        case SubscriptionEvent(kind, recurrence, active) => ApplySubscriptionEvent(kind, recurrence, active, r.t1);
        case Payment(payment) => ApplyPaymentEvent(payment, prices, r);
        case Authorization(authorization) => ApplyAuthorizationEvent(authorization, r);
        case Instruction =>
      }
      events := events[id := true];
    }
  }

  /** No checkout that was ever paid for is touched. */
  predicate UnpaidRowsOnly(before: seq<Checkout>, after: seq<Checkout>) {
    |after| == |before| && forall d | 0 <= d < |before| :: before[d].paidAt.Some? ==> after[d] == before[d]
  }

  // ---- Lemmas the loops need ----

  ghost predicate DistinctOf(unique: seq<Ref>, ids: seq<Ref>) {
    && (forall id :: id in unique <==> id in ids)
    && (forall i, j | 0 <= i < j < |unique| :: unique[i] != unique[j])
  }

  lemma OneDistinct(unique: seq<Ref>, ids: seq<Ref>)
    requires DistinctOf(unique, ids)
    ensures |unique| == 1 <==> ids != [] && forall i | 0 <= i < |ids| :: ids[i] == ids[0]
    ensures |unique| == 1 ==> unique[0] == ids[0]
  {
    if |unique| == 1 {
      assert unique[0] in ids;
      forall i | 0 <= i < |ids| ensures ids[i] == unique[0] {
        assert ids[i] in unique;
      }
    } else if |unique| > 1 {
      assert unique[0] in ids && unique[1] in ids;
    }
    assert ids != [] ==> ids[0] in unique;
  }

  lemma OneFirstPaid(a: seq<Checkout>, business: nat, c: nat, d: nat)
    requires IsFirstPaid(a, business, c) && c != d
    ensures !IsFirstPaid(a, business, d)
  {
    assert d < |a| ==> NotPaidBefore(a, business, d, c);
    assert IsFirstPaid(a, business, d) ==> NotPaidBefore(a, business, c, d);
  }
}
