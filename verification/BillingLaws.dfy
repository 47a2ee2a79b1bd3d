/** What single billing calls and events mean to a customer. */
module BillingLaws {
  import opened BillingDomain
  import opened BillingInvariants
  import opened BillingSteps
  import opened Calendar
  import opened Seqs

  // ---- Checkouts ----

  predicate Overdue(k: Checkout, now: Instant) {
    && k.status == Open && k.paidAt.None? && Expires(k, now)
    && (k.payWith == CreditCard || (k.payWith == Pix && k.qrCode.Some?))
  }

  /**
   After a poll by its business no checkout it asked for is overdue, and polling again changes
   nothing; a checkout that was ever paid for, or of another business, is never touched.
   */
  lemma PollingSettlesOverdue(s: Store, business: nat, c: nat, now: Instant, d: nat)
    requires c < |s.checkouts| && d < |s.checkouts|
    ensures var t := CheckoutPolled(s, business, c, now);
            && |t.checkouts| == |s.checkouts|
            && (s.checkouts[c].business == business ==> !Overdue(t.checkouts[c], now))
            && CheckoutPolled(t, business, c, now) == t
            && (s.checkouts[d].paidAt.Some? || s.checkouts[d].business != business ==> t.checkouts[d] == s.checkouts[d])
            && (t.checkouts[d] != s.checkouts[d] ==> t.checkouts[d] == s.checkouts[d].(status := Expired))
  {
  }

  /** Only this checkout keeps its business from opening another. */
  ghost predicate OnlyBlocker(s: Store, c: nat) {
    && c < |s.checkouts| && Blocks(s.checkouts[c])
    && forall d | 0 <= d < |s.checkouts| && d != c :: !Blocking(s.checkouts[c].business)(s.checkouts[d])
  }

  /** Whatever checkout a cancellation closes was unpaid Pix, and no longer blocks the business. */
  lemma CanceledNeverBlocks(s: Store, business: nat, c: nat, gatewayOk: bool)
    requires CheckoutAbandoned(s, business, c, gatewayOk) != s
    ensures c < |s.checkouts| && s.checkouts[c].business == business
    ensures s.checkouts[c].payWith != CreditCard && s.checkouts[c].paidAt.None? && s.checkouts[c].status != Paid
    ensures !Blocks(CheckoutAbandoned(s, business, c, gatewayOk).checkouts[c])
  {
  }

  /** Canceling the one checkout in the way lets the next request open a new one. */
  lemma CancelingMakesWay(s: Store, c: nat, gatewayOk: bool, q: CheckoutRequest, retireOk: bool, made: Preparation,
      r: Readings)
    requires OnlyBlocker(s, c) && q.business == s.checkouts[c].business
    requires CheckoutAbandoned(s, q.business, c, gatewayOk) != s
    requires q.allowed && q.whatsappReady && ActiveSubscription(s, q.business, r.t1).None?
    requires FirstAt(s.checkouts, WithKey(q.business, q.key)).None?
    ensures var t := CheckoutAbandoned(s, q.business, c, gatewayOk);
            CheckoutCreated(t, q, retireOk, made, r).checkouts
            == t.checkouts + [PreparedCheckout(NewCheckout(q, r.t3), q.native, made)]
  {
    var t := CheckoutAbandoned(s, q.business, c, gatewayOk);
    CanceledNeverBlocks(s, q.business, c, gatewayOk);
    forall d | 0 <= d < |t.checkouts| ensures !Blocking(q.business)(t.checkouts[d]) {
      assert d != c ==> !Blocking(q.business)(s.checkouts[d]);
    }
    forall d | 0 <= d < |t.checkouts| ensures !WithKey(q.business, q.key)(t.checkouts[d]) {
      assert !WithKey(q.business, q.key)(s.checkouts[d]);
    }
  }

  // ---- Subscriptions ----

  /**
   A recurrence event gives access back to a blocked subscription exactly when it says that the
   recurrence is gone: what was paid for then runs on to its end.  An active recurrence lifts no
   block, and no recurrence event takes access or moves the end of a period.
   */
  lemma RecurrenceEventsUnblockExactlyWhen(
    s: Store, kind: SubscriptionKind, recurrence: Ref, active: bool, now: Instant, i: nat)
    requires i < |s.subscriptions|
    ensures var t := SubscriptionEventApplied(s, kind, recurrence, active, now);
            && |t.subscriptions| == |s.subscriptions|
            && t.subscriptions[i].accessUntil == s.subscriptions[i].accessUntil
            && (Granting(s.subscriptions[i]) ==> Granting(t.subscriptions[i]))
            && (!Granting(s.subscriptions[i]) && Granting(t.subscriptions[i]) <==>
                  && FirstAt(s.subscriptions, WithRecurrence(recurrence)) == Some(i)
                  && s.subscriptions[i].status in {PastDue, Suspended}
                  && kind in {SubscriptionInactivated, SubscriptionDeleted})
  {
    var x := s.subscriptions[i];
    var t := SubscriptionEventApplied(s, kind, recurrence, active, now);
    match x.status {
      case Active =>
      case PastDue =>
      case Canceled =>
      case Suspended =>
    }
    if FirstAt(s.subscriptions, WithRecurrence(recurrence)) == Some(i) {
      assert kind in {SubscriptionInactivated, SubscriptionDeleted} ==> t.subscriptions[i].status == Canceled;
    } else {
      assert t.subscriptions[i] == x;
    }
  }

  /** The period a payment pays for: a cycle from its due date, or from now. */
  function PaidUntil(x: Subscription, e: PaymentEvent, now: Instant): Instant {
    CycleEnd(if e.dueDate.Some? then e.dueDate.value * DAY else now, x.cycle)
  }

  /**
   A confirmed payment of the plan's price gives its subscription access at every instant of the
   cycle it pays for, whatever state it was in, and takes none it had.
   */
  lemma PaymentBuysItsCycle(s: Store, e: PaymentEvent, prices: Prices, now: Instant, i: nat, at: Instant)
    requires PaymentSubscription(s, e) == Some(i) && i < |s.subscriptions| && Confirms(e)
    requires e.cents == Some(prices(s.subscriptions[i].plan, s.subscriptions[i].cycle))
    ensures var t := SubscriptionPaymentApplied(s, e, prices, now);
            && |t.subscriptions| == |s.subscriptions|
            && (Grants(t.subscriptions[i], at) <==>
                  at < s.subscriptions[i].accessUntil || at < PaidUntil(s.subscriptions[i], e, now))
            && (Grants(s.subscriptions[i], at) ==> Grants(t.subscriptions[i], at))
  {
  }

  /** A payment of any other amount changes no subscription; every event changes at most the one it is for. */
  lemma PaymentsConcernOneSubscription(s: Store, e: PaymentEvent, prices: Prices, now: Instant, j: nat)
    requires j < |s.subscriptions|
    ensures var t := SubscriptionPaymentApplied(s, e, prices, now); var x := s.subscriptions[j];
            && |t.subscriptions| == |s.subscriptions| && t.checkouts == s.checkouts
            && (PaymentSubscription(s, e) != Some(j) ==> t.subscriptions[j] == x)
            && (Confirms(e) && e.cents != Some(prices(x.plan, x.cycle)) ==> t.subscriptions[j] == x)
  {
  }

  /** Overdue blocks at once and keeps the period, so the next payment of the price unblocks it. */
  lemma PaymentAfterOverdueRestores(s: Store, late: PaymentEvent, paid: PaymentEvent, prices: Prices, now: Instant,
      later: Instant, i: nat, at: Instant)
    requires i < |s.subscriptions| && late.kind == PaymentOverdue && Confirms(paid)
    requires PaymentSubscription(s, late) == Some(i)
    requires var t := SubscriptionPaymentApplied(s, late, prices, now);
             && PaymentSubscription(t, paid) == Some(i)
             && paid.cents == Some(prices(s.subscriptions[i].plan, s.subscriptions[i].cycle))
    ensures var t := SubscriptionPaymentApplied(s, late, prices, now);
            var u := SubscriptionPaymentApplied(t, paid, prices, later);
            && |u.subscriptions| == |t.subscriptions| == |s.subscriptions|
            && !Grants(t.subscriptions[i], at)
            && (at < s.subscriptions[i].accessUntil ==> Grants(u.subscriptions[i], at))
  {
    PaymentBuysItsCycle(SubscriptionPaymentApplied(s, late, prices, now), paid, prices, later, i, at);
  }
}
