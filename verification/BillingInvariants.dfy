/**
 What every billing step keeps.  Kept relates the rows before and after; Inv is the invariant of
 the stored rows; Good says that a change keeps both.  Steps are chains of single-row changes,
 so the lemmas below about one row carry all of them.
 */
module BillingInvariants {
  import opened BillingDomain
  import opened BillingSteps
  import opened Seqs

  // ---- Rows ----

  /** paid_at is written once, between the two instants; who a checkout is for and how it is paid never change. */
  ghost predicate CheckoutBecomes(k: Checkout, l: Checkout, lo: Instant, hi: Instant) {
    && l.business == k.business && l.payWith == k.payWith && l.hosted == k.hosted && l.amount == k.amount
    && PaidBecomes(k.paidAt, l.paidAt, lo, hi)
  }

  ghost predicate PaidBecomes(p: Option<Instant>, q: Option<Instant>, lo: Instant, hi: Instant) {
    if p.Some? then q == p else q.Some? ==> lo < q.value <= hi
  }

  ghost predicate SubscriptionBecomes(x: Subscription, y: Subscription) {
    && y.checkout == x.checkout && y.business == x.business && y.payWith == x.payWith && y.cycle == x.cycle
    && (x.refund != NoRefund ==> y.refund != NoRefund)
    && (x.cancellationRequestedAt.Some? ==> y.cancellationRequestedAt == x.cancellationRequestedAt)
    && (x.refundRequestedAt.Some? ==> y.refundRequestedAt == x.refundRequestedAt)
    && (x.refundedAt.Some? ==> y.refundedAt == x.refundedAt)
  }

  predicate Granting(x: Subscription) { x.status in {Active, Canceled} }

  /** Paid access is not cut: it does not end earlier, and a granting status still grants. */
  ghost predicate AccessKept(x: Subscription, y: Subscription) {
    x.accessUntil <= y.accessUntil && (Granting(x) ==> Granting(y))
  }

  // ---- Stores ----

  ghost predicate CheckoutKept(a: seq<Checkout>, b: seq<Checkout>, lo: Instant, hi: Instant, c: nat)
    requires c < |a| <= |b|
  {
    CheckoutBecomes(a[c], b[c], lo, hi)
  }

  ghost predicate SubscriptionKept(a: seq<Subscription>, b: seq<Subscription>, lost: Option<nat>, i: nat)
    requires i < |a| <= |b|
  {
    SubscriptionBecomes(a[i], b[i]) && (lost == Some(i) || AccessKept(a[i], b[i]))
  }

  ghost predicate NewCheckoutUnpaid(b: seq<Checkout>, lo: Instant, hi: Instant, c: nat)
    requires c < |b|
  {
    PaidBecomes(None, b[c].paidAt, lo, hi)
  }

  /** Every row evolves as it may; all subscriptions but perhaps one keep their access. */
  ghost predicate Kept(s: Store, t: Store, lo: Instant, hi: Instant, lost: Option<nat>) {
    && lo <= hi
    && |s.checkouts| <= |t.checkouts| && |s.subscriptions| <= |t.subscriptions|
    && (forall c | 0 <= c < |s.checkouts| :: CheckoutKept(s.checkouts, t.checkouts, lo, hi, c))
    && (forall c | |s.checkouts| <= c < |t.checkouts| :: NewCheckoutUnpaid(t.checkouts, lo, hi, c))
    && (forall i | 0 <= i < |s.subscriptions| :: SubscriptionKept(s.subscriptions, t.subscriptions, lost, i))
  }

  ghost predicate PaidApart(a: seq<Checkout>, c: nat, d: nat)
    requires c < |a| && d < |a|
  {
    a[c].paidAt.Some? && a[d].paidAt.Some? ==> a[c].paidAt.value != a[d].paidAt.value
  }

  ghost predicate PaidBy(a: seq<Checkout>, clock: Instant, c: nat)
    requires c < |a|
  {
    a[c].paidAt.Some? ==> a[c].paidAt.value <= clock
  }

  predicate Native(k: Checkout) { k.payWith == CreditCard && k.hosted.None? }

  /** A subscription belongs to a checkout of its business; a native card checkout with one stays paid. */
  ghost predicate Linked(s: Store, i: nat)
    requires i < |s.subscriptions|
  {
    var x := s.subscriptions[i];
    && x.checkout < |s.checkouts|
    && s.checkouts[x.checkout].business == x.business && s.checkouts[x.checkout].payWith == x.payWith
    && (Native(s.checkouts[x.checkout]) ==> s.checkouts[x.checkout].status == Paid)
  }

  ghost predicate OwnCheckout(a: seq<Subscription>, i: nat, j: nat)
    requires i < |a| && j < |a|
  {
    a[i].checkout != a[j].checkout
  }

  /** A refund call is for a subscription whose refund status shows it. */
  ghost predicate CallShown(s: Store, j: nat)
    requires j < |s.refundCalls|
  {
    var i := s.refundCalls[j].subscription;
    i < |s.subscriptions| && s.subscriptions[i].refund != NoRefund
  }

  ghost predicate FirstCallsApart(calls: seq<RefundCall>, j: nat, k: nat)
    requires j < |calls| && k < |calls|
  {
    calls[j].first && calls[k].first ==> calls[j].subscription != calls[k].subscription
  }

  ghost predicate PaidInv(a: seq<Checkout>, clock: Instant) {
    && (forall c | 0 <= c < |a| :: PaidBy(a, clock, c))
    && (forall c, d | 0 <= c < d < |a| :: PaidApart(a, c, d))
  }

  ghost predicate LinkInv(s: Store) {
    && (forall i | 0 <= i < |s.subscriptions| :: Linked(s, i))
    && (forall i, j | 0 <= i < j < |s.subscriptions| :: OwnCheckout(s.subscriptions, i, j))
  }

  ghost predicate CallInv(s: Store) {
    && (forall j | 0 <= j < |s.refundCalls| :: CallShown(s, j))
    && (forall j, k | 0 <= j < k < |s.refundCalls| :: FirstCallsApart(s.refundCalls, j, k))
  }

  ghost predicate Inv(s: Store, clock: Instant) {
    PaidInv(s.checkouts, clock) && LinkInv(s) && CallInv(s)
  }

  /** A change of the store, starting from its invariant. */
  ghost predicate Good(s: Store, t: Store, lo: Instant, hi: Instant, lost: Option<nat>) {
    Kept(s, t, lo, hi, lost) && Inv(t, hi)
  }

  // ---- Chaining ----

  lemma KeptThen(s: Store, t: Store, u: Store, lo: Instant, mid: Instant, hi: Instant, lost: Option<nat>)
    requires Kept(s, t, lo, mid, None) && Kept(t, u, mid, hi, lost)
    ensures Kept(s, u, lo, hi, lost)
  {
    forall c | 0 <= c < |s.checkouts| ensures CheckoutKept(s.checkouts, u.checkouts, lo, hi, c) {
      assert CheckoutKept(s.checkouts, t.checkouts, lo, mid, c);
      assert CheckoutKept(t.checkouts, u.checkouts, mid, hi, c);
    }
    forall c | |s.checkouts| <= c < |u.checkouts| ensures NewCheckoutUnpaid(u.checkouts, lo, hi, c) {
      if c < |t.checkouts| {
        assert NewCheckoutUnpaid(t.checkouts, lo, mid, c);
        assert CheckoutKept(t.checkouts, u.checkouts, mid, hi, c);
      } else {
        assert NewCheckoutUnpaid(u.checkouts, mid, hi, c);
      }
    }
    forall i | 0 <= i < |s.subscriptions| ensures SubscriptionKept(s.subscriptions, u.subscriptions, lost, i) {
      assert SubscriptionKept(s.subscriptions, t.subscriptions, None, i);
      assert SubscriptionKept(t.subscriptions, u.subscriptions, lost, i);
    }
  }

  lemma GoodThen(s: Store, t: Store, u: Store, lo: Instant, mid: Instant, hi: Instant, lost: Option<nat>)
    requires Good(s, t, lo, mid, None) && Good(t, u, mid, hi, lost)
    ensures Good(s, u, lo, hi, lost)
  {
    KeptThen(s, t, u, lo, mid, hi, lost);
  }

  lemma Unchanged(s: Store, lo: Instant, hi: Instant, lost: Option<nat>)
    requires Inv(s, lo) && lo <= hi
    ensures Good(s, s, lo, hi, lost)
  {
    InvLater(s, lo, hi);
    forall c | 0 <= c < |s.checkouts| ensures CheckoutKept(s.checkouts, s.checkouts, lo, hi, c) {
    }
    forall i | 0 <= i < |s.subscriptions| ensures SubscriptionKept(s.subscriptions, s.subscriptions, lost, i) {
    }
  }

  lemma InvLater(s: Store, lo: Instant, hi: Instant)
    requires Inv(s, lo) && lo <= hi
    ensures Inv(s, hi)
  {
    forall c | 0 <= c < |s.checkouts| ensures PaidBy(s.checkouts, hi, c) {
      assert PaidBy(s.checkouts, lo, c);
    }
  }

  // ---- One checkout row ----

  ghost predicate CheckoutMayBecome(k: Checkout, l: Checkout, lo: Instant, hi: Instant) {
    && CheckoutBecomes(k, l, lo, hi)
    && (Native(k) && k.status == Paid ==> l.status == Paid)
  }

  lemma CheckoutChange(s: Store, c: nat, l: Checkout, lo: Instant, hi: Instant)
    requires Inv(s, lo) && lo <= hi && c < |s.checkouts| && CheckoutMayBecome(s.checkouts[c], l, lo, hi)
    ensures Good(s, WithCheckout(s, c, l), lo, hi, None)
  {
    var t := WithCheckout(s, c, l);
    Unchanged(s, lo, hi, None);
    PaidChange(s.checkouts, c, l, lo, hi);
    forall d | 0 <= d < |s.checkouts| ensures CheckoutKept(s.checkouts, t.checkouts, lo, hi, d) {
      assert CheckoutKept(s.checkouts, s.checkouts, lo, hi, d);
    }
    forall i | 0 <= i < |t.subscriptions| ensures Linked(t, i) {
      assert Linked(s, i);
    }
    forall j | 0 <= j < |t.refundCalls| ensures CallShown(t, j) {
      assert CallShown(s, j);
    }
  }

  lemma PaidChange(a: seq<Checkout>, c: nat, l: Checkout, lo: Instant, hi: Instant)
    requires PaidInv(a, lo) && lo <= hi && c < |a| && PaidBecomes(a[c].paidAt, l.paidAt, lo, hi)
    ensures PaidInv(a[c := l], hi)
  {
    var b := a[c := l];
    forall d | 0 <= d < |b| ensures PaidBy(b, hi, d) {
      assert PaidBy(a, lo, d);
    }
    forall d, e | 0 <= d < e < |b| ensures PaidApart(b, d, e) {
      assert PaidApart(a, d, e);
      assert PaidBy(a, lo, d) && PaidBy(a, lo, e);
    }
  }

  lemma CheckoutOpened(s: Store, k: Checkout, lo: Instant, hi: Instant)
    requires Inv(s, lo) && lo <= hi && k.paidAt.None?
    ensures Good(s, s.(checkouts := s.checkouts + [k]), lo, hi, None)
  {
    var t := s.(checkouts := s.checkouts + [k]);
    Unchanged(s, lo, hi, None);
    forall d | 0 <= d < |t.checkouts| ensures PaidBy(t.checkouts, hi, d) {
      assert d < |s.checkouts| ==> PaidBy(s.checkouts, hi, d);
    }
    forall d, e | 0 <= d < e < |t.checkouts| ensures PaidApart(t.checkouts, d, e) {
      assert e < |s.checkouts| ==> PaidApart(s.checkouts, d, e);
    }
    forall d | 0 <= d < |s.checkouts| ensures CheckoutKept(s.checkouts, t.checkouts, lo, hi, d) {
    }
    forall i | 0 <= i < |t.subscriptions| ensures Linked(t, i) {
      assert Linked(s, i);
    }
    forall j | 0 <= j < |t.refundCalls| ensures CallShown(t, j) {
      assert CallShown(s, j);
    }
  }

  // ---- One subscription row ----

  lemma SubscriptionChange(s: Store, i: nat, y: Subscription, lo: Instant, hi: Instant, lost: Option<nat>)
    requires Inv(s, lo) && lo <= hi && i < |s.subscriptions| && SubscriptionBecomes(s.subscriptions[i], y)
    requires lost == Some(i) || AccessKept(s.subscriptions[i], y)
    ensures Good(s, WithSubscription(s, i, y), lo, hi, lost)
  {
    var t := WithSubscription(s, i, y);
    Unchanged(s, lo, hi, lost);
    forall j | 0 <= j < |s.subscriptions| ensures SubscriptionKept(s.subscriptions, t.subscriptions, lost, j) {
      assert SubscriptionKept(s.subscriptions, s.subscriptions, lost, j);
    }
    forall j | 0 <= j < |t.subscriptions| ensures Linked(t, j) {
      assert Linked(s, j);
    }
    forall j, k | 0 <= j < k < |t.subscriptions| ensures OwnCheckout(t.subscriptions, j, k) {
      assert OwnCheckout(s.subscriptions, j, k);
    }
    forall j | 0 <= j < |t.refundCalls| ensures CallShown(t, j) {
      assert CallShown(s, j);
    }
  }

  lemma SubscriptionOpened(s: Store, y: Subscription, lo: Instant, hi: Instant)
    requires Inv(s, lo) && lo <= hi && SubscriptionFor(s, y.checkout).None? && y.checkout < |s.checkouts|
    requires var k := s.checkouts[y.checkout];
             k.business == y.business && k.payWith == y.payWith && (Native(k) ==> k.status == Paid)
    ensures Good(s, s.(subscriptions := s.subscriptions + [y]), lo, hi, None)
  {
    var t := s.(subscriptions := s.subscriptions + [y]);
    Unchanged(s, lo, hi, None);
    forall j | 0 <= j < |s.subscriptions| ensures SubscriptionKept(s.subscriptions, t.subscriptions, None, j) {
      assert SubscriptionKept(s.subscriptions, s.subscriptions, None, j);
    }
    forall j | 0 <= j < |t.subscriptions| ensures Linked(t, j) {
      assert j < |s.subscriptions| ==> Linked(s, j);
    }
    forall j, k | 0 <= j < k < |t.subscriptions| ensures OwnCheckout(t.subscriptions, j, k) {
      assert k < |s.subscriptions| ==> OwnCheckout(s.subscriptions, j, k);
      assert k == |s.subscriptions| ==> !ForCheckout(y.checkout)(s.subscriptions[j]);
    }
    forall j | 0 <= j < |t.refundCalls| ensures CallShown(t, j) {
      assert CallShown(s, j);
    }
  }

  // ---- Submitting a refund ----

  lemma Submission(s: Store, i: nat, first: bool, refundOk: bool, now: Instant, lo: Instant, hi: Instant)
    requires Inv(s, lo) && lo <= hi && i < |s.subscriptions|
    requires first ==> forall j | 0 <= j < |s.refundCalls| :: NotCalled(s.refundCalls, j, i)
    ensures Good(s, Submitted(s, i, first, refundOk, now), lo, hi, None)
  {
    var t := Submitted(s, i, first, refundOk, now);
    var u := WithSubscription(s, i, t.subscriptions[i]);
    SubscriptionChange(s, i, t.subscriptions[i], lo, hi, None);
    assert t.subscriptions == u.subscriptions;
    forall j | 0 <= j < |t.refundCalls| ensures CallShown(t, j) {
      assert j < |s.refundCalls| ==> CallShown(u, j);
    }
    forall j, k | 0 <= j < k < |t.refundCalls| ensures FirstCallsApart(t.refundCalls, j, k) {
      assert k < |s.refundCalls| ==> FirstCallsApart(s.refundCalls, j, k);
      assert first && k == |s.refundCalls| ==> NotCalled(s.refundCalls, j, i);
    }
    forall j | 0 <= j < |t.subscriptions| ensures Linked(t, j) {
      assert Linked(u, j);
    }
  }

  ghost predicate NotCalled(calls: seq<RefundCall>, j: nat, i: nat)
    requires j < |calls|
  {
    calls[j].subscription != i
  }
}
