/**
 Checkouts and subscriptions of the commercial billing, what the payment provider reports about
 them, and the lookups that correlate the two.  Rows are kept in creation order, so the latest
 row is the last one; a checkout is named by its position.
 */
module BillingDomain {
  import opened Calendar
  import opened Seqs

  // Microseconds since 0001-01-01 in UTC.
  type Instant = nat

  // An identifier issued by the provider.
  type Ref = nat

  const GUARANTEE := 7 * DAY
  const CHECKOUT_TTL := 15 * 60 * 1_000_000

  datatype PaymentMethod = CreditCard | Pix | PixAutomatic

  datatype PlanCode = Basic | Plus

  datatype CheckoutStatus = Creating | Open | Paid | CheckoutCanceled | Expired | Failed

  datatype Checkout = Checkout(
    business: nat, key: nat, plan: PlanCode, cycle: Cycle, payWith: PaymentMethod, amount: int,
    status: CheckoutStatus, expiresAt: Option<Instant>, paidAt: Option<Instant>,
    hosted: Option<Ref>, authorization: Option<Ref>, qrCode: Option<Ref>, hasPayload: bool,
    customer: Option<Ref>, recurrence: Option<Ref>, payment: Option<Ref>)

  datatype SubscriptionStatus = Active | PastDue | Canceled | Suspended

  datatype RefundStatus = NoRefund | Requested | ReconcileRequired | Refunded

  datatype Subscription = Subscription(
    checkout: nat, business: nat, plan: PlanCode, cycle: Cycle, payWith: PaymentMethod,
    status: SubscriptionStatus, accessUntil: Instant,
    authorization: Option<Ref>, recurrence: Option<Ref>, qrCode: Option<Ref>, customer: Option<Ref>,
    canceledAt: Option<Instant>, cancellationRequestedAt: Option<Instant>,
    refund: RefundStatus, refundRequestedAt: Option<Instant>, refundedAt: Option<Instant>)

  // One call of the provider's refund endpoint; first if made by the request itself, not by a resumption.
  datatype RefundCall = RefundCall(subscription: nat, first: bool)

  datatype Store = Store(
    checkouts: seq<Checkout>, subscriptions: seq<Subscription>,
    refundCalls: seq<RefundCall>, events: map<nat, bool>)

  /** Neither the refund calls nor the recorded events have changed. */
  predicate SameLog(s: Store, t: Store) {
    t.refundCalls == s.refundCalls && t.events == s.events
  }

  // ---- What the provider answers ----

  datatype PaymentState = Confirmed | Received | RefundedPayment | OtherState

  datatype ProviderPayment = ProviderPayment(
    id: Option<Ref>, state: PaymentState, cents: Option<int>, customer: Option<Ref>)

  datatype RefundState = Done | Pending | Cancelled | AwaitingAuthorization | OtherRefund

  datatype ProviderRefund = ProviderRefund(state: RefundState, cents: Option<int>)

  // A missing answer is a gateway error.
  datatype RefundGateway = RefundGateway(
    payments: Option<seq<ProviderPayment>>, recurrenceOk: bool, refundOk: bool,
    details: Option<seq<ProviderRefund>>)

  datatype CardOutcome = Rejected | Uncertain | Created(recurrence: Ref)

  datatype CardGateway = CardGateway(
    customer: Option<Ref>, outcome: CardOutcome, found: Option<Ref>, payments: Option<seq<ProviderPayment>>)

  datatype Preparation =
    | Prepared(id: Ref, customer: Ref, recurrence: Option<Ref>, hasPayload: bool, expiresAt: Option<Instant>)
    | TimedOut
    | Refused

  // ---- What the provider reports ----

  datatype Reference = Alovia(checkout: nat) | Bare(checkout: nat) | Unreadable

  datatype PaymentKind =
    | PaymentConfirmed | PaymentReceived | PaymentOverdue
    | RefundInProgress | PartiallyRefunded | RefundDenied
    | PaymentRefunded | ChargebackRequested | AwaitingChargebackReversal
    | OtherPayment

  datatype PaymentEvent = PaymentEvent(
    kind: PaymentKind, id: Option<Ref>, cents: Option<int>, customer: Option<Ref>,
    recurrence: Option<Ref>, session: Option<Ref>, qrCode: Option<Ref>, authorization: Option<Ref>,
    reference: Option<Reference>, contract: Option<Reference>, dueDate: Option<nat>)

  datatype AuthorizationKind =
    AuthorizationCreated | AuthorizationActivated | AuthorizationCancelled | AuthorizationExpired | AuthorizationRefused

  datatype AuthorizationEvent = AuthorizationEvent(
    kind: AuthorizationKind, id: Ref, contract: Option<nat>, recurrence: Option<Ref>, customer: Option<Ref>,
    cents: Option<int>, expiresAt: Option<Instant>, hasPayload: bool)

  datatype SubscriptionKind = SubscriptionInactivated | SubscriptionDeleted | SubscriptionCreated | SubscriptionUpdated

  datatype CheckoutKind = CheckoutCreatedEvent | CheckoutPaidEvent | CheckoutCanceledEvent | CheckoutExpiredEvent

  datatype Event =
    | CheckoutEvent(checkout: CheckoutKind, session: Ref)
    | SubscriptionEvent(subscription: SubscriptionKind, recurrence: Ref, active: bool)
    | Payment(payment: PaymentEvent)
    | Authorization(authorization: AuthorizationEvent)
    | Instruction

  // The clock readings of one step, in the order in which it takes them.
  datatype Readings = Readings(t1: Instant, t2: Instant, t3: Instant, t4: Instant, t5: Instant, t6: Instant)

  predicate Increasing(clock: Instant, r: Readings) {
    clock < r.t1 < r.t2 < r.t3 < r.t4 < r.t5 < r.t6
  }

  // ---- Lookups ----

  function ForCheckout(c: nat): Subscription -> bool {
    (x: Subscription) => x.checkout == c
  }

  function OfBusiness(business: nat): Subscription -> bool {
    (x: Subscription) => x.business == business
  }

  /** active_subscription_exists: overdue and suspended block at once, canceled counts until its end. */
  predicate Grants(x: Subscription, at: Instant) {
    x.status in {Active, Canceled} && x.accessUntil > at
  }

  function GrantingTo(business: nat, at: Instant): Subscription -> bool {
    (x: Subscription) => x.business == business && Grants(x, at)
  }

  function SubscriptionFor(s: Store, c: nat): Option<nat> {
    FirstAt(s.subscriptions, ForCheckout(c))
  }

  function LatestSubscription(s: Store, business: nat): Option<nat> {
    LastAt(s.subscriptions, OfBusiness(business))
  }

  function ActiveSubscription(s: Store, business: nat, at: Instant): Option<nat> {
    LastAt(s.subscriptions, GrantingTo(business, at))
  }

  function Expires(k: Checkout, at: Instant): bool {
    k.expiresAt.Some? && k.expiresAt.value <= at
  }

  function OrElse(known: Option<Instant>, now: Instant): Option<Instant> {
    if known.Some? then known else Some(now)
  }

  function Max(a: Instant, b: Instant): Instant { if a < b then b else a }

  function Min(a: Instant, b: Instant): Instant { if b < a then b else a }

  // ---- Reading the provider's refund report ----

  function Total(refunds: seq<ProviderRefund>, state: RefundState): int {
    if refunds == [] then 0
    else
      var last := refunds[|refunds| - 1];
      Total(refunds[..|refunds| - 1], state) + if last.state == state && last.cents.Some? then last.cents.value else 0
  }

  function Observed(refunds: seq<ProviderRefund>): bool {
    exists i | 0 <= i < |refunds| :: Counts(refunds[i])
  }

  predicate Counts(refund: ProviderRefund) {
    refund.state != OtherRefund && refund.cents.Some?
  }

  datatype Verdict = NoReport | Unknown | AllDone | Awaiting | AllPending | Partial | AllCancelled

  /** _provider_refund_status: how much of the amount the reported refunds account for. */
  function RefundVerdict(refunds: seq<ProviderRefund>, amount: int): Verdict {
    var done, pending := Total(refunds, Done), Total(refunds, Pending);
    if refunds == [] then NoReport
    else if !Observed(refunds) then Unknown
    else if done >= amount then AllDone
    else if Total(refunds, AwaitingAuthorization) >= amount then Awaiting
    else if done + pending >= amount && pending > 0 then AllPending
    else if done > 0 || pending > 0 then Partial
    else if Total(refunds, Cancelled) > 0 then AllCancelled
    else Unknown
  }

  // ---- Finding the initial payment ----

  predicate Matches(p: ProviderPayment, amount: int) {
    p.id.Some? && p.state != OtherState && p.cents == Some(amount)
  }

  function MatchingIds(payments: seq<ProviderPayment>, amount: int): seq<Ref> {
    if payments == [] then []
    else
      var last := payments[|payments| - 1];
      MatchingIds(payments[..|payments| - 1], amount) + if Matches(last, amount) then [last.id.value] else []
  }

  /** The one payment id that matches, if exactly one does. */
  function OnlyMatch(payments: seq<ProviderPayment>, amount: int): Option<Ref> {
    var ids := MatchingIds(payments, amount);
    if ids != [] && (forall i | 0 <= i < |ids| :: ids[i] == ids[0]) then Some(ids[0]) else None
  }

  /** _resolve_initial_payment_reference: only with a reference to ask for, and only an unambiguous answer. */
  function ResolvedPayment(k: Checkout, payments: Option<seq<ProviderPayment>>): Option<Ref> {
    if (k.payWith == Pix && k.qrCode.Some?) || k.hosted.Some? || k.recurrence.Some? then
      match payments
      case None => None
      case Some(found) => OnlyMatch(found, k.amount)
    else None
  }

  /** _cancel_provider_recurrence: whether it returns without a gateway error. */
  predicate RecurrenceCancels(x: Subscription, gatewayOk: bool) {
    match x.payWith
    case CreditCard => x.recurrence.Some? && gatewayOk
    case PixAutomatic => (x.authorization.Some? || x.recurrence.Some?) && gatewayOk
    case Pix => x.recurrence.Some? ==> gatewayOk
  }

  // ---- The seven-day guarantee ----

  /** The first paid checkout of a business: earliest payment, then earliest creation. */
  predicate IsFirstPaid(checkouts: seq<Checkout>, business: nat, c: nat) {
    && c < |checkouts| && checkouts[c].business == business && checkouts[c].paidAt.Some?
    && forall d | 0 <= d < |checkouts| :: NotPaidBefore(checkouts, business, d, c)
  }

  predicate NotPaidBefore(checkouts: seq<Checkout>, business: nat, d: nat, c: nat)
    requires d < |checkouts| && c < |checkouts| && checkouts[c].paidAt.Some?
  {
    checkouts[d].business == business && checkouts[d].paidAt.Some? ==>
      checkouts[c].paidAt.value < checkouts[d].paidAt.value
        || (checkouts[c].paidAt.value == checkouts[d].paidAt.value && c <= d)
  }

  predicate GuaranteeEligible(s: Store, i: nat, now: Instant)
    requires i < |s.subscriptions|
  {
    var x := s.subscriptions[i];
    && x.checkout < |s.checkouts|
    && IsFirstPaid(s.checkouts, x.business, x.checkout)
    && now <= s.checkouts[x.checkout].paidAt.value + GUARANTEE
    && x.refund != Refunded
  }
}
