/**
 What each billing call and each webhook does to the stored rows.  These functions are the
 specification of BillingService; the run theorems are proved about them.
 */
module BillingSteps {
  import opened BillingDomain
  import opened Calendar
  import opened Seqs

  function WithCheckout(s: Store, c: nat, k: Checkout): Store
    requires c < |s.checkouts|
  {
    s.(checkouts := s.checkouts[c := k])
  }

  function WithSubscription(s: Store, i: nat, x: Subscription): Store
    requires i < |s.subscriptions|
  {
    s.(subscriptions := s.subscriptions[i := x])
  }

  // ---- Payment and activation of a checkout ----

  function PaidAtFirst(k: Checkout, now: Instant): Checkout {
    k.(status := Paid, paidAt := OrElse(k.paidAt, now))
  }

  /** The first settled payment names the initial payment; a later one never replaces it. */
  function WithInitialPayment(k: Checkout, settled: bool, id: Option<Ref>): Checkout {
    if settled && id.Some? && k.payment.None? then k.(payment := id) else k
  }

  predicate CardReady(k: Checkout) {
    k.payWith == CreditCard && k.status == Paid && k.recurrence.Some?
  }

  predicate PixReady(k: Checkout) {
    k.payWith == Pix && k.status == Paid && (k.qrCode.Some? || k.recurrence.Some?)
  }

  function FirstPeriod(c: nat, k: Checkout, until: Instant): Subscription {
    Subscription(c, k.business, k.plan, k.cycle, k.payWith, Active, until,
                 if k.payWith == PixAutomatic then k.authorization else None,
                 k.recurrence,
                 if k.payWith == Pix then k.qrCode else None,
                 k.customer, None, None, NoRefund, None, None)
  }

  function Renewed(x: Subscription, k: Checkout, until: Instant): Subscription {
    x.(status := Active, customer := k.customer, accessUntil := Max(x.accessUntil, until),
    recurrence := if k.payWith == PixAutomatic && k.recurrence.None? then x.recurrence else k.recurrence,
    authorization := if k.payWith == PixAutomatic then k.authorization else x.authorization,
    qrCode := if k.payWith == Pix then k.qrCode else x.qrCode)
  }

  /** Reactivate the checkout's subscription, or open one unless the business already has access. */
  function Activated(s: Store, c: nat, now: Instant): (t: Store)
    requires c < |s.checkouts|
    ensures t.checkouts == s.checkouts
    ensures SameLog(s, t)
  {
    var k := s.checkouts[c];
    var until := CycleEnd(now, k.cycle);
    match SubscriptionFor(s, c)
    case Some(i) => WithSubscription(s, i, Renewed(s.subscriptions[i], k, until))
    case None =>
      if ActiveSubscription(s, k.business, now).Some? then s
      else s.(subscriptions := s.subscriptions + [FirstPeriod(c, k, until)])
  }

  function CardActivatedIfReady(s: Store, c: nat, now: Instant): (t: Store)
    requires c < |s.checkouts|
    ensures t.checkouts == s.checkouts
    ensures SameLog(s, t)
  {
    if CardReady(s.checkouts[c]) then Activated(s, c, now) else s
  }

  function PixActivatedIfReady(s: Store, c: nat, now: Instant): (t: Store)
    requires c < |s.checkouts|
    ensures t.checkouts == s.checkouts
    ensures SameLog(s, t)
  {
    if PixReady(s.checkouts[c]) then Activated(s, c, now) else s
  }

  // ---- Checkouts ----

  datatype CheckoutRequest = CheckoutRequest(
    business: nat, key: nat, plan: PlanCode, cycle: Cycle, payWith: PaymentMethod, amount: int,
    allowed: bool, whatsappReady: bool, native: bool)

  function WithKey(business: nat, key: nat): Checkout -> bool {
    (k: Checkout) => k.business == business && k.key == key
  }

  predicate Blocks(k: Checkout) {
    || k.status in {Creating, Open}
    || (k.payWith == PixAutomatic && k.paidAt.Some? && k.status != Paid)
    || (k.payWith == PixAutomatic && k.status == Expired && k.authorization.Some?)
    || (k.payWith == Pix && k.status == Expired && k.recurrence.Some?)
  }

  function Blocking(business: nat): Checkout -> bool {
    (k: Checkout) => k.business == business && Blocks(k)
  }

  datatype Clearing = Blocked | Cleared(status: CheckoutStatus)

  /** How a blocking checkout gives way to a new one: it expires, is retired, or stays. */
  function ClearingOf(k: Checkout, retireOk: bool, now: Instant): Clearing {
    if k.payWith == Pix && k.paidAt.None? && k.qrCode.Some? then
      if Expires(k, now) then Cleared(Expired) else Blocked
    else if k.payWith == Pix && k.paidAt.None? && k.recurrence.Some? then
      if retireOk then Cleared(CheckoutCanceled) else Blocked
    else if k.paidAt.None? && k.payWith == CreditCard && k.recurrence.None? && Expires(k, now) then
      Cleared(Expired)
    else Blocked
  }

  function NewCheckout(q: CheckoutRequest, now: Instant): Checkout {
    Checkout(q.business, q.key, q.plan, q.cycle, q.payWith, q.amount, Creating, Some(now + CHECKOUT_TTL), None,
             None, None, None, false, None, None, None)
  }

  function PreparedCheckout(k: Checkout, native: bool, made: Preparation): Checkout {
    if k.payWith == CreditCard && native then k.(status := Open)
    else
      match made
      case TimedOut => if k.payWith == PixAutomatic then k else k.(status := Failed)
      case Refused => k.(status := Failed)
      case Prepared(id, customer, recurrence, hasPayload, expiresAt) =>
        match k.payWith
        case CreditCard => k.(hosted := Some(id), status := Open)
        case Pix => k.(qrCode := Some(id), hasPayload := hasPayload, expiresAt := expiresAt, status := Open)
        case PixAutomatic =>
          k.(authorization := Some(id), customer := Some(customer), recurrence := recurrence,
          hasPayload := hasPayload, expiresAt := if expiresAt.Some? then expiresAt else k.expiresAt, status := Open)
  }

  function CheckoutCreated(s: Store, q: CheckoutRequest, retireOk: bool, made: Preparation, r: Readings): (t: Store)
    ensures SameLog(s, t)
  {
    if !q.allowed then s
    else
      match FirstAt(s.checkouts, WithKey(q.business, q.key))
      case Some(c) => KeyReused(s, c, q, r.t1)
      case None =>
        if ActiveSubscription(s, q.business, r.t1).Some? || !q.whatsappReady then s
        else
          var k := PreparedCheckout(NewCheckout(q, r.t3), q.native, made);
          match LastAt(s.checkouts, Blocking(q.business))
          case None => s.(checkouts := s.checkouts + [k])
          case Some(b) =>
            match ClearingOf(s.checkouts[b], retireOk, r.t2)
            case Blocked => s
            case Cleared(status) =>
              s.(checkouts := s.checkouts[b := s.checkouts[b].(status := status)] + [k])
  }

  /** A repeated key never opens a second checkout; at most an overdue Pix code expires. */
  function KeyReused(s: Store, c: nat, q: CheckoutRequest, now: Instant): (t: Store)
    requires c < |s.checkouts|
    ensures SameLog(s, t)
  {
    var k := s.checkouts[c];
    if k.plan == q.plan && k.cycle == q.cycle && k.payWith == q.payWith
       && k.payWith == Pix && k.paidAt.None? && k.status == Open && Expires(k, now)
    then WithCheckout(s, c, k.(status := Expired)) else s
  }

  function CheckoutPolled(s: Store, business: nat, c: nat, now: Instant): (t: Store)
    ensures SameLog(s, t)
  {
    if c >= |s.checkouts| || s.checkouts[c].business != business then s
    else
      var k := s.checkouts[c];
      if k.status == Open && Expires(k, now) && k.paidAt.None?
         && (k.payWith == CreditCard || (k.payWith == Pix && k.qrCode.Some?))
      then WithCheckout(s, c, k.(status := Expired)) else s
  }

  function CheckoutAbandoned(s: Store, business: nat, c: nat, gatewayOk: bool): (t: Store)
    ensures SameLog(s, t)
  {
    if c >= |s.checkouts| || s.checkouts[c].business != business then s
    else
      var k := s.checkouts[c];
      if k.payWith == CreditCard || k.status == Paid || k.paidAt.Some? || k.status in {CheckoutCanceled, Failed} then s
      else
        var asks := if k.payWith == PixAutomatic then k.authorization.Some? else k.qrCode.Some? || k.recurrence.Some?;
        if asks && !gatewayOk then s else WithCheckout(s, c, k.(status := CheckoutCanceled))
  }

  // ---- Native card payments ----

  predicate Settled(p: ProviderPayment, amount: int) {
    p.cents == Some(amount) && p.state in {Confirmed, Received}
  }

  function SettledFor(amount: int): ProviderPayment -> bool {
    (p: ProviderPayment) => Settled(p, amount)
  }

  /** _reconcile_native_payment: the first settled payment of the right amount pays the checkout. */
  function NativeReconciled(s: Store, c: nat, payments: Option<seq<ProviderPayment>>, r: Readings): (t: Store)
    requires c < |s.checkouts|
    ensures SameLog(s, t)
  {
    var k := s.checkouts[c];
    if k.recurrence.None? || k.status == Paid || payments.None? then s
    else
      match FirstAt(payments.value, SettledFor(k.amount))
      case None => s
      case Some(i) => NativePaid(s, c, payments.value[i], r)
  }

  function NativePaid(s: Store, c: nat, p: ProviderPayment, r: Readings): (t: Store)
    requires c < |s.checkouts|
    ensures SameLog(s, t)
  {
    var k := PaidAtFirst(WithInitialPayment(s.checkouts[c], true, p.id), r.t4);
    var paid := if p.customer.Some? then k.(customer := p.customer) else k;
    CardActivatedIfReady(WithCheckout(s, c, paid), c, r.t5)
  }

  /** Once the provider names the recurrence, the checkout is open and its payments are reconciled. */
  function NativeBound(s: Store, c: nat, recurrence: Ref, payments: Option<seq<ProviderPayment>>,
      r: Readings): (t: Store)
    requires c < |s.checkouts|
    ensures SameLog(s, t)
  {
    var k := s.checkouts[c].(recurrence := Some(recurrence), status := Open);
    NativeReconciled(WithCheckout(s, c, k), c, payments, r)
  }

  function CardPaid(s: Store, business: nat, c: nat, allowed: bool, g: CardGateway, r: Readings): (t: Store)
    ensures SameLog(s, t)
  {
    if !allowed || c >= |s.checkouts| || s.checkouts[c].business != business || s.checkouts[c].payWith != CreditCard
        then s
    else
      var k := s.checkouts[c];
      var active := ActiveSubscription(s, business, r.t1);
      if k.hosted.Some? || k.status == Paid then s
      else if active.Some? && s.subscriptions[active.value].checkout != c then s
      else if Expires(k, r.t2) then
        if k.status == Creating then s else WithCheckout(s, c, k.(status := Expired))
      else if k.status in {CheckoutCanceled, Expired, Failed} || k.recurrence.Some? then s
      else if k.status == Creating then
        if g.found.Some? then NativeBound(s, c, g.found.value, g.payments, r) else s
      else if g.customer.None? then s
      else CardCharged(WithCheckout(s, c, k.(customer := g.customer, status := Creating)), c, g, r)
  }

  function CardCharged(s: Store, c: nat, g: CardGateway, r: Readings): (t: Store)
    requires c < |s.checkouts|
    ensures SameLog(s, t)
  {
    match g.outcome
    case Rejected => WithCheckout(s, c, s.checkouts[c].(status := Open))
    case Created(recurrence) => NativeBound(s, c, recurrence, g.payments, r)
    case Uncertain => if g.found.Some? then NativeBound(s, c, g.found.value, g.payments, r) else s
  }

  // ---- Refunds ----

  /** _reconcile_provider_refund: the provider's word on a refund already asked for. */
  function RefundReconciled(s: Store, i: nat, details: Option<seq<ProviderRefund>>, now: Instant): (t: Store)
    requires i < |s.subscriptions|
    ensures SameLog(s, t)
  {
    var x := s.subscriptions[i];
    if x.refund !in {Requested, ReconcileRequired} || x.checkout >= |s.checkouts|
       || s.checkouts[x.checkout].payment.None? || details.None?
    then s
    else
      match RefundVerdict(details.value, s.checkouts[x.checkout].amount)
      case AllDone => WithSubscription(s, i, FullyRefunded(x, now))
      case Awaiting => WithSubscription(s, i, x.(refund := Requested))
      case AllPending => WithSubscription(s, i, x.(refund := Requested))
      case AllCancelled => WithSubscription(s, i, x.(refund := ReconcileRequired))
      case Partial => WithSubscription(s, i, x.(refund := ReconcileRequired))
      case NoReport => s
      case Unknown => s
  }

  function FullyRefunded(x: Subscription, now: Instant): Subscription {
    x.(refund := Refunded, refundedAt := OrElse(x.refundedAt, now),
    status := Suspended, accessUntil := Min(x.accessUntil, now))
  }

  /** The initial payment, looked up when it is not known yet. */
  function WithResolvedPayment(s: Store, c: nat, payments: Option<seq<ProviderPayment>>): (t: Store)
    requires c < |s.checkouts|
    ensures |t.checkouts| == |s.checkouts| && t.subscriptions == s.subscriptions
    ensures SameLog(s, t)
  {
    var k := s.checkouts[c];
    if k.payment.Some? then s else WithCheckout(s, c, k.(payment := ResolvedPayment(k, payments)))
  }

  /** Submission: the subscription is canceled, then the provider is asked, once, to refund. */
  function Submitted(s: Store, i: nat, first: bool, refundOk: bool, now: Instant): (t: Store)
    requires i < |s.subscriptions|
    ensures t.events == s.events
  {
    var x := s.subscriptions[i];
    WithSubscription(s, i, x.(status := Canceled, canceledAt := OrElse(x.canceledAt, now),
                     refund := if refundOk then Requested else ReconcileRequired))
    .(refundCalls := s.refundCalls + [RefundCall(i, first)])
  }

  /** _resume_refund_before_provider_submission. */
  function RefundResumed(s: Store, i: nat, g: RefundGateway, now: Instant): (t: Store)
    requires i < |s.subscriptions|
    ensures |t.subscriptions| == |s.subscriptions|
    ensures t.events == s.events
  {
    var x := s.subscriptions[i];
    if x.checkout >= |s.checkouts| then s
    else
      var t := WithResolvedPayment(s, x.checkout, g.payments);
      if t.checkouts[x.checkout].payment.None? || !RecurrenceCancels(x, g.recurrenceOk) then t
      else Submitted(t, i, false, g.refundOk, now)
  }

  predicate Resumable(x: Subscription) {
    x.refund == ReconcileRequired && x.status !in {Canceled, Suspended}
  }

  /** An interrupted refund is resumed, then the provider's word is taken. */
  function ResumedThenReconciled(s: Store, i: nat, g: RefundGateway, r: Readings): (t: Store)
    requires i < |s.subscriptions|
    ensures t.events == s.events
  {
    var t := if Resumable(s.subscriptions[i]) then RefundResumed(s, i, g, r.t1) else s;
    RefundReconciled(t, i, g.details, r.t2)
  }

  function StatusRead(s: Store, business: nat, g: RefundGateway, r: Readings): (t: Store)
    ensures t.events == s.events
  {
    match LatestSubscription(s, business)
    case None => s
    case Some(i) => ResumedThenReconciled(s, i, g, r)
  }

  function RefundAsked(s: Store, business: nat, g: RefundGateway, r: Readings): (t: Store)
    ensures t.events == s.events
  {
    match LatestSubscription(s, business)
    case None => s
    case Some(i) =>
      if s.subscriptions[i].refund == NoRefund then RefundFirstAsked(s, i, g, r)
      else ResumedThenReconciled(s, i, g, r)
  }

  /** The first request: guarded by the guarantee, recorded before any provider call. */
  function RefundFirstAsked(s: Store, i: nat, g: RefundGateway, r: Readings): (t: Store)
    requires i < |s.subscriptions|
    ensures t.events == s.events
  {
    var x := s.subscriptions[i];
    if !GuaranteeEligible(s, i, r.t1) || x.status == Suspended then s
    else
      var t := WithResolvedPayment(s, x.checkout, g.payments);
      var asked := x.(cancellationRequestedAt := OrElse(x.cancellationRequestedAt, r.t2),
                      refundRequestedAt := OrElse(x.refundRequestedAt, r.t2));
      if t.checkouts[x.checkout].payment.None? || !RecurrenceCancels(x, g.recurrenceOk) then
        RefundReconciled(WithSubscription(t, i, asked.(refund := ReconcileRequired)), i, g.details, r.t4)
      else
        RefundReconciled(Submitted(WithSubscription(t, i, asked.(refund := Requested)), i, true, g.refundOk, r.t3),
                         i, g.details, r.t4)
  }

  // ---- Cancellation and upgrade ----

  function CancellationAsked(s: Store, business: nat, g: RefundGateway, r: Readings): (t: Store)
    ensures SameLog(s, t)
  {
    match LatestSubscription(s, business)
    case None => s
    case Some(i) =>
      var x := s.subscriptions[i];
      if x.status in {Canceled, Suspended} then RefundReconciled(s, i, g.details, r.t3)
      else
        var asked := x.(cancellationRequestedAt := OrElse(x.cancellationRequestedAt, r.t1));
        if x.payWith == Pix && x.recurrence.None? then
          RefundReconciled(WithSubscription(s, i, asked.(status := Canceled, canceledAt := Some(r.t1))), i, g.details,
              r.t3)
        else if !RecurrenceCancels(x, g.recurrenceOk) then WithSubscription(s, i, asked)
        else
          var canceled := asked.(status := Canceled, canceledAt := OrElse(x.canceledAt, r.t2));
          RefundReconciled(WithSubscription(s, i, canceled), i, g.details, r.t3)
  }

  predicate Upgradable(x: Subscription, plusEnabled: bool) {
    && x.status == Active && x.plan == Basic && x.cycle == Monthly
    && x.refund == NoRefund && x.cancellationRequestedAt.None?
    && x.payWith in {CreditCard, PixAutomatic} && x.recurrence.Some? && plusEnabled
  }

  function UpgradeAsked(s: Store, business: nat, plusEnabled: bool, gatewayOk: bool, g: RefundGateway,
      r: Readings): (t: Store)
    ensures SameLog(s, t)
  {
    match LatestSubscription(s, business)
    case None => s
    case Some(i) =>
      var x := s.subscriptions[i];
      if x.status == Active && x.plan == Plus then RefundReconciled(s, i, g.details, r.t1)
      else if Upgradable(x, plusEnabled) && gatewayOk then
        RefundReconciled(WithSubscription(s, i, x.(plan := Plus)), i, g.details, r.t1)
      else s
  }

  // ---- Webhooks ----

  function WithHosted(session: Ref): Checkout -> bool {
    (k: Checkout) => k.hosted == Some(session)
  }

  function CheckoutEventApplied(s: Store, kind: CheckoutKind, session: Ref, r: Readings): (t: Store)
    ensures SameLog(s, t)
  {
    match FirstAt(s.checkouts, WithHosted(session))
    case None => s
    case Some(c) =>
      var k := s.checkouts[c];
      match kind
      case CheckoutCreatedEvent => WithCheckout(s, c, k.(status := Open))
      case CheckoutCanceledEvent => WithCheckout(s, c, k.(status := CheckoutCanceled))
      case CheckoutExpiredEvent => WithCheckout(s, c, k.(status := Expired))
      case CheckoutPaidEvent =>
        if k.payWith != CreditCard then s
        else
          var paid := if k.status == Paid then k else PaidAtFirst(k, r.t1);
          CardActivatedIfReady(WithCheckout(s, c, paid), c, r.t2)
  }

  function WithRecurrence(recurrence: Ref): Subscription -> bool {
    (x: Subscription) => x.recurrence == Some(recurrence)
  }

  function SubscriptionEventApplied(s: Store, kind: SubscriptionKind, recurrence: Ref, active: bool,
      now: Instant): (t: Store)
    ensures SameLog(s, t)
  {
    match FirstAt(s.subscriptions, WithRecurrence(recurrence))
    case None => s
    case Some(i) =>
      var x := s.subscriptions[i];
      if kind in {SubscriptionInactivated, SubscriptionDeleted} then
        WithSubscription(s, i, x.(status := Canceled, canceledAt := Some(now)))
      else if active && x.status !in {Suspended, PastDue} then WithSubscription(s, i, x.(status := Active))
      else s
  }

  function ByAuthorization(id: Ref): Checkout -> bool {
    (k: Checkout) => k.authorization == Some(id) && k.payWith == PixAutomatic
  }

  function AuthorizedCheckout(s: Store, e: AuthorizationEvent): (found: Option<nat>)
    ensures found.Some? ==> found.value < |s.checkouts| && s.checkouts[found.value].payWith == PixAutomatic
  {
    match FirstAt(s.checkouts, ByAuthorization(e.id))
    case Some(c) => Some(c)
    case None =>
      if e.contract.Some? && e.contract.value < |s.checkouts| && s.checkouts[e.contract.value].payWith == PixAutomatic
      then e.contract else None
  }

  datatype Binding = Conflict(row: Checkout) | Bound(row: Checkout)

  /** The references an authorization event fixes; a conflicting one stops it half-way, keeping those before. */
  function AuthorizationBound(k: Checkout, e: AuthorizationEvent): Binding {
    if k.authorization.Some? && k.authorization != Some(e.id) then Conflict(k)
    else
      var k1 := k.(authorization := Some(e.id));
      if e.recurrence.Some? && k1.recurrence.Some? && k1.recurrence != e.recurrence then Conflict(k1)
      else
        var k2 := if e.recurrence.Some? then k1.(recurrence := e.recurrence) else k1;
        if e.customer.Some? && k2.customer.Some? && k2.customer != e.customer then Conflict(k2)
        else
          var k3 := if e.customer.Some? then k2.(customer := e.customer) else k2;
          var k4 := if e.expiresAt.Some? then k3.(expiresAt := e.expiresAt) else k3;
          Bound(if e.hasPayload then k4.(hasPayload := true) else k4)
  }

  function AuthorizationApplied(s: Store, e: AuthorizationEvent, r: Readings): (t: Store)
    ensures SameLog(s, t)
  {
    match AuthorizedCheckout(s, e)
    case None => s
    case Some(c) =>
      match AuthorizationBound(s.checkouts[c], e)
      case Conflict(k) => WithCheckout(s, c, k)
      case Bound(k) => AuthorizationMoved(s, c, k, e, r)
  }

  function AuthorizationMoved(s: Store, c: nat, k: Checkout, e: AuthorizationEvent, r: Readings): (t: Store)
    requires c < |s.checkouts|
    ensures SameLog(s, t)
  {
    match e.kind
    case AuthorizationActivated =>
      if e.cents != Some(k.amount) then WithCheckout(s, c, k.(status := Failed))
      else Activated(WithCheckout(s, c, PaidAtFirst(k, r.t1)), c, r.t2)
    case AuthorizationCreated => WithCheckout(s, c, k.(status := Open))
    case AuthorizationCancelled => Closed(WithCheckout(s, c, Ended(k, CheckoutCanceled)), c, r.t1)
    case AuthorizationExpired => Closed(WithCheckout(s, c, Ended(k, Expired)), c, r.t1)
    case AuthorizationRefused => WithCheckout(s, c, Ended(k, Failed))
  }

  function Ended(k: Checkout, status: CheckoutStatus): Checkout {
    if k.status == Paid then k else k.(status := status)
  }

  function Closed(s: Store, c: nat, now: Instant): (t: Store)
    ensures SameLog(s, t)
  {
    match SubscriptionFor(s, c)
    case None => s
    case Some(i) => WithSubscription(s, i, s.subscriptions[i].(status := Canceled, canceledAt := Some(now)))
  }

  // A payment event runs through four stages.

  predicate Confirms(e: PaymentEvent) {
    e.kind in {PaymentConfirmed, PaymentReceived}
  }

  function PixByQrCode(id: Ref): Checkout -> bool {
    (k: Checkout) => k.qrCode == Some(id) && k.payWith == Pix
  }

  function ByRecurrence(id: Ref, payWith: PaymentMethod): Checkout -> bool {
    (k: Checkout) => k.recurrence == Some(id) && k.payWith == payWith
  }

  function CommonPixCheckout(s: Store, e: PaymentEvent): (found: Option<nat>)
    ensures found.Some? ==> found.value < |s.checkouts|
  {
    if !Confirms(e) then None
    else if e.qrCode.Some? then FirstAt(s.checkouts, PixByQrCode(e.qrCode.value))
    else if e.recurrence.Some? then FirstAt(s.checkouts, ByRecurrence(e.recurrence.value, Pix))
    else None
  }

  predicate PaysCommonPix(k: Checkout, c: nat, e: PaymentEvent) {
    e.cents == Some(k.amount) && (e.reference.Some? ==> e.reference.value == Alovia(c))
  }

  /** Stage one: a common Pix payment pays and activates its checkout. */
  function CommonPixApplied(s: Store, e: PaymentEvent, r: Readings): (t: Store)
    ensures |t.checkouts| == |s.checkouts|
    ensures SameLog(s, t)
  {
    match CommonPixCheckout(s, e)
    case None => s
    case Some(c) =>
      var k := s.checkouts[c];
      if !PaysCommonPix(k, c, e) then s
      else
        var known := if e.customer.Some? then k.(customer := e.customer) else k;
        var paid := PaidAtFirst(WithInitialPayment(known, true, e.id), r.t1);
        PixActivatedIfReady(WithCheckout(s, c, paid), c, r.t2)
  }

  function NamedCheckout(s: Store, reference: Option<Reference>): (found: Option<nat>)
    ensures found.Some? ==> found.value < |s.checkouts|
  {
    match reference
    case Some(Alovia(c)) => if c < |s.checkouts| && s.checkouts[c].payWith == PixAutomatic then Some(c) else None
    case Some(Bare(c)) => if c < |s.checkouts| && s.checkouts[c].payWith == PixAutomatic then Some(c) else None
    case Some(Unreadable) => None
    case None => None
  }

  function PixAutomaticCheckout(s: Store, e: PaymentEvent): (found: Option<nat>)
    ensures found.Some? ==> found.value < |s.checkouts|
  {
    if !Confirms(e) then None
    else if e.authorization.Some? then FirstAt(s.checkouts, ByAuthorization(e.authorization.value))
    else if e.recurrence.Some? then FirstAt(s.checkouts, ByRecurrence(e.recurrence.value, PixAutomatic))
    else NamedCheckout(s, if e.reference.Some? then e.reference else e.contract)
  }

  /** Stage two: a Pix Automatic payment stamps its checkout, which stays unpaid until authorized. */
  function PixInitialApplied(s: Store, e: PaymentEvent, r: Readings): (t: Store)
    ensures |t.checkouts| == |s.checkouts|
    ensures SameLog(s, t)
  {
    match PixAutomaticCheckout(s, e)
    case None => s
    case Some(c) =>
      var k := s.checkouts[c];
      if e.cents != Some(k.amount) then s
      else
        var known := if k.paidAt.None? then WithInitialPayment(k, true, e.id) else k;
        WithCheckout(s, c, known.(paidAt := OrElse(k.paidAt, r.t3)))
  }

  function CardBySession(session: Ref): Checkout -> bool {
    (k: Checkout) => k.hosted == Some(session) && k.payWith == CreditCard
  }

  function CardCheckout(s: Store, e: PaymentEvent): (found: Option<nat>)
    ensures found.Some? ==> found.value < |s.checkouts|
  {
    if e.recurrence.None? then None
    else
      match (if e.session.Some? then FirstAt(s.checkouts, CardBySession(e.session.value)) else None)
      case Some(c) => Some(c)
      case None => FirstAt(s.checkouts, ByRecurrence(e.recurrence.value, CreditCard))
  }

  function CardReferences(k: Checkout, e: PaymentEvent): Checkout {
    var bound := k.(recurrence := e.recurrence, customer := if e.customer.Some? then e.customer else k.customer);
    if e.session.Some? || k.paidAt.None? then WithInitialPayment(bound, Confirms(e), e.id) else bound
  }

  /** Stage three: a card payment binds its checkout, pays a native one, and activates a paid one. */
  function CardApplied(s: Store, e: PaymentEvent, r: Readings): (t: Store)
    ensures |t.checkouts| == |s.checkouts|
    ensures SameLog(s, t)
  {
    match CardCheckout(s, e)
    case None => s
    case Some(c) =>
      var k := s.checkouts[c];
      if e.cents != Some(k.amount) then s
      else
        var bound := CardReferences(k, e);
        var paid := if bound.hosted.None? && Confirms(e) then PaidAtFirst(bound, r.t4) else bound;
        CardActivatedIfReady(WithCheckout(s, c, paid), c, r.t5)
  }

  function ByPayment(id: Ref): Checkout -> bool {
    (k: Checkout) => k.payment == Some(id)
  }

  function SubscribedByQrCode(id: Ref): Subscription -> bool {
    (x: Subscription) => x.qrCode == Some(id)
  }

  function SubscribedByAuthorization(id: Ref): Subscription -> bool {
    (x: Subscription) => x.authorization == Some(id)
  }

  function PixAutomaticCustomer(id: Ref): Subscription -> bool {
    (x: Subscription) => x.customer == Some(id) && x.payWith == PixAutomatic
  }

  function OrLook(found: Option<nat>, next: Option<nat>): Option<nat> {
    if found.Some? then found else next
  }

  function SubscriptionPaidBy(s: Store, id: Option<Ref>): (found: Option<nat>)
    ensures found.Some? ==> found.value < |s.subscriptions|
  {
    if id.None? then None
    else
      match FirstAt(s.checkouts, ByPayment(id.value))
      case None => None
      case Some(c) => SubscriptionFor(s, c)
  }

  /** _subscription_for_payment: by payment, recurrence, code, authorization, and only then by customer. */
  function PaymentSubscription(s: Store, e: PaymentEvent): (found: Option<nat>)
    ensures found.Some? ==> found.value < |s.subscriptions|
  {
    var byPayment := SubscriptionPaidBy(s, e.id);
    var byRecurrence := if e.recurrence.Some? then FirstAt(s.subscriptions, WithRecurrence(e.recurrence.value))
        else None;
    var byQrCode := if e.qrCode.Some? then FirstAt(s.subscriptions, SubscribedByQrCode(e.qrCode.value)) else None;
    var last :=
      if e.authorization.Some? then FirstAt(s.subscriptions, SubscribedByAuthorization(e.authorization.value))
      else if e.customer.Some? then LastAt(s.subscriptions, PixAutomaticCustomer(e.customer.value))
      else None;
    OrLook(byPayment, OrLook(byRecurrence, OrLook(byQrCode, last)))
  }

  predicate PaysFor(s: Store, x: Subscription, id: Option<Ref>) {
    x.checkout < |s.checkouts| && id.Some? && s.checkouts[x.checkout].payment == id
  }

  /** What the event does to the subscription it is for; `price` is the catalogue's amount for its plan and cycle. */
  function PaidThrough(s: Store, x: Subscription, e: PaymentEvent, price: int, now: Instant): Subscription {
    match e.kind
    case PaymentConfirmed => Extended(x, e, price, now)
    case PaymentReceived => Extended(x, e, price, now)
    case PaymentOverdue => x.(status := PastDue)
    case RefundInProgress => if PaysFor(s, x, e.id) then x.(refund := Requested) else x
    case PartiallyRefunded => if PaysFor(s, x, e.id) then x.(refund := ReconcileRequired) else x
    case RefundDenied => if PaysFor(s, x, e.id) then x.(refund := ReconcileRequired) else x
    case PaymentRefunded => if PaysFor(s, x, e.id) then FullyRefunded(x, now) else Withdrawn(x, now)
    case ChargebackRequested => Withdrawn(x, now)
    case AwaitingChargebackReversal => Withdrawn(x, now)
    case OtherPayment => x
  }

  /** A payment of the plan's price extends access by one cycle from its due date, and never shortens it. */
  function Extended(x: Subscription, e: PaymentEvent, price: int, now: Instant): Subscription {
    if e.cents != Some(price) then x
    else
      var anchor := if e.dueDate.Some? then e.dueDate.value * DAY else now;
      x.(status := Active, accessUntil := Max(x.accessUntil, CycleEnd(anchor, x.cycle)))
  }

  function Withdrawn(x: Subscription, now: Instant): Subscription {
    x.(status := Suspended, accessUntil := Min(x.accessUntil, now))
  }

  /** Stage four: the subscription the payment is for. */
  function SubscriptionPaymentApplied(s: Store, e: PaymentEvent, prices: Prices, now: Instant): (t: Store)
    ensures SameLog(s, t)
  {
    match PaymentSubscription(s, e)
    case None => s
    case Some(i) =>
      var x := s.subscriptions[i];
      WithSubscription(s, i, PaidThrough(s, x, e, prices(x.plan, x.cycle), now))
  }

  type Prices = (PlanCode, Cycle) -> int

  function PaymentApplied(s: Store, e: PaymentEvent, prices: Prices, r: Readings): (t: Store)
    ensures SameLog(s, t)
  {
    var s1 := CommonPixApplied(s, e, r);
    var s2 := PixInitialApplied(s1, e, r);
    var s3 := CardApplied(s2, e, r);
    SubscriptionPaymentApplied(s3, e, prices, r.t6)
  }

  function EventApplied(s: Store, e: Event, prices: Prices, r: Readings): (t: Store)
    ensures SameLog(s, t)
  {
    match e
    case CheckoutEvent(kind, session) => CheckoutEventApplied(s, kind, session, r)
    case SubscriptionEvent(kind, recurrence, active) => SubscriptionEventApplied(s, kind, recurrence, active, r.t1)
    case Payment(payment) => PaymentApplied(s, payment, prices, r)
    case Authorization(authorization) => AuthorizationApplied(s, authorization, r)
    case Instruction => s
  }

  /** The delivery is recorded before anything else. */
  function Seen(s: Store, id: nat): Store {
    if id in s.events then s else s.(events := s.events[id := false])
  }

  predicate IsProcessed(s: Store, id: nat) {
    id in s.events && s.events[id]
  }

  /** A delivery that dies before its event is marked: it is seen, applied or not, and will be delivered again. */
  function WebhookInterrupted(s: Store, id: nat, e: Event, applied: bool, prices: Prices, r: Readings): Store {
    if IsProcessed(s, id) then s
    else if applied then EventApplied(Seen(s, id), e, prices, r)
    else Seen(s, id)
  }

  /** An event is applied once: from then on its identifier makes it a no-op. */
  function WebhookProcessed(s: Store, id: nat, e: Event, prices: Prices, r: Readings): Store {
    if IsProcessed(s, id) then s
    else
      var t := EventApplied(Seen(s, id), e, prices, r);
      t.(events := t.events[id := true])
  }
}
