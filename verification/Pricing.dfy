/** Price, duration and travel reservation of a request: the base booking plan. */
module Pricing {
  import opened BookingDomain
  import opened Seqs

  /** Decimal.quantize to cents under the default context: ties go to the even cent. */
  function RoundHalfEven(x: real): (cents: int)
  {
    var f := x.Floor;
    var rest := x - f as real;
    if rest < 0.5 then f
    else if rest > 0.5 then f + 1
    else if f % 2 == 0 then f
    else f + 1
  }

  /** Rounding is off by at most half a cent, and exactly half only on the way to an even cent. */
  lemma RoundHalfEvenIsNearest(x: real)
    ensures -0.5 <= RoundHalfEven(x) as real - x <= 0.5
    ensures (RoundHalfEven(x) as real - x == 0.5 || RoundHalfEven(x) as real - x == -0.5)
              ==> RoundHalfEven(x) % 2 == 0
  {
  }

  lemma RoundHalfEvenKeepsOrder(x: real, y: real)
    requires x <= y
    ensures RoundHalfEven(x) <= RoundHalfEven(y)
  {
    assert x.Floor <= y.Floor;
    if x.Floor < y.Floor {
      assert RoundHalfEven(x) <= x.Floor + 1;
    }
  }

  /** A measured quantity times a price in cents, rounded to cents. */
  function Charge(quantity: real, unitPrice: nat): int {
    RoundHalfEven(Product(quantity, unitPrice as real))
  }

  function Product(x: real, y: real): real { x * y }

  function HumanQuote(c: ServiceConfiguration, reason: string): ServiceEstimate {
    ServiceEstimate(c.duration + c.durationMargin, None, c.pricingType, true, [HumanQuoteRule(reason)])
  }

  // The running totals of an estimate.
  datatype Tally = Tally(duration: pos, price: Option<int>, rules: seq<Rule>)

  function ChargeUnits(c: ServiceConfiguration, quantity: pos): Tally {
    var additional: nat := if quantity > c.includedQuantity then quantity - c.includedQuantity else 0;
    var duration := c.duration + additional * c.additionalUnitDuration;
    if additional == 0 then
      Tally(duration, c.basePrice, [BaseDuration])
    else if c.basePrice.None? then
      Tally(duration, None, [BaseDuration, AdditionalUnits])
    else
      var charge := additional * OrZero(c.additionalUnitPrice);
      Tally(duration, Some(c.basePrice.value + charge),
            [BaseDuration, AdditionalUnits, AdditionalUnitsCount(additional), AdditionalUnitsPrice(charge)])
  }

  /** Unknown access counts as difficult under the conservative policy. */
  predicate DifficultAccessAssumed(c: ServiceConfiguration, req: Requirements) {
    c.considersDifficultAccess
    && (req.access.Difficult? || (req.access.UnknownAccess? && c.unknownAccessPolicy.Conservative?))
  }

  function AccessRules(c: ServiceConfiguration, req: Requirements, priced: bool): seq<Rule> {
    var noted :=
      if !c.considersDifficultAccess || !req.access.UnknownAccess? then []
      else if c.unknownAccessPolicy.Conservative? then [UnknownAccessConservative]
      else [UnknownAccessStandard];
    if !DifficultAccessAssumed(c, req) then noted
    else if priced && OrZero(c.difficultAccessPrice) > 0 then
      noted + [DifficultAccessPrice(OrZero(c.difficultAccessPrice)), DifficultAccess]
    else noted + [DifficultAccess]
  }

  /** The access charge; a request that must go to a human never gets here. */
  function ChargeAccess(c: ServiceConfiguration, req: Requirements, t: Tally): Tally {
    var rules := t.rules + AccessRules(c, req, t.price.Some?);
    if !DifficultAccessAssumed(c, req) then t.(rules := rules)
    else
      Tally(
        t.duration + c.difficultAccessDuration,
        if t.price.Some? then Some(t.price.value + OrZero(c.difficultAccessPrice)) else None,
        rules)
  }

  function Estimate(c: ServiceConfiguration, req: Requirements): ServiceEstimate {
    if c.requiresQuantity && req.quantity.None? then
      HumanQuote(c, "quantity_required")
    else if c.considersDifficultAccess && req.access.UnknownAccess? && c.unknownAccessPolicy.AskHuman? then
      HumanQuote(c, "unknown_access")
    else
      var quantity := if req.quantity.Some? then req.quantity.value else c.includedQuantity;
      var t := ChargeAccess(c, req, ChargeUnits(c, quantity));
      if c.requiresAddress && req.address.None? then
        HumanQuote(c, "address_required")
      else if !c.automaticBooking || c.pricingType.HumanQuoted? || t.price.None? then
        HumanQuote(c, "human_quote_configuration")
      else
        ServiceEstimate(t.duration + c.durationMargin, t.price, c.pricingType, false,
                        t.rules + if c.durationMargin > 0 then [DurationMargin] else [])
  }

  function OrZero(x: Option<nat>): nat {
    if x.Some? then x.value else 0
  }

  function ChargeQuantity(u: PricingUnit, measured: real, explicit: Option<real>): Option<real> {
    match u
    case FlatValue => Some(1.0)
    case Metre => if measured > 0.0 then Some(measured) else None
    case _ => if explicit.Some? && explicit.value > 0.0 then explicit else None
  }

  function WithCatalogAdditions(
    svc: Service, item: Option<CatalogItem>, req: Requirements, e: ServiceEstimate): ServiceEstimate
  {
    if !svc.asksTubingLength || svc.includedTubing.None? then e
    else if req.tubingMeters.None? then
      if e.requiresHumanQuote then e
      else e.(pricingType := if e.price.Some? then Estimated else e.pricingType,
              rules := e.rules + [TubingLengthUnknown])
    else
      var extra := req.tubingMeters.value - svc.includedTubing.value;
      if extra <= 0.0 then e
      else if item.None? || item.value.price.None? then
        if e.requiresHumanQuote then e
        else e.(price := None, pricingType := Estimated,
                rules := e.rules + [ExtraTubingMeters(extra), ExtraTubingPriceUnconfigured])
      else
        var u := item.value.pricingUnit;
        var quantity := ChargeQuantity(u, extra, req.explicitTubingQuantity);
        if e.price.None? then
          e.(requiresHumanQuote := true, rules := e.rules + [BasePriceRequiredForExtraTubing])
        else if quantity.None? then
          e.(pricingType := Estimated, requiresHumanQuote := false,
             rules := e.rules + [ExtraTubingMeters(extra), ExtraTubingUnit(u), ExtraTubingQuantityUnconfirmed(u)])
        else
          var extraPrice := Charge(quantity.value, item.value.price.value);
          e.(price := Some(e.price.value + extraPrice), pricingType := Estimated,
             rules := e.rules + [ExtraTubingMeters(extra), ExtraTubingUnit(u),
                                 ExtraTubingChargeQuantity(quantity.value), ExtraTubingPrice(extraPrice)])
  }

  function ExcessKm(b: Business, km: real): real {
    if km - b.includedKm > 0.0 then km - b.includedKm else 0.0
  }

  function WithDistanceFee(b: Business, travel: TravelEstimate, e: ServiceEstimate): ServiceEstimate {
    if travel.distanceKm.None? then e
    else
      var km := travel.distanceKm.value;
      var excess := ExcessKm(b, km);
      if excess > 0.0 && b.feePerKm > 0 && e.price.Some? then
        var fee := Charge(excess, b.feePerKm);
        e.(price := Some(e.price.value + fee),
           pricingType := if e.pricingType.Fixed? then Estimated else e.pricingType,
           rules := e.rules + [ServiceDistance(km), ServiceDistanceExcess(excess), ServiceDistanceFee(fee)])
      else e
  }

  function Min(a: int, b: int): int { if a <= b then a else b }
  function Max(a: int, b: int): int { if a >= b then a else b }

  datatype Buffers = Buffers(preparation: nat, finishing: nat, interval: nat)

  /** Blank settings are automatic, and a plan with any automatic buffer is cut back to 50 minutes. */
  function OperationalBuffers(b: Business, req: Requirements, e: ServiceEstimate): (r: Buffers)
  {
    var quantity := if req.quantity.Some? then req.quantity.value else 1;
    var preparation := if b.preparation.Some? then b.preparation.value
                       else Min(25, 8 + Min(12, (quantity - 1) * 4) + if req.access.Difficult? then 8 else 0);
    var finishing := if b.finishing.Some? then b.finishing.value else if e.duration < 180 then 8 else 12;
    var interval := if b.intervalBetweenServices.Some? then b.intervalBetweenServices.value
                    else if e.duration < 120 then 5 else 10;
    var total := preparation + finishing + interval;
    var automatic := b.preparation.None? || b.finishing.None? || b.intervalBetweenServices.None?;
    if !automatic || total <= 50 then Buffers(preparation, finishing, interval)
    else
      var overflow := total - 50;
      var cut := if b.intervalBetweenServices.None? then Min(interval, overflow) else 0;
      var interval, overflow := interval - cut, overflow - cut;
      var cut := if overflow > 0 && b.finishing.None? then Min(finishing, overflow) else 0;
      var finishing, overflow := finishing - cut, overflow - cut;
      var preparation := if overflow > 0 && b.preparation.None? then Max(0, preparation - overflow) else preparation;
      Buffers(preparation, finishing, interval)
  }

  /** What a window reserves besides the drive, ahead of and behind the service. */
  function OverheadBefore(b: Business, req: Requirements, e: ServiceEstimate): nat {
    var x := OperationalBuffers(b, req, e);
    b.travelBeforeBuffer + x.preparation + x.interval / 2
  }

  function OverheadAfter(b: Business, req: Requirements, e: ServiceEstimate): nat {
    var x := OperationalBuffers(b, req, e);
    b.travelAfterBuffer + x.finishing + (x.interval - x.interval / 2)
  }

  function PlanWith(
    b: Business, req: Requirements, e: ServiceEstimate, shown: TravelEstimate,
    minutesBefore: nat, minutesAfter: nat, handoff: bool, reason: Option<HandoffReason>): BookingPlan
  {
    BookingPlan(e, shown, minutesBefore + OverheadBefore(b, req, e), minutesAfter + OverheadAfter(b, req, e),
                handoff, reason)
  }

  function BuildPlan(
    env: Environment, b: Business, svc: Service, item: Option<CatalogItem>, req: Requirements): BookingPlan
  {
    var estimate :=
      if req.fulfillment.Some? then
        ServiceEstimate(Max(15, b.slotInterval), Some(0), Fixed, false, [FulfillmentRule(req.fulfillment.value)])
      else
        WithCatalogAdditions(svc, item, req, Estimate(svc.configuration, req));
    var travel :=
      if estimate.requiresHumanQuote || req.address.None? then ZERO_TRAVEL
      else env.originLeg(req.address.value);
    var outside := req.fulfillment.None? && travel.distanceKm.Some? && b.serviceRadiusKm.Some?
                   && travel.distanceKm.value > b.serviceRadiusKm.value;
    var estimate := if req.fulfillment.None? then WithDistanceFee(b, travel, estimate) else estimate;
    var delivery := req.fulfillment == Some(EquipmentDelivery);
    var km := if travel.travelMethod.SameAddress? then Some(0.0) else travel.distanceKm;
    var undelivered := delivery && km.None?;
    var estimate :=
      if delivery && km.Some? then
        estimate.(price := Some(Charge(km.value, b.deliveryFeePerKm)),
                  rules := estimate.rules + [DeliveryFeePerKm])
      else estimate;
    var reason :=
      if estimate.requiresHumanQuote then Some(EstimateRequiresHumanQuote)
      else if !travel.available then Some(TravelEstimateUnavailable)
      else if !travel.withinServiceArea || outside then Some(AddressOutsideServiceArea)
      else if undelivered then Some(DeliveryDistanceUnavailable)
      else None;
    PlanWith(b, req, estimate, travel, travel.minutes, travel.minutes, reason.Some?, reason)
  }

  // ---- Price accounting ----

  function Amount(r: Rule): int {
    match r
    case AdditionalUnitsPrice(a) => a
    case DifficultAccessPrice(a) => a
    case ExtraTubingPrice(a) => a
    case ServiceDistanceFee(a) => a
    case _ => 0
  }

  /** The sum of every amount that the applied rules itemise. */
  function Itemised(rules: seq<Rule>): int {
    if rules == [] then 0 else Amount(rules[0]) + Itemised(rules[1..])
  }

  lemma {:induction false} ItemisedConcat(r: seq<Rule>, s: seq<Rule>)
    ensures Itemised(r + s) == Itemised(r) + Itemised(s)
  {
    if r == [] {
      assert r + s == s;
    } else {
      assert (r + s)[1..] == r[1..] + s;
      ItemisedConcat(r[1..], s);
    }
  }

  function AmountAt(rules: seq<Rule>, i: nat): int {
    if i < |rules| then Amount(rules[i]) else 0
  }

  lemma {:induction false} ItemisedSmall(rules: seq<Rule>)
    requires |rules| <= 4
    ensures Itemised(rules) == AmountAt(rules, 0) + AmountAt(rules, 1) + AmountAt(rules, 2) + AmountAt(rules, 3)
  {
    if rules != [] {
      ItemisedSmall(rules[1..]);
    }
  }

  lemma Itemise(rules: seq<Rule>, added: seq<Rule>)
    requires |added| <= 4
    ensures Itemised(rules + added) == Itemised(rules) + AmountAt(added, 0) + AmountAt(added, 1)
                                       + AmountAt(added, 2) + AmountAt(added, 3)
  {
    ItemisedConcat(rules, added);
    ItemisedSmall(added);
  }

  ghost predicate Accounts(c: ServiceConfiguration, price: Option<int>, rules: seq<Rule>) {
    price.Some? ==> c.basePrice.Some? && price.value == c.basePrice.value + Itemised(rules)
  }

  ghost predicate Accounted(c: ServiceConfiguration, e: ServiceEstimate) {
    Accounts(c, e.price, e.rules)
  }

  lemma UnitsAccounted(c: ServiceConfiguration, quantity: pos)
    ensures var t := ChargeUnits(c, quantity); Accounts(c, t.price, t.rules)
  {
    ItemisedSmall(ChargeUnits(c, quantity).rules);
  }

  lemma AccessAccounted(c: ServiceConfiguration, req: Requirements, t: Tally)
    requires Accounts(c, t.price, t.rules)
    ensures var r := ChargeAccess(c, req, t); Accounts(c, r.price, r.rules)
  {
    Itemise(t.rules, AccessRules(c, req, t.price.Some?));
  }

  lemma EstimateAccounted(c: ServiceConfiguration, req: Requirements)
    ensures Accounted(c, Estimate(c, req))
  {
    var e := Estimate(c, req);
    if e.price.Some? {
      var quantity := if req.quantity.Some? then req.quantity.value else c.includedQuantity;
      var units := ChargeUnits(c, quantity);
      var access := ChargeAccess(c, req, units);
      UnitsAccounted(c, quantity);
      AccessAccounted(c, req, units);
      Itemise(access.rules, if c.durationMargin > 0 then [DurationMargin] else []);
    }
  }

  lemma CatalogAccounted(svc: Service, item: Option<CatalogItem>, req: Requirements, e: ServiceEstimate)
    requires Accounted(svc.configuration, e)
    ensures Accounted(svc.configuration, WithCatalogAdditions(svc, item, req, e))
  {
    var r := WithCatalogAdditions(svc, item, req, e);
    if r.price.Some? && r.rules != e.rules {
      if req.tubingMeters.None? {
        Itemise(e.rules, [TubingLengthUnknown]);
      } else {
        var extra := req.tubingMeters.value - svc.includedTubing.value;
        var u := item.value.pricingUnit;
        var quantity := ChargeQuantity(u, extra, req.explicitTubingQuantity);
        if quantity.None? {
          Itemise(e.rules, [ExtraTubingMeters(extra), ExtraTubingUnit(u), ExtraTubingQuantityUnconfirmed(u)]);
        } else {
          var charge := Charge(quantity.value, item.value.price.value);
          Itemise(e.rules, [ExtraTubingMeters(extra), ExtraTubingUnit(u),
                            ExtraTubingChargeQuantity(quantity.value), ExtraTubingPrice(charge)]);
        }
      }
    }
  }

  lemma DistanceAccounted(c: ServiceConfiguration, b: Business, travel: TravelEstimate, e: ServiceEstimate)
    requires Accounted(c, e)
    ensures Accounted(c, WithDistanceFee(b, travel, e))
  {
    if travel.distanceKm.Some? {
      var excess := ExcessKm(b, travel.distanceKm.value);
      Itemise(e.rules, [ServiceDistance(travel.distanceKm.value), ServiceDistanceExcess(excess),
                        ServiceDistanceFee(Charge(excess, b.feePerKm))]);
    }
  }

  /** Every cent of a priced service plan is the base price or an itemised amount. */
  lemma FinalPriceIsBasePlusItemised(
    env: Environment, b: Business, svc: Service, item: Option<CatalogItem>, req: Requirements)
    requires req.fulfillment.None?
    ensures Accounted(svc.configuration, BuildPlan(env, b, svc, item, req).service)
  {
    var first := Estimate(svc.configuration, req);
    EstimateAccounted(svc.configuration, req);
    CatalogAccounted(svc, item, req, first);
    var second := WithCatalogAdditions(svc, item, req, first);
    var travel := BuildPlan(env, b, svc, item, req).travel;
    DistanceAccounted(svc.configuration, b, travel, second);
  }

  // ---- Monotonicity ----

  /** Rounded charges keep the order of what is charged. */
  lemma ChargeKeepsOrder(x: real, y: real, unitPrice: nat)
    requires x <= y
    ensures Charge(x, unitPrice) <= Charge(y, unitPrice)
    ensures 0.0 <= x ==> 0 <= Charge(x, unitPrice)
  {
    var k := unitPrice as real;
    ProductKeepsOrder(x, y, k);
    RoundHalfEvenKeepsOrder(Product(x, k), Product(y, k));
    if 0.0 <= x {
      RoundHalfEvenKeepsOrder(0.0, Product(x, k));
    }
  }

  lemma ProductKeepsOrder(x: real, y: real, k: real)
    requires x <= y && 0.0 <= k
    ensures Product(x, k) <= Product(y, k)
    ensures 0.0 <= x ==> 0.0 <= Product(x, k)
  {
  }

  lemma MulNat(x: nat, y: nat, k: nat)
    requires x <= y
    ensures x * k <= y * k
  {
  }

  // "At least as much": known on both sides and ordered, or the very same value.
  predicate AtMost(x: Option<real>, y: Option<real>) {
    x == y || (x.Some? && y.Some? && x.value <= y.value)
  }

  predicate NotDearer(x: Option<int>, y: Option<int>) {
    x.Some? && y.Some? ==> x.value <= y.value
  }

  lemma EstimateMonotone(c: ServiceConfiguration, r1: Requirements, r2: Requirements)
    requires r2 == r1.(quantity := r2.quantity, tubingMeters := r2.tubingMeters)
    requires r1.quantity.Some? && r2.quantity.Some? && r1.quantity.value <= r2.quantity.value
    ensures NotDearer(Estimate(c, r1).price, Estimate(c, r2).price)
  {
    var q1, q2 := r1.quantity.value, r2.quantity.value;
    var n1: nat := if q1 > c.includedQuantity then q1 - c.includedQuantity else 0;
    var n2: nat := if q2 > c.includedQuantity then q2 - c.includedQuantity else 0;
    MulNat(n1, n2, OrZero(c.additionalUnitPrice));
    var t1, t2 := ChargeUnits(c, q1), ChargeUnits(c, q2);
    assert NotDearer(t1.price, t2.price) && t1.price.Some? == t2.price.Some?;
    assert NotDearer(ChargeAccess(c, r1, t1).price, ChargeAccess(c, r2, t2).price);
  }

  lemma CatalogMonotone(
    svc: Service, item: Option<CatalogItem>, r1: Requirements, r2: Requirements, e1: ServiceEstimate,
        e2: ServiceEstimate)
    requires r2 == r1.(quantity := r2.quantity, tubingMeters := r2.tubingMeters)
    requires AtMost(r1.tubingMeters, r2.tubingMeters)
    requires NotDearer(e1.price, e2.price)
    ensures NotDearer(WithCatalogAdditions(svc, item, r1, e1).price, WithCatalogAdditions(svc, item, r2, e2).price)
  {
    if svc.asksTubingLength && svc.includedTubing.Some? && r2.tubingMeters.Some?
       && item.Some? && item.value.price.Some? {
      var x1 := r1.tubingMeters.value - svc.includedTubing.value;
      var x2 := r2.tubingMeters.value - svc.includedTubing.value;
      var unitPrice := item.value.price.value;
      if x2 > 0.0 {
        var q2 := ChargeQuantity(item.value.pricingUnit, x2, r2.explicitTubingQuantity);
        if q2.Some? {
          ChargeKeepsOrder(q2.value, q2.value, unitPrice);
          if x1 > 0.0 {
            var q1 := ChargeQuantity(item.value.pricingUnit, x1, r1.explicitTubingQuantity);
            ChargeKeepsOrder(q1.value, q2.value, unitPrice);
          }
        }
      }
    }
  }

  lemma DistanceMonotone(b: Business, t1: TravelEstimate, t2: TravelEstimate, e1: ServiceEstimate, e2: ServiceEstimate)
    requires AtMost(t1.distanceKm, t2.distanceKm)
    requires NotDearer(e1.price, e2.price)
    ensures NotDearer(WithDistanceFee(b, t1, e1).price, WithDistanceFee(b, t2, e2).price)
  {
    if t1.distanceKm.Some? {
      ChargeKeepsOrder(ExcessKm(b, t1.distanceKm.value), ExcessKm(b, t2.distanceKm.value), b.feePerKm);
    }
  }

  lemma PricedMeansAutomatic(svc: Service, item: Option<CatalogItem>, req: Requirements)
    ensures var e := WithCatalogAdditions(svc, item, req, Estimate(svc.configuration, req));
            e.price.Some? ==> !e.requiresHumanQuote
  {
  }

  /**
   More units, more tubing or a longer drive never make a service cheaper.  env1 and env2
   may differ in the distance the route provider reports.
   */
  lemma PriceIsMonotone(
    env1: Environment, env2: Environment, b: Business, svc: Service, item: Option<CatalogItem>,
    r1: Requirements, r2: Requirements)
    requires r1.fulfillment.None?
    requires r2 == r1.(quantity := r2.quantity, tubingMeters := r2.tubingMeters)
    requires r1.quantity.Some? && r2.quantity.Some? && r1.quantity.value <= r2.quantity.value
    requires AtMost(r1.tubingMeters, r2.tubingMeters)
    requires r1.address.Some? ==>
      AtMost(env1.originLeg(r1.address.value).distanceKm, env2.originLeg(r1.address.value).distanceKm)
    ensures NotDearer(BuildPlan(env1, b, svc, item, r1).service.price, BuildPlan(env2, b, svc, item, r2).service.price)
  {
    var e1, e2 := Estimate(svc.configuration, r1), Estimate(svc.configuration, r2);
    EstimateMonotone(svc.configuration, r1, r2);
    CatalogMonotone(svc, item, r1, r2, e1, e2);
    PricedMeansAutomatic(svc, item, r1);
    PricedMeansAutomatic(svc, item, r2);
    var f1, f2 := WithCatalogAdditions(svc, item, r1, e1), WithCatalogAdditions(svc, item, r2, e2);
    var p1, p2 := BuildPlan(env1, b, svc, item, r1), BuildPlan(env2, b, svc, item, r2);
    assert p1.service == WithDistanceFee(b, p1.travel, f1);
    assert p2.service == WithDistanceFee(b, p2.travel, f2);
    if f1.price.Some? && f2.price.Some? {
      DistanceMonotone(b, p1.travel, p2.travel, f1, f2);
    }
  }

  // ---- Operational buffers ----

  /**
   A blank setting never pushes the total past fifty minutes, unless the settings that
   are filled in exceed fifty by themselves; those are never cut.
   */
  lemma AutomaticBuffersAreBounded(b: Business, req: Requirements, e: ServiceEstimate)
    ensures var x := OperationalBuffers(b, req, e);
            var fixed := OrZero(b.preparation) + OrZero(b.finishing) + OrZero(b.intervalBetweenServices);
            && (b.preparation.Some? ==> x.preparation == b.preparation.value)
            && (b.finishing.Some? ==> x.finishing == b.finishing.value)
            && (b.intervalBetweenServices.Some? ==> x.interval == b.intervalBetweenServices.value)
            && (b.preparation.None? || b.finishing.None? || b.intervalBetweenServices.None? ==>
                  x.preparation + x.finishing + x.interval <= Max(50, fixed))
  {
  }
}
