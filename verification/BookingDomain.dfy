/** The entities of the booking core, with the CHECK constraints of their tables in their types. */
module BookingDomain {
  import opened BookingTime
  import opened Seqs

  type pos = n: int | 0 < n witness 1

  // The searchable text of an address.
  type Address = string
  type CustomerId = nat
  type ServiceId = nat
  type AppointmentId = nat
  type IdempotencyKey = string

  // The composite foreign key (business_id, employee_id) ties a technician to one
  // business; serial orders technicians of one business as their id text does.
  datatype EmployeeId = EmployeeId(business: nat, serial: nat)

  datatype PricingType = Fixed | Estimated | HumanQuoted
  datatype AccessCondition = Normal | Difficult | UnknownAccess
  datatype UnknownAccessPolicy = Standard | Conservative | AskHuman
  datatype Fulfillment = EquipmentDelivery | EquipmentPickup
  datatype HandoffReason =
    | EstimateRequiresHumanQuote
    | TravelEstimateUnavailable
    | AddressOutsideServiceArea
    | DeliveryDistanceUnavailable

  datatype BookingError =
    | BookingRequiresHandoff
    | SlotUnavailable
    | BookingNotFound
    | IntegrityError

  datatype Outcome<+T> = Ok(value: T) | Fail(error: BookingError)
  {
    predicate IsFailure() { Fail? }

    function PropagateFailure<U>(): Outcome<U>
      requires Fail?
    {
      Fail(error)
    }

    function Extract(): T
      requires Ok?
    {
      value
    }
  }

  // Catalog items are charged by the metre, by the piece, or at a flat value.
  datatype PricingUnit = Metre | Piece | Kit | FlatValue | OtherUnit(text: string)

  // One entry of applied_rules; amounts are cents.
  datatype Rule =
    | BaseDuration
    | AdditionalUnits
    | AdditionalUnitsCount(count: nat)
    | AdditionalUnitsPrice(amount: int)
    | UnknownAccessConservative
    | UnknownAccessStandard
    | DifficultAccessPrice(amount: int)
    | DifficultAccess
    | DurationMargin
    | HumanQuoteRule(reason: string)
    | TubingLengthUnknown
    | ExtraTubingMeters(meters: real)
    | ExtraTubingPriceUnconfigured
    | BasePriceRequiredForExtraTubing
    | ExtraTubingUnit(tubingUnit: PricingUnit)
    | ExtraTubingQuantityUnconfirmed(tubingUnit: PricingUnit)
    | ExtraTubingChargeQuantity(quantity: real)
    | ExtraTubingPrice(amount: int)
    | ServiceDistance(km: real)
    | ServiceDistanceExcess(km: real)
    | ServiceDistanceFee(amount: int)
    | DeliveryFeePerKm
    | FulfillmentRule(kind: Fulfillment)

  datatype ServiceConfiguration = ServiceConfiguration(
    duration: pos,
    basePrice: Option<int>,
    pricingType: PricingType,
    automaticBooking: bool,
    includedQuantity: pos,
    additionalUnitDuration: nat,
    additionalUnitPrice: Option<nat>,
    requiresAddress: bool,
    requiresQuantity: bool,
    considersDifficultAccess: bool,
    difficultAccessDuration: nat,
    difficultAccessPrice: Option<nat>,
    unknownAccessPolicy: UnknownAccessPolicy,
    durationMargin: nat)

  datatype Service = Service(
    id: ServiceId,
    configuration: ServiceConfiguration,
    asksTubingLength: bool,
    includedTubing: Option<real>)

  // The "extra-tubing-meter" entry of the business catalog.
  datatype CatalogItem = CatalogItem(price: Option<nat>, pricingUnit: PricingUnit)

  datatype Requirements = Requirements(
    quantity: Option<pos>,
    access: AccessCondition,
    address: Option<Address>,
    siteAllowedStart: Option<TimeOfDay>,
    siteAllowedEnd: Option<TimeOfDay>,
    tubingMeters: Option<real>,
    explicitTubingQuantity: Option<real>,
    fulfillment: Option<Fulfillment>,
    key: Option<IdempotencyKey>)

  datatype Business = Business(
    id: nat,
    utcOffset: int,
    slotInterval: pos,
    noticeMinutes: Option<nat>,
    travelBeforeBuffer: nat,
    travelAfterBuffer: nat,
    preparation: Option<nat>,
    finishing: Option<nat>,
    intervalBetweenServices: Option<nat>,
    operatingWeekdays: set<int>,
    weekdayStart: Option<TimeOfDay>,
    weekdayEnd: Option<TimeOfDay>,
    weekendHolidayEnabled: bool,
    weekendHolidayStart: Option<TimeOfDay>,
    weekendHolidayEnd: Option<TimeOfDay>,
    serviceRadiusKm: Option<real>,
    includedKm: real,
    feePerKm: nat,
    deliveryFeePerKm: nat)

  datatype TravelMethod = NoTravel | SameAddress | Routed | Configured | Unavailable | Adjacent

  datatype TravelEstimate = TravelEstimate(
    minutes: nat,
    distanceKm: Option<real>,
    travelMethod: TravelMethod,
    withinServiceArea: bool,
    available: bool)

  const ZERO_TRAVEL := TravelEstimate(0, None, NoTravel, true, true)
  const UNAVAILABLE_TRAVEL := TravelEstimate(0, None, Unavailable, true, false)

  datatype ServiceEstimate = ServiceEstimate(
    duration: pos,
    price: Option<int>,
    pricingType: PricingType,
    requiresHumanQuote: bool,
    rules: seq<Rule>)

  datatype BookingPlan = BookingPlan(
    service: ServiceEstimate,
    travel: TravelEstimate,
    before: nat,
    after: nat,
    requiresHandoff: bool,
    reason: Option<HandoffReason>)

  // The clock reading, the travel port and the holiday table a call sees.
  datatype Environment = Environment(
    now: Instant,
    originLeg: Address -> TravelEstimate,
    leg: (Address, Address) -> TravelEstimate,
    holiday: int -> bool)

  datatype WorkingHours = WorkingHours(employee: EmployeeId, weekday: int, start: TimeOfDay, end: TimeOfDay)

  datatype ScheduleBlock = ScheduleBlock(employee: EmployeeId, startsAt: Instant, endsAt: Instant)

  datatype AppointmentStatus = Pending | Confirmed | Cancelled | Completed

  datatype Appointment = Appointment(
    id: AppointmentId,
    customer: CustomerId,
    service: ServiceId,
    employee: EmployeeId,
    startsAt: Instant,
    endsAt: Instant,
    status: AppointmentStatus,
    reschedulePending: bool,
    address: Option<Address>,
    duration: pos,
    before: nat,
    after: nat,
    price: Option<int>,
    key: Option<IdempotencyKey>)
  {
    function ReservedStart(): Instant { startsAt - before * MINUTE }
    function ReservedEnd(): Instant { endsAt + after * MINUTE }
  }

  predicate Overlaps(firstStart: Instant, firstEnd: Instant, secondStart: Instant, secondEnd: Instant) {
    firstStart < secondEnd && firstEnd > secondStart
  }
}
