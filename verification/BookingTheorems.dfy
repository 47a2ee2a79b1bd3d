/** What the booking port promises, proved about the specifications its methods meet. */
module BookingTheorems {
  import opened BookingTime
  import opened BookingDomain
  import opened Pricing
  import opened Availability
  import opened AppointmentStore
  import opened SlotSearch
  import opened BookingPort
  import opened Seqs

  // ---- Confirm ----

  predicate FreshKey(rows: seq<Appointment>, req: Requirements) {
    req.key.Some? ==> forall a | a in rows :: a.key != req.key
  }

  /** A technician the search offers can be written at once: nothing stored clashes. */
  lemma OfferedRowIsStorable(
    shop: Shop, req: Requirements, rows: seq<Appointment>, customer: CustomerId, start: Instant, e: EmployeeId)
    requires StoreValid(rows) && FreshKey(rows, req)
    requires var s := SearchFor(shop, req, rows, None); e in Candidates(s, start)
    ensures var s := SearchFor(shop, req, rows, None);
            var row := NewRow(shop, req, customer, FreshId(rows), e, start, PlanAt(s, e, start));
            !KeyTaken(rows, row) && !Excluded(rows, row)
  {
    var s := SearchFor(shop, req, rows, None);
    var day := LocalDay(shop.business.utcOffset, start);
    assert e in OfferedCosts(s, start);
    OfferedReservationIsFree(s, day, e, start);
    var row := NewRow(shop, req, customer, FreshId(rows), e, start, PlanAt(s, e, start));
    assert PlanAt(s, e, start).service == s.plan.service;
    forall b | b in rows && b.id != row.id ensures !Clash(row, b) {
    }
  }

  /**
   In an unchanged state a fresh confirm succeeds for exactly the offered times, on the
   first ranked technician, and adds exactly that row.
   */
  lemma ConfirmSucceedsExactlyWhenOffered(
    shop: Shop, customer: CustomerId, day: int, time: MinuteOfDay, req: Requirements, rows: seq<Appointment>)
    requires StoreValid(rows) && FreshKey(rows, req)
    ensures var c := ConfirmSpec(shop, customer, day, time, req, rows, rows);
            var s := SearchFor(shop, req, rows, None);
            var start := StartAt(shop, day, time);
            && (c.outcome.Ok? <==> SearchIsPossible(shop, req) && TimeOffered(shop, req, rows, day, time))
            && (c.outcome.Ok? ==>
                  && c.rows == rows + [c.outcome.value]
                  && c.outcome.value.startsAt == start
                  && c.outcome.value.employee in Candidates(s, start)
                  && forall e | e in Candidates(s, start) ::
                       TravelCost(PlanAt(s, c.outcome.value.employee, start)) <= TravelCost(PlanAt(s, e, start)))
            && (c.outcome.Fail? ==> c.rows == rows)
  {
    var s := SearchFor(shop, req, rows, None);
    var start := StartAt(shop, day, time);
    var employees := Candidates(s, start);
    if SearchIsPossible(shop, req) && TimeOffered(shop, req, rows, day, time) {
      OfferedRowIsStorable(shop, req, rows, customer, start, employees[0]);
      forall e | e in employees
        ensures TravelCost(PlanAt(s, employees[0], start)) <= TravelCost(PlanAt(s, e, start))
      {
        FirstCandidateIsCheapest(s, start, e);
      }
    }
  }

  lemma FirstCandidateIsCheapest(s: Search, start: Instant, e: EmployeeId)
    requires e in Candidates(s, start)
    ensures TravelCost(PlanAt(s, Candidates(s, start)[0], start)) <= TravelCost(PlanAt(s, e, start))
  {
    var cost := OfferedCosts(s, start);
    var employees := Candidates(s, start);
    var i :| 0 <= i < |employees| && employees[i] == e;
    if i > 0 {
      assert RanksBefore(cost, employees[0], employees[i]);
    }
    assert employees[0] in cost;
  }

  /** Whatever the search had read, confirm adds exactly the row it reports, or nothing. */
  lemma {:induction false} TryInsertsAddsOneRowOrNone(
    shop: Shop, req: Requirements, customer: CustomerId, s: Search, start: Instant, left: seq<EmployeeId>,
    rows: seq<Appointment>)
    requires StoreValid(rows)
    ensures var c := TryInserts(shop, req, customer, s, start, left, rows);
            && StoreValid(c.rows)
            && (c.rows == rows || (c.outcome.Ok? && c.rows == rows + [c.outcome.value]
                && !HasId(rows, c.outcome.value.id)))
            && (c.outcome.Ok? && c.rows == rows ==>
                  c.outcome.value in rows && req.key.Some?
                  && HoldsKey(c.outcome.value, shop.business.id, customer, req.key.value))
  {
    if left != [] {
      var row := NewRow(shop, req, customer, FreshId(rows), left[0], start, PlanAt(s, left[0], start));
      if !KeyTaken(rows, row) && !Excluded(rows, row) {
        InsertKeepsValid(rows, row);
      } else if !KeyTaken(rows, row) {
        TryInsertsAddsOneRowOrNone(shop, req, customer, s, start, left[1..], rows);
      }
    }
  }

  // ---- Reschedule ----

  predicate FreeForMove(rows: seq<Appointment>, k: nat, req: Requirements, e: EmployeeId, start: Instant,
      plan: BookingPlan)
    requires k < |rows|
  {
    !Excluded(rows, MovedRow(rows[k], req, e, start, plan))
  }

  lemma MoveKeepsItsKey(rows: seq<Appointment>, k: nat, req: Requirements, e: EmployeeId, start: Instant,
      plan: BookingPlan)
    requires StoreValid(rows) && k < |rows|
    ensures !KeyTaken(rows, MovedRow(rows[k], req, e, start, plan))
  {
  }

  /**
   Success moves row k alone: it keeps its id, customer, service and key, is confirmed at
   the new start and clashes with no other row.  Failure leaves every row as it was.
   */
  ghost predicate MovesOneRowOrNothing(c: Confirmation, rows: seq<Appointment>, k: nat, start: Instant) {
    && (c.outcome.Fail? ==> c.rows == rows)
    && (c.outcome.Ok? ==>
          var moved := c.outcome.value;
          && k < |rows| && c.rows == rows[k := moved] && StoreValid(c.rows)
          && moved.id == rows[k].id && moved.customer == rows[k].customer
          && moved.service == rows[k].service && moved.key == rows[k].key
          && moved.status.Confirmed? && moved.startsAt == start
          && !Excluded(rows, moved))
  }

  /** The update loop succeeds exactly when some technician it may try is free under the base plan. */
  lemma {:induction false} TryUpdatesIsAtomic(
    req: Requirements, plan: BookingPlan, start: Instant, k: nat, left: seq<EmployeeId>, rows: seq<Appointment>)
    requires StoreValid(rows) && k < |rows|
    ensures var c := TryUpdates(req, plan, start, k, left, rows);
            && (c.outcome.Ok? <==> exists e | e in left :: FreeForMove(rows, k, req, e, start, plan))
            && MovesOneRowOrNothing(c, rows, k, start)
  {
    if left != [] {
      MoveKeepsItsKey(rows, k, req, left[0], start, plan);
      if FreeForMove(rows, k, req, left[0], start, plan) {
        ReplaceKeepsValid(rows, k, MovedRow(rows[k], req, left[0], start, plan));
      } else {
        TryUpdatesIsAtomic(req, plan, start, k, left[1..], rows);
        assert forall e | e in left :: e == left[0] || e in left[1..];
      }
    }
  }

  lemma MoveIsAtomic(
    shop: Shop, k: nat, day: int, time: MinuteOfDay, req: Requirements, read: seq<Appointment>, rows: seq<Appointment>)
    requires StoreValid(rows) && k < |rows|
    ensures MovesOneRowOrNothing(MoveSpec(shop, k, day, time, req, read, rows), rows, k, StartAt(shop, day, time))
  {
    var s := SearchFor(shop, req, read, Some(rows[k].id));
    var start := StartAt(shop, day, time);
    TryUpdatesIsAtomic(req, s.plan, start, k, Candidates(s, start), rows);
  }

  /** Rescheduling moves the one row or changes nothing, whatever its search had read. */
  lemma RescheduleIsAtomic(
    shopOf: ServiceId -> Shop, business: nat, customer: CustomerId, id: AppointmentId, day: int, time: MinuteOfDay,
    req: Requirements, read: seq<Appointment>, rows: seq<Appointment>)
    requires StoreValid(rows)
    ensures var c := RescheduleSpec(shopOf, business, customer, id, day, time, req, read, rows);
            var k := IndexOf(rows, id);
            if OwnedBy(rows, k, business, customer) then
              MovesOneRowOrNothing(c, rows, k, StartAt(shopOf(rows[k].service), day, time))
            else c == Confirmation(Fail(BookingNotFound), rows)
  {
    var k := IndexOf(rows, id);
    if OwnedBy(rows, k, business, customer) {
      MoveIsAtomic(shopOf(rows[k].service), k, day, time, req, read, rows);
    }
  }

  /**
   In an unchanged state a row can be moved to an offered slot exactly when, for some
   offered technician, the base plan's own window is free of the other rows.
   */
  lemma MoveSucceedsIff(
    shop: Shop, k: nat, day: int, time: MinuteOfDay, req: Requirements, rows: seq<Appointment>)
    requires StoreValid(rows) && k < |rows|
    ensures var s := SearchFor(shop, req, rows, Some(rows[k].id));
            var start := StartAt(shop, day, time);
            MoveSpec(shop, k, day, time, req, rows, rows).outcome.Ok?
            <==> && SearchIsPossible(shop, req) && MinimumBookableDate(shop) <= day
                 && exists e | e in Candidates(s, start) :: FreeForMove(rows, k, req, e, start, s.plan)
  {
    var s := SearchFor(shop, req, rows, Some(rows[k].id));
    var start := StartAt(shop, day, time);
    TryUpdatesIsAtomic(req, s.plan, start, k, Candidates(s, start), rows);
  }

  /**
   Without a service address the stored plan is the offered one, so every offered slot can
   be rescheduled to.
   */
  lemma OfferedSlotIsReschedulableWithoutAddress(
    shop: Shop, req: Requirements, rows: seq<Appointment>, k: nat, start: Instant, e: EmployeeId)
    requires StoreValid(rows) && k < |rows| && req.address.None?
    requires var s := SearchFor(shop, req, rows, Some(rows[k].id)); e in Candidates(s, start)
    ensures FreeForMove(rows, k, req, e, start, BasePlan(shop, req))
  {
    var s := SearchFor(shop, req, rows, Some(rows[k].id));
    assert e in OfferedCosts(s, start);
    OfferedReservationIsFree(s, LocalDay(shop.business.utcOffset, start), e, start);
    var row := MovedRow(rows[k], req, e, start, s.plan);
    forall b | b in rows && b.id != row.id ensures !Clash(row, b) {
    }
  }

  ghost predicate NoneIsFree(s: Search, start: Instant, k: nat, rows: seq<Appointment>)
    requires k < |rows|
  {
    forall e | e in Candidates(s, start) :: !FreeForMove(rows, k, s.requirements, e, start, s.plan)
  }

  lemma MoveFailsWhenNoneIsFree(
    shop: Shop, k: nat, day: int, time: MinuteOfDay, req: Requirements, rows: seq<Appointment>)
    requires StoreValid(rows) && k < |rows|
    requires NoneIsFree(SearchFor(shop, req, rows, Some(rows[k].id)), StartAt(shop, day, time), k, rows)
    ensures MoveSpec(shop, k, day, time, req, rows, rows).outcome.Fail?
  {
    MoveSucceedsIff(shop, k, day, time, req, rows);
  }

  // ---- An offered slot that cannot be rescheduled to ----

  const TECHNICIAN := EmployeeId(0, 0)

  /** Half an hour from the business to any customer, no time at all between customers. */
  function WitnessShop(): Shop {
    Shop(
      Environment(0, (a: Address) => TravelEstimate(30, None, Routed, true, true),
                  (a: Address, b: Address) => TravelEstimate(0, None, SameAddress, true, true),
                  (day: int) => false),
      Business(0, 0, 60, Some(0), 0, 0, Some(0), Some(0), Some(0), {}, None, None, false, None, None, None,
               15.0, 240, 240),
      Service(0, ServiceConfiguration(60, Some(10000), Fixed, true, 1, 0, None, true, false, false, 0, None,
                                      Standard, 0),
              false, None),
      None, [TECHNICIAN], [WorkingHours(TECHNICIAN, Weekday(10), 0, DAY - 1)], [])
  }

  const WITNESS_REQUEST :=
    Requirements(Some(1), Normal, Some("Rua A 1"), None, None, None, None, None, None)

  /** Row 0 is to be moved next to row 1, which ends at eleven on day 10. */
  function WitnessRows(): seq<Appointment> {
    var ten := 10 * DAY + 600 * MINUTE;
    [Appointment(0, 0, 0, TECHNICIAN, ten + 10 * DAY, ten + 10 * DAY + 60 * MINUTE, Confirmed, false,
                 Some("Rua A 1"), 60, 0, 0, None, None),
     Appointment(1, 1, 0, TECHNICIAN, ten, ten + 60 * MINUTE, Confirmed, false,
                 Some("Rua A 1"), 60, 0, 0, None, None)]
  }

  lemma PlainPlan(env: Environment, b: Business, svc: Service, item: Option<CatalogItem>, req: Requirements)
    requires req.fulfillment.None? && req.address.Some? && !svc.asksTubingLength
    requires !Estimate(svc.configuration, req).requiresHumanQuote
    requires var drive := env.originLeg(req.address.value);
             drive.distanceKm.None? && drive.available && drive.withinServiceArea
    ensures var e := Estimate(svc.configuration, req);
            var drive := env.originLeg(req.address.value);
            BuildPlan(env, b, svc, item, req) == PlanWith(b, req, e, drive, drive.minutes, drive.minutes, false, None)
  {
  }

  lemma WitnessEstimate()
    ensures Estimate(WitnessShop().service.configuration, WITNESS_REQUEST)
            == ServiceEstimate(60, Some(10000), Fixed, false, [BaseDuration])
  {
    var c := WitnessShop().service.configuration;
    var units := ChargeUnits(c, 1);
    assert units == Tally(60, Some(10000), [BaseDuration]);
    assert ChargeAccess(c, WITNESS_REQUEST, units) == units;
  }

  lemma NoBuffers(b: Business, req: Requirements, e: ServiceEstimate)
    requires b.preparation == b.finishing == b.intervalBetweenServices == Some(0)
    requires b.travelBeforeBuffer == b.travelAfterBuffer == 0
    ensures OverheadBefore(b, req, e) == OverheadAfter(b, req, e) == 0
  {
    assert OperationalBuffers(b, req, e) == Buffers(0, 0, 0);
  }

  lemma PlainPlanReservesTheDrive(
    env: Environment, b: Business, svc: Service, item: Option<CatalogItem>, req: Requirements, duration: pos,
        minutes: nat)
    requires req.fulfillment.None? && req.address.Some? && !svc.asksTubingLength
    requires var e := Estimate(svc.configuration, req); !e.requiresHumanQuote && e.duration == duration
    requires env.originLeg(req.address.value) == TravelEstimate(minutes, None, Routed, true, true)
    requires b.preparation == b.finishing == b.intervalBetweenServices == Some(0)
    requires b.travelBeforeBuffer == b.travelAfterBuffer == 0
    ensures var plan := BuildPlan(env, b, svc, item, req);
            && plan.before == minutes && plan.after == minutes && !plan.requiresHandoff
            && plan.service.duration == duration && !plan.service.requiresHumanQuote
  {
    PlainPlan(env, b, svc, item, req);
    NoBuffers(b, req, Estimate(svc.configuration, req));
  }

  lemma WitnessBasePlan(shop: Shop, req: Requirements)
    requires shop == WitnessShop() && req == WITNESS_REQUEST
    ensures var plan := BasePlan(shop, req);
            && plan.before == 30 && plan.after == 30 && !plan.requiresHandoff
            && plan.service.duration == 60 && !plan.service.requiresHumanQuote
  {
    WitnessEstimate();
    PlainPlanReservesTheDrive(shop.env, shop.business, shop.service, shop.item, req, 60, 30);
  }

  // What the argument below uses of the witness search: row 1 is the only other row.
  ghost predicate IsWitness(s: Search, row: Appointment) {
    && s.business == WitnessShop().business && s.env == WitnessShop().env && s.requirements == WITNESS_REQUEST
    && s.plan.before == 30 && s.plan.after == 30
    && s.plan.service.duration == 60 && !s.plan.service.requiresHumanQuote
    && s.agenda.technicians == [TECHNICIAN] && s.agenda.blocks == [] && s.agenda.hours == WitnessShop().hours
    && OtherRows(s) == [row] && row == WitnessRows()[1]
  }

  lemma WitnessIsWitness()
    ensures IsWitness(SearchFor(WitnessShop(), WITNESS_REQUEST, WitnessRows(), Some(0)), WitnessRows()[1])
  {
    var s := SearchFor(WitnessShop(), WITNESS_REQUEST, WitnessRows(), Some(0));
    WitnessBasePlan(WitnessShop(), WITNESS_REQUEST);
    assert WitnessRows()[1..] == [WitnessRows()[1]];
    FilterHead(WitnessRows(), NotExcluded(s));
    FilterHead([WitnessRows()[1]], NotExcluded(s));
  }

  lemma WitnessStart(s: Search, row: Appointment)
    requires IsWitness(s, row)
    ensures var start := StartAt(WitnessShop(), 10, 660);
            LocalDay(0, start) == 10 && row.endsAt == start && LocalDay(0, row.startsAt) == 10
  {
  }

  lemma WitnessPlan(s: Search, row: Appointment)
    requires IsWitness(s, row)
    ensures var p := PlanAt(s, TECHNICIAN, StartAt(WitnessShop(), 10, 660));
            p.before == 0 && p.after == 0 && !p.requiresHandoff
  {
    var start := StartAt(WitnessShop(), 10, 660);
    WitnessStart(s, row);
    var today := DayRows(0, [row], TECHNICIAN, 10);
    FilterHead([row], OnDay(0, TECHNICIAN, 10));
    assert today == [row];
    assert Previous(today, start).Some?;
    assert Following(today, ServiceEnd(s, start)).None?;
    NoBuffers(s.business, s.requirements, s.plan.service);
  }

  lemma WitnessFitsRange(s: Search, row: Appointment)
    requires IsWitness(s, row)
    ensures FitsSomeRange(s, WholeAgenda(s), 10, TECHNICIAN, StartAt(WitnessShop(), 10, 660))
  {
    var whole := WholeAgenda(s);
    var hours := WitnessShop().hours[0];
    assert hours in s.agenda.hours && KnownTechnician(s)(hours);
    assert hours in whole.hours;
    var ranges := OperatingRanges(s.business, s.env.holiday, 10, whole);
    var onDay := Filter(whole.hours, (h: WorkingHours) => h.weekday == Weekday(10));
    assert hours in onDay;
    var i :| 0 <= i < |onDay| && onDay[i] == hours;
    assert |ranges| == |onDay| && ranges[i] == OperatingRange(TECHNICIAN, 0, DAY - 1);
    assert ranges[i] in ranges;
    assert FitsRange(s, 10, ranges[i], StartAt(WitnessShop(), 10, 660));
  }

  lemma WitnessIsOffered(s: Search, row: Appointment)
    requires IsWitness(s, row)
    ensures TECHNICIAN in Candidates(s, StartAt(WitnessShop(), 10, 660))
  {
    var start := StartAt(WitnessShop(), 10, 660);
    WitnessStart(s, row);
    WitnessPlan(s, row);
    WitnessFitsRange(s, row);
    assert Offered(s, 10, TECHNICIAN, start);
    assert TECHNICIAN in OfferedCosts(s, start);
  }

  lemma WitnessMoveClashes(s: Search, rows: seq<Appointment>)
    requires rows == WitnessRows() && IsWitness(s, rows[1])
    ensures NoneIsFree(s, StartAt(WitnessShop(), 10, 660), 0, rows)
  {
    var start := StartAt(WitnessShop(), 10, 660);
    WitnessMoveClash(s, rows);
    forall e | e in Candidates(s, start) ensures e == TECHNICIAN {
      assert e in OfferedCosts(s, start);
    }
  }

  lemma WitnessMoveClash(s: Search, rows: seq<Appointment>)
    requires rows == WitnessRows() && IsWitness(s, rows[1])
    ensures !FreeForMove(rows, 0, s.requirements, TECHNICIAN, StartAt(WitnessShop(), 10, 660), s.plan)
  {
    var moved := MovedRow(rows[0], s.requirements, TECHNICIAN, StartAt(WitnessShop(), 10, 660), s.plan);
    assert Clash(moved, rows[1]);
    assert rows[1] in rows;
  }

  lemma WitnessStoreIsValid()
    ensures StoreValid(WitnessRows())
  {
  }

  lemma WitnessIsBookable(shop: Shop, req: Requirements)
    requires shop == WitnessShop() && req == WITNESS_REQUEST
    ensures SearchIsPossible(shop, req) && MinimumBookableDate(shop) <= 10
  {
    WitnessBasePlan(shop, req);
  }

  /** Row 0 is offered eleven o'clock, yet the move fails: the base window runs into row 1. */
  lemma OfferedSlotMayNotBeReschedulable(shop: Shop, req: Requirements, rows: seq<Appointment>)
    requires shop == WitnessShop() && req == WITNESS_REQUEST && rows == WitnessRows()
    ensures StoreValid(rows) && SearchIsPossible(shop, req) && MinimumBookableDate(shop) <= 10
    ensures TECHNICIAN in Candidates(SearchFor(shop, req, rows, Some(rows[0].id)), StartAt(shop, 10, 660))
    ensures MoveSpec(shop, 0, 10, 660, req, rows, rows).outcome.Fail?
  {
    var s := SearchFor(shop, req, rows, Some(rows[0].id));
    WitnessStoreIsValid();
    WitnessIsWitness();
    WitnessIsOffered(s, rows[1]);
    WitnessIsBookable(shop, req);
    WitnessMoveClashes(s, rows);
    MoveFailsWhenNoneIsFree(shop, 0, 10, 660, req, rows);
  }
}
