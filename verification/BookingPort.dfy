/**
 The booking port over an appointments table: listing, confirming, cancelling and
 rescheduling.  A call searches the rows it read and writes to the rows as they are by
 then; the two may differ when other transactions commit in between.
 */
module BookingPort {
  import opened BookingTime
  import opened BookingDomain
  import opened Pricing
  import opened Availability
  import opened AppointmentStore
  import opened SlotSearch
  import opened Seqs

  const HORIZON_DAYS: int := 30
  const LEAD_DAYS: int := 3

  type MinuteOfDay = t: int | 0 <= t < 1440

  // What a call loads besides the appointments: the business, the service, its technicians.
  datatype Shop = Shop(
    env: Environment,
    business: Business,
    service: Service,
    item: Option<CatalogItem>,
    technicians: seq<EmployeeId>,
    hours: seq<WorkingHours>,
    blocks: seq<ScheduleBlock>)

  function BasePlan(shop: Shop, req: Requirements): BookingPlan {
    BuildPlan(shop.env, shop.business, shop.service, shop.item, req)
  }

  function SearchFor(
    shop: Shop, req: Requirements, rows: seq<Appointment>, exclude: Option<AppointmentId>): (s: Search)
    ensures RowsWellFormed(rows) ==> ValidSearch(s)
  {
    Search(shop.env, shop.business, req, BasePlan(shop, req),
           Agenda(shop.technicians, shop.hours, shop.blocks, rows), exclude)
  }

  /** Today plus the full-booking lead, not counting today. */
  function MinimumBookableDate(shop: Shop): int {
    LocalDay(shop.business.utcOffset, shop.env.now) + LEAD_DAYS + 1
  }

  function StartAt(shop: Shop, day: int, time: MinuteOfDay): Instant {
    Combine(shop.business.utcOffset, day, time * MINUTE)
  }

  // ---- The three views ----

  ghost predicate SearchIsPossible(shop: Shop, req: Requirements) {
    !BasePlan(shop, req).requiresHandoff && shop.technicians != []
  }

  /** Some technician can take the start. */
  ghost predicate TimeOffered(shop: Shop, req: Requirements, rows: seq<Appointment>, day: int, time: MinuteOfDay) {
    && MinimumBookableDate(shop) <= day
    && Candidates(SearchFor(shop, req, rows, None), StartAt(shop, day, time)) != []
  }

  ghost predicate DateOffered(shop: Shop, req: Requirements, rows: seq<Appointment>, day: int) {
    && MinimumBookableDate(shop) <= day < MinimumBookableDate(shop) + HORIZON_DAYS
    && exists start :: LocalDay(shop.business.utcOffset, start) == day
                       && Candidates(SearchFor(shop, req, rows, None), start) != []
  }

  /** The hour and minute shown for a start; offered starts are whole minutes, so nothing is lost. */
  function MinuteLabel(shop: Shop, start: Instant): MinuteOfDay {
    var day := LocalDay(shop.business.utcOffset, start);
    InDayIffLocalDay(shop.business.utcOffset, day, start);
    (start - Combine(shop.business.utcOffset, day, 0)) / MINUTE
  }

  lemma CandidateIsOffered(s: Search, start: Instant)
    requires Candidates(s, start) != []
    ensures exists e :: Offered(s, LocalDay(s.business.utcOffset, start), e, start)
  {
    assert Candidates(s, start)[0] in OfferedCosts(s, start);
  }

  lemma OfferedStartIsOnGrid(s: Search, start: Instant)
    requires Candidates(s, start) != []
    ensures OnGrid(s.business.utcOffset, s.business.slotInterval, LocalDay(s.business.utcOffset, start), start)
  {
    var day := LocalDay(s.business.utcOffset, start);
    CandidateIsOffered(s, start);
    var e :| Offered(s, day, e, start);
    var r :| r in OperatingRanges(s.business, s.env.holiday, day, WholeAgenda(s))
             && r.employee == e && FitsRange(s, day, r, start);
  }

  lemma OfferedStartIsWholeMinute(
    shop: Shop, req: Requirements, rows: seq<Appointment>, exclude: Option<AppointmentId>, start: Instant)
    requires Candidates(SearchFor(shop, req, rows, exclude), start) != []
    ensures StartAt(shop, LocalDay(shop.business.utcOffset, start), MinuteLabel(shop, start)) == start
  {
    OfferedStartIsOnGrid(SearchFor(shop, req, rows, exclude), start);
    GridStartIsWholeMinute(shop, start);
  }

  lemma GridStartIsWholeMinute(shop: Shop, start: Instant)
    requires OnGrid(shop.business.utcOffset, shop.business.slotInterval,
                    LocalDay(shop.business.utcOffset, start), start)
    ensures StartAt(shop, LocalDay(shop.business.utcOffset, start), MinuteLabel(shop, start)) == start
  {
    var offset := shop.business.utcOffset;
    WholeMinutes(start - Combine(offset, LocalDay(offset, start), 0), shop.business.slotInterval);
  }

  lemma WholeMinutes(x: int, interval: pos)
    requires x % (interval * MINUTE) == 0
    ensures x / MINUTE * MINUTE == x
  {
    var k := x / (interval * MINUTE);
    MulSwap(interval, MINUTE, k);
    assert x == interval * k * MINUTE;
  }

  lemma MulSwap(a: int, b: int, c: int)
    ensures a * b * c == a * c * b
  {
  }

  /** A date inside the horizon is offered exactly when its list of times is not empty. */
  lemma DateOfferedIffSomeTime(shop: Shop, req: Requirements, rows: seq<Appointment>, day: int)
    requires MinimumBookableDate(shop) <= day < MinimumBookableDate(shop) + HORIZON_DAYS
    ensures DateOffered(shop, req, rows, day) <==> exists time :: TimeOffered(shop, req, rows, day, time)
  {
    var offset := shop.business.utcOffset;
    var s := SearchFor(shop, req, rows, None);
    if DateOffered(shop, req, rows, day) {
      var start :| LocalDay(offset, start) == day && Candidates(s, start) != [];
      OfferedStartIsWholeMinute(shop, req, rows, None, start);
      assert TimeOffered(shop, req, rows, day, MinuteLabel(shop, start));
    }
    if time :| TimeOffered(shop, req, rows, day, time) {
      InDayIffLocalDay(offset, day, StartAt(shop, day, time));
    }
  }

  /** The labels of a one-day search are exactly its offered times. */
  lemma TimesAreTheLabels(
    shop: Shop, req: Requirements, rows: seq<Appointment>, day: int, starts: map<Instant, seq<EmployeeId>>)
    requires MinimumBookableDate(shop) <= day
    requires StartsExact(SearchFor(shop, req, rows, None), day, day, starts)
    ensures forall time: MinuteOfDay ::
              (exists start | start in starts :: MinuteLabel(shop, start) == time)
              <==> TimeOffered(shop, req, rows, day, time)
  {
    forall time: MinuteOfDay
      ensures (exists start | start in starts :: MinuteLabel(shop, start) == time)
              <==> TimeOffered(shop, req, rows, day, time)
    {
      TimeIsALabel(shop, req, rows, day, starts, time);
    }
  }

  lemma TimeIsALabel(
    shop: Shop, req: Requirements, rows: seq<Appointment>, day: int, starts: map<Instant, seq<EmployeeId>>,
    time: MinuteOfDay)
    requires MinimumBookableDate(shop) <= day
    requires StartsExact(SearchFor(shop, req, rows, None), day, day, starts)
    ensures (exists start | start in starts :: MinuteLabel(shop, start) == time)
            <==> TimeOffered(shop, req, rows, day, time)
  {
    var start := StartAt(shop, day, time);
    StartShowsItsMinute(shop, day, time);
    assert start in starts <==> TimeOffered(shop, req, rows, day, time);
    if t :| t in starts && MinuteLabel(shop, t) == time {
      OfferedStartIsWholeMinute(shop, req, rows, None, t);
      assert t == start;
    }
  }

  lemma StartShowsItsMinute(shop: Shop, day: int, time: MinuteOfDay)
    ensures LocalDay(shop.business.utcOffset, StartAt(shop, day, time)) == day
    ensures MinuteLabel(shop, StartAt(shop, day, time)) == time
  {
    InDayIffLocalDay(shop.business.utcOffset, day, StartAt(shop, day, time));
  }

  // ---- Writing ----

  function NewRow(
    shop: Shop, req: Requirements, customer: CustomerId, id: AppointmentId, e: EmployeeId, start: Instant,
    plan: BookingPlan): Appointment
  {
    Appointment(id, customer, shop.service.id, e, start, start + plan.service.duration * MINUTE, Confirmed, false,
                req.address, plan.service.duration, plan.before, plan.after, plan.service.price, req.key)
  }

  /** Reschedule writes the base plan; id, customer, service and key stay. */
  function MovedRow(
    a: Appointment, req: Requirements, e: EmployeeId, start: Instant, plan: BookingPlan): Appointment
  {
    a.(employee := e, startsAt := start, endsAt := start + plan.service.duration * MINUTE, status := Confirmed,
       reschedulePending := false, address := req.address, duration := plan.service.duration,
       before := plan.before, after := plan.after, price := plan.service.price)
  }

  datatype Confirmation = Confirmation(outcome: Outcome<Appointment>, rows: seq<Appointment>)

  /** The insert loop of confirm, over the technicians still to try. */
  function TryInserts(
    shop: Shop, req: Requirements, customer: CustomerId, s: Search, start: Instant, left: seq<EmployeeId>,
    rows: seq<Appointment>): Confirmation
  {
    if left == [] then Confirmation(Fail(SlotUnavailable), rows)
    else
      var row := NewRow(shop, req, customer, FreshId(rows), left[0], start, PlanAt(s, left[0], start));
      if KeyTaken(rows, row) then
        var found := FindByKey(rows, shop.business.id, customer, req.key.value);
        Confirmation(if found.Some? then Ok(found.value) else Fail(IntegrityError), rows)
      else if Excluded(rows, row) then TryInserts(shop, req, customer, s, start, left[1..], rows)
      else Confirmation(Ok(row), rows + [row])
  }

  /** What confirm does when its reads saw `read` and its writes meet `rows`. */
  function ConfirmSpec(
    shop: Shop, customer: CustomerId, day: int, time: MinuteOfDay, req: Requirements,
    read: seq<Appointment>, rows: seq<Appointment>): Confirmation
  {
    var existing := if req.key.Some? then FindByKey(read, shop.business.id, customer, req.key.value) else None;
    if existing.Some? then Confirmation(Ok(existing.value), rows)
    else if day < MinimumBookableDate(shop) then Confirmation(Fail(SlotUnavailable), rows)
    else if BasePlan(shop, req).requiresHandoff || shop.technicians == [] then
      Confirmation(Fail(BookingRequiresHandoff), rows)
    else
      var s := SearchFor(shop, req, read, None);
      var start := StartAt(shop, day, time);
      TryInserts(shop, req, customer, s, start, Candidates(s, start), rows)
  }

  /** The update loop of reschedule, over the technicians still to try. */
  function TryUpdates(
    req: Requirements, plan: BookingPlan, start: Instant, k: nat, left: seq<EmployeeId>,
    rows: seq<Appointment>): Confirmation
    requires k < |rows|
  {
    if left == [] then Confirmation(Fail(SlotUnavailable), rows)
    else
      var row := MovedRow(rows[k], req, left[0], start, plan);
      if KeyTaken(rows, row) then Confirmation(Fail(IntegrityError), rows)
      else if Excluded(rows, row) then TryUpdates(req, plan, start, k, left[1..], rows)
      else Confirmation(Ok(row), rows[k := row])
  }

  predicate Reschedulable(a: Appointment) {
    a.status.Confirmed? || (a.status.Pending? && a.reschedulePending)
  }

  predicate OwnedBy(rows: seq<Appointment>, k: nat, business: nat, customer: CustomerId) {
    k < |rows| && rows[k].employee.business == business && rows[k].customer == customer
  }

  function RescheduleSpec(
    shopOf: ServiceId -> Shop, business: nat, customer: CustomerId, id: AppointmentId, day: int, time: MinuteOfDay,
    req: Requirements, read: seq<Appointment>, rows: seq<Appointment>): Confirmation
  {
    var k := IndexOf(rows, id);
    if !OwnedBy(rows, k, business, customer) || !Reschedulable(rows[k]) then
      Confirmation(Fail(BookingNotFound), rows)
    else MoveSpec(shopOf(rows[k].service), k, day, time, req, read, rows)
  }

  /** Rescheduling a row the caller may move. */
  function MoveSpec(
    shop: Shop, k: nat, day: int, time: MinuteOfDay, req: Requirements,
    read: seq<Appointment>, rows: seq<Appointment>): Confirmation
    requires k < |rows|
  {
    if day < MinimumBookableDate(shop) then Confirmation(Fail(SlotUnavailable), rows)
    else if BasePlan(shop, req).requiresHandoff || shop.technicians == [] then
      Confirmation(Fail(BookingRequiresHandoff), rows)
    else
      var s := SearchFor(shop, req, read, Some(rows[k].id));
      var start := StartAt(shop, day, time);
      TryUpdates(req, s.plan, start, k, Candidates(s, start), rows)
  }

  class Port {
    const table: AppointmentTable
    const searcher: SlotSearcher

    constructor (table: AppointmentTable)
      ensures this.table == table && fresh(searcher)
    {
      this.table := table;
      searcher := new SlotSearcher();
    }

    /** Dates of the horizon with at least one start. */
    method ListDates(shop: Shop, req: Requirements) returns (r: Outcome<set<int>>)
      requires StoreValid(table.rows)
      modifies searcher
      ensures r.Ok? <==> SearchIsPossible(shop, req)
      ensures r.Ok? ==> forall day :: day in r.value <==> DateOffered(shop, req, table.rows, day)
    {
      var plan := BasePlan(shop, req);
      if plan.requiresHandoff {
        return Fail(BookingRequiresHandoff);
      }
      var first := MinimumBookableDate(shop);
      var s := SearchFor(shop, req, table.rows, None);
      var starts :- searcher.AvailableStarts(s, first, first + HORIZON_DAYS - 1);
      return Ok(set start | start in starts :: LocalDay(shop.business.utcOffset, start));
    }

    /** Times of one date, as minutes of the day. */
    method ListTimes(shop: Shop, day: int, req: Requirements) returns (r: Outcome<set<MinuteOfDay>>)
      requires StoreValid(table.rows)
      modifies searcher
      ensures day < MinimumBookableDate(shop) ==> r == Ok({})
      ensures MinimumBookableDate(shop) <= day ==> (r.Ok? <==> SearchIsPossible(shop, req))
      ensures r.Ok? ==> forall time: MinuteOfDay :: time in r.value <==> TimeOffered(shop, req, table.rows, day, time)
    {
      if day < MinimumBookableDate(shop) {
        return Ok({});
      }
      var plan := BasePlan(shop, req);
      if plan.requiresHandoff {
        return Fail(BookingRequiresHandoff);
      }
      var s := SearchFor(shop, req, table.rows, None);
      var starts :- searcher.AvailableStarts(s, day, day);
      TimesAreTheLabels(shop, req, table.rows, day, starts);
      return Ok(set start | start in starts :: MinuteLabel(shop, start));
    }

    /** The technicians a single start is offered with, in the order to try them. */
    method EmployeesForExactStart(s: Search, day: int, start: Instant) returns (r: Outcome<seq<EmployeeId>>)
      requires ValidSearch(s) && LocalDay(s.business.utcOffset, start) == day
      modifies searcher
      ensures r == if s.agenda.technicians == [] then Fail(BookingRequiresHandoff) else Ok(Candidates(s, start))
      ensures r.Ok? ==> forall e | e in r.value ::
                (e, start) in searcher.candidatePlans && searcher.candidatePlans[(e, start)] == PlanAt(s, e, start)
    {
      var found :- searcher.AvailableStarts(s, day, day);
      return Ok(if start in found then found[start] else []);
    }

    method Confirm(
      shop: Shop, customer: CustomerId, day: int, time: MinuteOfDay, req: Requirements, read: seq<Appointment>)
      returns (r: Outcome<Appointment>)
      requires StoreValid(read) && StoreValid(table.rows)
      modifies searcher, table
      ensures Confirmation(r, table.rows) == ConfirmSpec(shop, customer, day, time, req, read, old(table.rows))
      ensures StoreValid(table.rows)
    {
      if req.key.Some? {
        var existing := FindByKey(read, shop.business.id, customer, req.key.value);
        if existing.Some? {
          return Ok(existing.value);
        }
      }
      if day < MinimumBookableDate(shop) {
        return Fail(SlotUnavailable);
      }
      var plan := BasePlan(shop, req);
      if plan.requiresHandoff {
        return Fail(BookingRequiresHandoff);
      }
      var s := SearchFor(shop, req, read, None);
      var start := StartAt(shop, day, time);
      InDayIffLocalDay(shop.business.utcOffset, day, start);
      var employees :- EmployeesForExactStart(s, day, start);
      r := InsertFirstThatFits(shop, req, customer, s, start, employees);
    }

    /** The insert loop: a technician who was taken meanwhile is skipped. */
    method InsertFirstThatFits(
      shop: Shop, req: Requirements, customer: CustomerId, s: Search, start: Instant, employees: seq<EmployeeId>)
      returns (r: Outcome<Appointment>)
      requires StoreValid(table.rows)
      requires forall e | e in employees ::
                 (e, start) in searcher.candidatePlans && searcher.candidatePlans[(e, start)] == PlanAt(s, e, start)
      modifies table
      ensures StoreValid(table.rows)
      ensures Confirmation(r, table.rows) == TryInserts(shop, req, customer, s, start, employees, old(table.rows))
    {
      for i := 0 to |employees|
        invariant table.rows == old(table.rows) && StoreValid(table.rows)
        invariant TryInserts(shop, req, customer, s, start, employees, old(table.rows))
                  == TryInserts(shop, req, customer, s, start, employees[i..], old(table.rows))
      {
        var plan := searcher.candidatePlans[(employees[i], start)];
        var row := NewRow(shop, req, customer, FreshId(table.rows), employees[i], start, plan);
        var write := table.Insert(row);
        match write {
          case Written =>
            return Ok(row);
          case KeyViolated =>
            var existing := FindByKey(table.rows, shop.business.id, customer, req.key.value);
            return if existing.Some? then Ok(existing.value) else Fail(IntegrityError);
          case ExclusionViolated =>
        }
      }
      return Fail(SlotUnavailable);
    }

    method CancelBooking(business: nat, customer: CustomerId, id: AppointmentId) returns (r: Outcome<Appointment>)
      requires StoreValid(table.rows)
      modifies table
      ensures StoreValid(table.rows)
      ensures var k := IndexOf(old(table.rows), id);
              if !OwnedBy(old(table.rows), k, business, customer)
                 || !(old(table.rows)[k].status.Confirmed? || old(table.rows)[k].status.Cancelled?)
              then r == Fail(BookingNotFound) && table.rows == old(table.rows)
              else r == Ok(old(table.rows)[k].(status := Cancelled)) && table.rows == old(table.rows)[k := r.value]
    {
      var k := IndexOf(table.rows, id);
      if !OwnedBy(table.rows, k, business, customer) {
        return Fail(BookingNotFound);
      }
      var a := table.rows[k];
      if a.status.Confirmed? {
        var write := table.Update(k, a.(status := Cancelled));
      } else if !a.status.Cancelled? {
        return Fail(BookingNotFound);
      }
      return Ok(table.rows[k]);
    }

    method RescheduleBookingAtomic(
      shopOf: ServiceId -> Shop, business: nat, customer: CustomerId, id: AppointmentId, day: int,
      time: MinuteOfDay, req: Requirements, read: seq<Appointment>)
      returns (r: Outcome<Appointment>)
      requires StoreValid(read) && StoreValid(table.rows)
      modifies searcher, table
      ensures Confirmation(r, table.rows)
              == RescheduleSpec(shopOf, business, customer, id, day, time, req, read, old(table.rows))
      ensures StoreValid(table.rows)
    {
      var k := IndexOf(table.rows, id);
      if !OwnedBy(table.rows, k, business, customer) || !Reschedulable(table.rows[k]) {
        return Fail(BookingNotFound);
      }
      var shop := shopOf(table.rows[k].service);
      if day < MinimumBookableDate(shop) {
        return Fail(SlotUnavailable);
      }
      var plan := BasePlan(shop, req);
      if plan.requiresHandoff {
        return Fail(BookingRequiresHandoff);
      }
      var s := SearchFor(shop, req, read, Some(id));
      var start := StartAt(shop, day, time);
      InDayIffLocalDay(shop.business.utcOffset, day, start);
      var employees :- EmployeesForExactStart(s, day, start);
      r := UpdateFirstThatFits(req, plan, start, k, employees);
    }

    /** The update loop: the savepoint undoes a rejected move before the next technician is tried. */
    method UpdateFirstThatFits(
      req: Requirements, plan: BookingPlan, start: Instant, k: nat, employees: seq<EmployeeId>)
      returns (r: Outcome<Appointment>)
      requires StoreValid(table.rows) && k < |table.rows|
      modifies table
      ensures StoreValid(table.rows)
      ensures Confirmation(r, table.rows) == TryUpdates(req, plan, start, k, employees, old(table.rows))
    {
      for i := 0 to |employees|
        invariant table.rows == old(table.rows) && StoreValid(table.rows)
        invariant TryUpdates(req, plan, start, k, employees, old(table.rows))
                  == TryUpdates(req, plan, start, k, employees[i..], old(table.rows))
      {
        var row := MovedRow(table.rows[k], req, employees[i], start, plan);
        var write := table.Update(k, row);
        match write {
          case Written =>
            return Ok(row);
          case KeyViolated =>
            return Fail(IntegrityError);
          case ExclusionViolated =>
        }
      }
      return Fail(SlotUnavailable);
    }
  }
}
