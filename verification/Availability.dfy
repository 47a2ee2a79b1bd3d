/**
 The availability search: which (start, technician) pairs a search may offer.  The search
 reads only the part of the agenda that touches the searched days; the theorems at the end
 show that it nevertheless decides against the whole agenda.
 */
module Availability {
  import opened BookingTime
  import opened BookingDomain
  import opened Pricing
  import opened Seqs

  datatype OperatingRange = OperatingRange(employee: EmployeeId, start: TimeOfDay, end: TimeOfDay)

  // Everything stored: eligible technicians, working hours, blocks and appointment rows.
  datatype Agenda = Agenda(
    technicians: seq<EmployeeId>,
    hours: seq<WorkingHours>,
    blocks: seq<ScheduleBlock>,
    rows: seq<Appointment>)

  // What one search loads; same shape as the agenda it is cut from.
  type Capacity = Agenda

  datatype Search = Search(
    env: Environment,
    business: Business,
    requirements: Requirements,
    plan: BookingPlan,
    agenda: Agenda,
    exclude: Option<AppointmentId>)

  /** The plan reserves the drive it shows plus the operational overhead, as BuildPlan makes it. */
  predicate ConsistentPlan(b: Business, req: Requirements, plan: BookingPlan) {
    && plan.before == plan.travel.minutes + OverheadBefore(b, req, plan.service)
    && plan.after == plan.travel.minutes + OverheadAfter(b, req, plan.service)
  }

  /** CHECK ends_at > starts_at on appointments. */
  predicate RowsWellFormed(rows: seq<Appointment>) {
    forall a | a in rows :: a.startsAt < a.endsAt
  }

  predicate ValidSearch(s: Search) {
    ConsistentPlan(s.business, s.requirements, s.plan) && RowsWellFormed(s.agenda.rows)
  }

  // ---- Operating ranges ----

  /** Monday is 0; local day 0 is a Thursday. */
  function Weekday(day: int): int { (day + 3) % 7 }

  predicate CompanyHoursConfigured(b: Business) {
    (exists v | v in b.operatingWeekdays :: 0 <= v <= 4) && b.weekdayStart.Some? && b.weekdayEnd.Some?
  }

  function OperatingRanges(b: Business, holiday: int -> bool, day: int, cap: Capacity): seq<OperatingRange> {
    if !CompanyHoursConfigured(b) then
      var today := Filter(cap.hours, (h: WorkingHours) => h.weekday == Weekday(day));
      seq(|today|, i requires 0 <= i < |today| => OperatingRange(today[i].employee, today[i].start, today[i].end))
    else if Weekday(day) >= 5 || holiday(day) then
      if !b.weekendHolidayEnabled || b.weekendHolidayStart.None? || b.weekendHolidayEnd.None? then []
      else RangesForAll(cap.technicians, b.weekendHolidayStart.value, b.weekendHolidayEnd.value)
    else if Weekday(day) !in b.operatingWeekdays then []
    else RangesForAll(cap.technicians, b.weekdayStart.value, b.weekdayEnd.value)
  }

  function RangesForAll(technicians: seq<EmployeeId>, start: TimeOfDay, end: TimeOfDay): seq<OperatingRange> {
    seq(|technicians|, i requires 0 <= i < |technicians| => OperatingRange(technicians[i], start, end))
  }

  // ---- Neighbours and the schedule-aware plan ----

  function LatestEnding(s: seq<Appointment>): (r: Option<Appointment>)
    ensures r.None? <==> s == []
    ensures r.Some? ==> r.value in s && forall a | a in s :: a.endsAt <= r.value.endsAt
  {
    if s == [] then None
    else
      var rest := LatestEnding(s[1..]);
      if rest.None? || s[0].endsAt >= rest.value.endsAt then Some(s[0]) else rest
  }

  function EarliestStarting(s: seq<Appointment>): (r: Option<Appointment>)
    ensures r.None? <==> s == []
    ensures r.Some? ==> r.value in s && forall a | a in s :: r.value.startsAt <= a.startsAt
  {
    if s == [] then None
    else
      var rest := EarliestStarting(s[1..]);
      if rest.None? || s[0].startsAt <= rest.value.startsAt then Some(s[0]) else rest
  }

  function DayRows(offset: int, rows: seq<Appointment>, e: EmployeeId, day: int): seq<Appointment> {
    Filter(rows, OnDay(offset, e, day))
  }

  function OnDay(offset: int, e: EmployeeId, day: int): Appointment -> bool {
    (a: Appointment) => a.employee == e && a.status.Confirmed? && LocalDay(offset, a.startsAt) == day
  }

  function Previous(today: seq<Appointment>, start: Instant): Option<Appointment> {
    LatestEnding(Filter(today, (a: Appointment) => a.endsAt <= start))
  }

  function Following(today: seq<Appointment>, end: Instant): Option<Appointment> {
    EarliestStarting(Filter(today, (a: Appointment) => end <= a.startsAt))
  }

  function ServiceEnd(s: Search, start: Instant): Instant {
    start + s.plan.service.duration * MINUTE
  }

  /** The plan of a visit between two neighbours: the drives are the real adjacent legs. */
  function PlanBetween(s: Search, previous: Option<Appointment>, following: Option<Appointment>): BookingPlan
    requires s.requirements.address.Some?
  {
    var destination := s.requirements.address.value;
    var toHere :=
      if previous.None? then s.plan.travel
      else if previous.value.address.None? then UNAVAILABLE_TRAVEL
      else s.env.leg(previous.value.address.value, destination);
    var fromHere :=
      if following.None? then ZERO_TRAVEL
      else if following.value.address.None? then UNAVAILABLE_TRAVEL
      else s.env.leg(destination, following.value.address.value);
    var available := toHere.available && fromHere.available;
    var served := toHere.withinServiceArea && fromHere.withinServiceArea;
    var combined := TravelEstimate(Max(toHere.minutes, fromHere.minutes), None, Adjacent, served, available);
    var reason :=
      if !available then Some(TravelEstimateUnavailable)
      else if !served then Some(AddressOutsideServiceArea)
      else s.plan.reason;
    PlanWith(s.business, s.requirements, s.plan.service, combined, toHere.minutes, fromHere.minutes,
             s.plan.service.requiresHumanQuote || !available || !served, reason)
  }

  function ScheduleAwarePlan(s: Search, e: EmployeeId, start: Instant, rows: seq<Appointment>): BookingPlan {
    if s.requirements.address.None? then s.plan
    else
      var today := DayRows(s.business.utcOffset, rows, e, LocalDay(s.business.utcOffset, start));
      PlanBetween(s, Previous(today, start), Following(today, ServiceEnd(s, start)))
  }

  // ---- Candidates ----

  function AutomaticNotice(req: Requirements, e: ServiceEstimate): nat {
    var quantity := if req.quantity.Some? then req.quantity.value else 1;
    if quantity >= 3 || req.access.Difficult? then 240
    else if e.duration >= 180 then 180
    else 120
  }

  function EarliestAllowedStart(s: Search): Instant {
    var notice := if s.business.noticeMinutes.Some? then s.business.noticeMinutes.value
                  else AutomaticNotice(s.requirements, s.plan.service);
    s.env.now + notice * MINUTE
  }

  predicate WithinSiteWindow(s: Search, day: int, start: Instant, end: Instant) {
    && (s.requirements.siteAllowedStart.Some? ==>
          Combine(s.business.utcOffset, day, s.requirements.siteAllowedStart.value) <= start)
    && (s.requirements.siteAllowedEnd.Some? ==>
          end <= Combine(s.business.utcOffset, day, s.requirements.siteAllowedEnd.value))
  }

  function OccupiedStart(p: BookingPlan, start: Instant): Instant { start - p.before * MINUTE }
  function OccupiedEnd(p: BookingPlan, end: Instant): Instant { end + p.after * MINUTE }

  predicate HasConflict(e: EmployeeId, from: Instant, until: Instant, cap: Capacity) {
    || (exists b | b in cap.blocks :: b.employee == e && Overlaps(from, until, b.startsAt, b.endsAt))
    || (exists a | a in cap.rows :: a.employee == e && a.status.Confirmed?
                                    && Overlaps(from, until, a.ReservedStart(), a.ReservedEnd()))
  }

  /** The bounds of the slot loop for one range. */
  function EarliestServiceStart(s: Search, day: int, r: OperatingRange): Instant {
    Combine(s.business.utcOffset, day, r.start) + s.plan.before * MINUTE
  }

  function LatestServiceStart(s: Search, day: int, r: OperatingRange): Instant {
    Combine(s.business.utcOffset, day, r.end) - (s.plan.service.duration + s.plan.after) * MINUTE
  }

  /** A slot-aligned start that fits the range under the base plan. */
  predicate FitsRange(s: Search, day: int, r: OperatingRange, start: Instant) {
    && OnGrid(s.business.utcOffset, s.business.slotInterval, day, start)
    && EarliestServiceStart(s, day, r) <= start <= LatestServiceStart(s, day, r)
  }

  /** The test the slot loop applies to one candidate, against the loaded capacity. */
  predicate Accepts(s: Search, cap: Capacity, day: int, e: EmployeeId, start: Instant) {
    var p := ScheduleAwarePlan(s, e, start, cap.rows);
    var end := ServiceEnd(s, start);
    && start > EarliestAllowedStart(s)
    && !p.requiresHandoff
    && WithinSiteWindow(s, day, start, end)
    && !HasConflict(e, OccupiedStart(p, start), OccupiedEnd(p, end), cap)
  }

  predicate FitsSomeRange(s: Search, cap: Capacity, day: int, e: EmployeeId, start: Instant) {
    exists r | r in OperatingRanges(s.business, s.env.holiday, day, cap) ::
      r.employee == e && FitsRange(s, day, r, start)
  }

  predicate OfferedFrom(s: Search, cap: Capacity, day: int, e: EmployeeId, start: Instant) {
    FitsSomeRange(s, cap, day, e, start) && Accepts(s, cap, day, e, start)
  }

  function KnownTechnician(s: Search): WorkingHours -> bool {
    (h: WorkingHours) => h.employee in s.agenda.technicians
  }

  function BlockTouches(s: Search, first: int, last: int): ScheduleBlock -> bool {
    (b: ScheduleBlock) =>
      b.employee in s.agenda.technicians
      && b.startsAt < Combine(s.business.utcOffset, last + 1, 0)
      && b.endsAt > Combine(s.business.utcOffset, first, 0)
  }

  function RowTouches(s: Search, first: int, last: int): Appointment -> bool {
    (a: Appointment) =>
      a.employee in s.agenda.technicians && a.status.Confirmed?
      && a.ReservedStart() < Combine(s.business.utcOffset, last + 1, 0)
      && a.ReservedEnd() > Combine(s.business.utcOffset, first, 0)
      && Some(a.id) != s.exclude
  }

  /** The slice of the agenda a search over a range of local days reads. */
  function LoadCapacity(s: Search, first: int, last: int): Capacity {
    Agenda(
      s.agenda.technicians,
      Filter(s.agenda.hours, KnownTechnician(s)),
      Filter(s.agenda.blocks, BlockTouches(s, first, last)),
      Filter(s.agenda.rows, RowTouches(s, first, last)))
  }

  // ---- The reference: the same question asked of the whole agenda ----

  function NotExcluded(s: Search): Appointment -> bool {
    (a: Appointment) => Some(a.id) != s.exclude
  }

  function OtherRows(s: Search): seq<Appointment> {
    Filter(s.agenda.rows, NotExcluded(s))
  }

  function WholeAgenda(s: Search): Capacity {
    Agenda(s.agenda.technicians, Filter(s.agenda.hours, KnownTechnician(s)), s.agenda.blocks, OtherRows(s))
  }

  /** The plan and the verdict no window ever cuts: every block and every other row counts. */
  function PlanAt(s: Search, e: EmployeeId, start: Instant): BookingPlan {
    ScheduleAwarePlan(s, e, start, OtherRows(s))
  }

  predicate Offered(s: Search, day: int, e: EmployeeId, start: Instant) {
    e in s.agenda.technicians && OfferedFrom(s, WholeAgenda(s), day, e, start)
  }

  /** What an accepted reservation promises about the rest of the world. */
  predicate FreeEverywhere(s: Search, e: EmployeeId, from: Instant, until: Instant) {
    && (forall b | b in s.agenda.blocks && b.employee == e :: !Overlaps(from, until, b.startsAt, b.endsAt))
    && (forall a | a in s.agenda.rows && a.employee == e && a.status.Confirmed? && Some(a.id) != s.exclude ::
          !Overlaps(from, until, a.ReservedStart(), a.ReservedEnd()))
  }

  // ---- Proofs ----

  lemma RangesKnowTheirTechnicians(s: Search, first: int, last: int, day: int)
    ensures OperatingRanges(s.business, s.env.holiday, day, LoadCapacity(s, first, last))
            == OperatingRanges(s.business, s.env.holiday, day, WholeAgenda(s))
    ensures forall r | r in OperatingRanges(s.business, s.env.holiday, day, WholeAgenda(s)) ::
              r.employee in s.agenda.technicians
  {
    var whole := WholeAgenda(s);
    var ranges := OperatingRanges(s.business, s.env.holiday, day, whole);
    forall i | 0 <= i < |ranges| ensures ranges[i].employee in s.agenda.technicians {
      if !CompanyHoursConfigured(s.business) {
        var today := Filter(whole.hours, (h: WorkingHours) => h.weekday == Weekday(day));
        assert |ranges| == |today| && ranges[i].employee == today[i].employee;
        assert today[i] in today && today[i] in whole.hours;
        assert KnownTechnician(s)(today[i]);
      }
    }
  }

  lemma StartIsInItsDay(s: Search, day: int, r: OperatingRange, start: Instant)
    requires FitsRange(s, day, r, start)
    ensures InDay(s.business.utcOffset, day, start) && LocalDay(s.business.utcOffset, start) == day
    ensures Combine(s.business.utcOffset, day, 0) <= OccupiedStart(s.plan, start)
    ensures OccupiedEnd(s.plan, ServiceEnd(s, start)) < Combine(s.business.utcOffset, day + 1, 0)
  {
    InDayIffLocalDay(s.business.utcOffset, day, start);
  }

  /**
   An accepted window never leaves its local day: a side without a neighbour is bounded by
   the operating range, and a side that reached past midnight would run over the neighbour.
   */
  lemma AcceptedWindowStaysInItsDay(
    s: Search, cap: Capacity, day: int, r: OperatingRange, e: EmployeeId, start: Instant)
    requires ConsistentPlan(s.business, s.requirements, s.plan)
    requires RowsWellFormed(cap.rows)
    requires FitsRange(s, day, r, start)
    requires var p := ScheduleAwarePlan(s, e, start, cap.rows);
             !HasConflict(e, OccupiedStart(p, start), OccupiedEnd(p, ServiceEnd(s, start)), cap)
    ensures var p := ScheduleAwarePlan(s, e, start, cap.rows);
            && Combine(s.business.utcOffset, day, 0) <= OccupiedStart(p, start)
            && OccupiedEnd(p, ServiceEnd(s, start)) <= Combine(s.business.utcOffset, day + 1, 0)
  {
    StartIsInItsDay(s, day, r, start);
    if s.requirements.address.Some? {
      var offset := s.business.utcOffset;
      var p := ScheduleAwarePlan(s, e, start, cap.rows);
      var end := ServiceEnd(s, start);
      var today := DayRows(offset, cap.rows, e, day);
      var previous, following := Previous(today, start), Following(today, end);
      if previous.Some? {
        InDayIffLocalDay(offset, day, previous.value.startsAt);
        assert previous.value in cap.rows;
      }
      if following.Some? {
        InDayIffLocalDay(offset, day, following.value.startsAt);
        assert following.value in cap.rows;
      }
    }
  }

  lemma SamePlanFromSameDay(s: Search, e: EmployeeId, start: Instant, r1: seq<Appointment>, r2: seq<Appointment>)
    requires var offset := s.business.utcOffset;
             DayRows(offset, r1, e, LocalDay(offset, start)) == DayRows(offset, r2, e, LocalDay(offset, start))
    ensures ScheduleAwarePlan(s, e, start, r1) == ScheduleAwarePlan(s, e, start, r2)
  {
  }

  /** Every row that could be a neighbour touches its own day, so the window loads it. */
  lemma NeighboursAreLoaded(s: Search, first: int, last: int, e: EmployeeId, start: Instant)
    requires ValidSearch(s)
    requires e in s.agenda.technicians
    requires first <= LocalDay(s.business.utcOffset, start) <= last
    ensures ScheduleAwarePlan(s, e, start, LoadCapacity(s, first, last).rows) == PlanAt(s, e, start)
  {
    var offset := s.business.utcOffset;
    var day := LocalDay(offset, start);
    forall a | a in s.agenda.rows && OnDay(offset, e, day)(a)
      ensures RowTouches(s, first, last)(a) == NotExcluded(s)(a)
    {
      InDayIffLocalDay(offset, day, a.startsAt);
    }
    FilterTwice(s.agenda.rows, RowTouches(s, first, last), NotExcluded(s), OnDay(offset, e, day));
    SamePlanFromSameDay(s, e, start, LoadCapacity(s, first, last).rows, OtherRows(s));
  }

  /** A window inside the searched days meets a stored reservation exactly when it meets a loaded one. */
  lemma ConflictsAreLoaded(s: Search, first: int, last: int, e: EmployeeId, from: Instant, until: Instant)
    requires e in s.agenda.technicians
    requires Combine(s.business.utcOffset, first, 0) <= from && until <= Combine(s.business.utcOffset, last + 1, 0)
    ensures HasConflict(e, from, until, LoadCapacity(s, first, last)) == HasConflict(e, from, until, WholeAgenda(s))
  {
    var loaded, whole := LoadCapacity(s, first, last), WholeAgenda(s);
    forall b | b in whole.blocks && b.employee == e && Overlaps(from, until, b.startsAt, b.endsAt)
      ensures b in loaded.blocks
    {
      assert BlockTouches(s, first, last)(b);
    }
    forall a | a in whole.rows && a.employee == e && a.status.Confirmed?
               && Overlaps(from, until, a.ReservedStart(), a.ReservedEnd())
      ensures a in loaded.rows
    {
      assert NotExcluded(s)(a);
      assert RowTouches(s, first, last)(a);
    }
    assert forall a | a in loaded.rows :: RowTouches(s, first, last)(a) && NotExcluded(s)(a);
  }

  /**
   Searching any range of days that contains the day decides exactly what the whole agenda
   decides: the windowed search is sound and complete, whatever else the range spans.
   */
  lemma WindowedSearchIsExact(s: Search, first: int, last: int, day: int, e: EmployeeId, start: Instant)
    requires ValidSearch(s)
    requires first <= day <= last
    ensures OfferedFrom(s, LoadCapacity(s, first, last), day, e, start) <==> Offered(s, day, e, start)
  {
    var loaded, whole := LoadCapacity(s, first, last), WholeAgenda(s);
    RangesKnowTheirTechnicians(s, first, last, day);
    if FitsSomeRange(s, whole, day, e, start) {
      var r :| r in OperatingRanges(s.business, s.env.holiday, day, whole)
               && r.employee == e && FitsRange(s, day, r, start);
      StartIsInItsDay(s, day, r, start);
      NeighboursAreLoaded(s, first, last, e, start);
      var p := PlanAt(s, e, start);
      var from, until := OccupiedStart(p, start), OccupiedEnd(p, ServiceEnd(s, start));
      if !HasConflict(e, from, until, loaded) {
        AcceptedWindowStaysInItsDay(s, loaded, day, r, e, start);
        ConflictsAreLoaded(s, first, last, e, from, until);
      } else {
        LoadedConflictsAreReal(s, first, last, e, from, until);
      }
    }
  }

  lemma LoadedConflictsAreReal(s: Search, first: int, last: int, e: EmployeeId, from: Instant, until: Instant)
    requires HasConflict(e, from, until, LoadCapacity(s, first, last))
    ensures HasConflict(e, from, until, WholeAgenda(s))
  {
    var loaded := LoadCapacity(s, first, last);
    assert forall a | a in loaded.rows :: RowTouches(s, first, last)(a) && NotExcluded(s)(a);
  }

  /**
   Global soundness: an offered reservation stays inside its local day and is disjoint from
   every block and every confirmed appointment of the technician in the whole table.
   */
  lemma OfferedReservationIsFree(s: Search, day: int, e: EmployeeId, start: Instant)
    requires ValidSearch(s)
    requires Offered(s, day, e, start)
    ensures LocalDay(s.business.utcOffset, start) == day
    ensures var p := PlanAt(s, e, start);
            var from, until := OccupiedStart(p, start), OccupiedEnd(p, ServiceEnd(s, start));
            && Combine(s.business.utcOffset, day, 0) <= from
            && until <= Combine(s.business.utcOffset, day + 1, 0)
            && FreeEverywhere(s, e, from, until)
  {
    var whole := WholeAgenda(s);
    var r :| r in OperatingRanges(s.business, s.env.holiday, day, whole)
             && r.employee == e && FitsRange(s, day, r, start);
    StartIsInItsDay(s, day, r, start);
    AcceptedWindowStaysInItsDay(s, whole, day, r, e, start);
    var p := PlanAt(s, e, start);
    var from, until := OccupiedStart(p, start), OccupiedEnd(p, ServiceEnd(s, start));
    forall a | a in s.agenda.rows && a.employee == e && a.status.Confirmed? && Some(a.id) != s.exclude
      ensures !Overlaps(from, until, a.ReservedStart(), a.ReservedEnd())
    {
      assert NotExcluded(s)(a);
      assert a in whole.rows;
    }
  }

  /** Day locality: restricting a search over a range to one of its days is searching that day. */
  lemma RestrictingToADayIsSearchingIt(s: Search, first: int, last: int, day: int, e: EmployeeId, start: Instant)
    requires ValidSearch(s)
    requires first <= day <= last
    ensures OfferedFrom(s, LoadCapacity(s, first, last), day, e, start)
            <==> OfferedFrom(s, LoadCapacity(s, day, day), day, e, start)
  {
    WindowedSearchIsExact(s, first, last, day, e, start);
    WindowedSearchIsExact(s, day, day, day, e, start);
  }
}
