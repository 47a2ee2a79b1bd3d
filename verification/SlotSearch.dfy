/** The search loops of the availability port, proved against the whole-agenda reference. */
module SlotSearch {
  import opened BookingTime
  import opened BookingDomain
  import opened Availability

  // ---- Ranking technicians ----

  // Technician ids compare as their id text does within one business.
  predicate IdBefore(e: EmployeeId, f: EmployeeId) {
    e.business < f.business || (e.business == f.business && e.serial < f.serial)
  }

  predicate RanksBefore(cost: map<EmployeeId, int>, e: EmployeeId, f: EmployeeId)
    requires e in cost && f in cost
  {
    cost[e] < cost[f] || (cost[e] == cost[f] && IdBefore(e, f))
  }

  predicate IsFirst(cost: map<EmployeeId, int>, e: EmployeeId) {
    e in cost && forall f | f in cost && f != e :: RanksBefore(cost, e, f)
  }

  lemma FirstExists(cost: map<EmployeeId, int>)
    requires cost != map[]
    ensures exists e :: IsFirst(cost, e)
    decreases |cost|
  {
    var e :| e in cost;
    var rest := cost - {e};
    if rest == map[] {
      assert forall f | f in cost :: f == e || f in rest;
      assert IsFirst(cost, e);
    } else {
      FirstExists(rest);
      var m :| IsFirst(rest, m);
      var first := if RanksBefore(cost, e, m) then e else m;
      forall f | f in cost && f != first ensures RanksBefore(cost, first, f) {
        if f != e {
          assert f in rest;
        }
      }
      assert IsFirst(cost, first);
    }
  }

  /** Technicians by total reserved travel, ties by id: strictly increasing, none lost or added. */
  function SortedByCost(cost: map<EmployeeId, int>): (r: seq<EmployeeId>)
    ensures forall e :: e in r <==> e in cost
    ensures forall i, j | 0 <= i < j < |r| :: RanksBefore(cost, r[i], r[j])
    decreases |cost|
  {
    if cost == map[] then []
    else
      var e := First(cost);
      [e] + SortedByCost(cost - {e})
  }

  function First(cost: map<EmployeeId, int>): (e: EmployeeId)
    requires cost != map[]
    ensures IsFirst(cost, e)
  {
    FirstExists(cost);
    var e :| IsFirst(cost, e);
    e
  }

  function TravelCost(p: BookingPlan): int { p.before + p.after }

  /** The reserved travel of every technician the start is offered with. */
  function OfferedCosts(s: Search, start: Instant): map<EmployeeId, int> {
    map e | e in s.agenda.technicians && Offered(s, LocalDay(s.business.utcOffset, start), e, start)
      :: TravelCost(PlanAt(s, e, start))
  }

  /** Who may take the start, in the order confirm tries them. */
  function Candidates(s: Search, start: Instant): seq<EmployeeId> {
    SortedByCost(OfferedCosts(s, start))
  }

  // ---- The loops ----

  type Found = map<Instant, set<EmployeeId>>
  type PlanCache = map<(EmployeeId, Instant), BookingPlan>

  predicate In(found: Found, e: EmployeeId, start: Instant) {
    start in found && e in found[start]
  }

  /** The plan cache holds exactly the found pairs, each under the plan it was accepted with. */
  ghost predicate Recorded(s: Search, cap: Capacity, found: Found, plans: PlanCache) {
    && (forall e, start :: (e, start) in plans <==> In(found, e, start))
    && (forall e, start | (e, start) in plans :: plans[(e, start)] == ScheduleAwarePlan(s, e, start, cap.rows))
    && (forall start | start in found :: found[start] != {})
  }

  /** The slots are first, first + step, ... up to latest. */
  ghost predicate IsSlotWalk(slots: iset<Instant>, first: Instant, latest: Instant, step: pos) {
    && (first <= latest ==> first in slots)
    && (forall t | t in slots :: first <= t <= latest)
    && (forall t :: StepsOn(slots, latest, step, t))
    && (forall t, u | t in slots && u in slots && t < u :: t + step <= u)
  }

  ghost predicate StepsOn(slots: iset<Instant>, latest: Instant, step: pos, t: Instant) {
    t in slots && t + step <= latest ==> t + step in slots
  }

  ghost function SlotsOf(s: Search, day: int, r: OperatingRange): iset<Instant> {
    iset start | FitsRange(s, day, r, start)
  }

  /** What fits a range is exactly what a walk from the rounded-up earliest start visits. */
  lemma RangeIsSlotWalk(s: Search, day: int, r: OperatingRange)
    ensures IsSlotWalk(
              SlotsOf(s, day, r),
              CeilToSlot(s.business.utcOffset, s.business.slotInterval, EarliestServiceStart(s, day, r)),
              LatestServiceStart(s, day, r),
              s.business.slotInterval * MINUTE)
  {
    var offset := s.business.utcOffset;
    var earliest := EarliestServiceStart(s, day, r);
    var midnight := Combine(offset, day, 0);
    var step := s.business.slotInterval * MINUTE;
    CeilToSlotIsFirst(offset, s.business.slotInterval, earliest);
    if earliest <= LatestServiceStart(s, day, r) {
      assert InDay(offset, day, earliest);
      InDayIffLocalDay(offset, day, earliest);
    }
    forall t | t in SlotsOf(s, day, r) ensures (t + step - midnight) % step == 0 {
      NextMultiple(t - midnight, t - midnight, step);
    }
    forall t, u | t in SlotsOf(s, day, r) && u in SlotsOf(s, day, r) && t < u ensures t + step <= u {
      NextMultiple(t - midnight, u - midnight, step);
    }
  }

  predicate FitsOneOf(s: Search, day: int, ranges: seq<OperatingRange>, e: EmployeeId, start: Instant) {
    exists r | r in ranges :: r.employee == e && FitsRange(s, day, r, start)
  }

  lemma OfferedOnItsOwnDay(s: Search, cap: Capacity, day: int)
    ensures forall e, start | OfferedFrom(s, cap, day, e, start) :: LocalDay(s.business.utcOffset, start) == day
  {
    forall e, start | OfferedFrom(s, cap, day, e, start)
      ensures LocalDay(s.business.utcOffset, start) == day
    {
      var r :| r in OperatingRanges(s.business, s.env.holiday, day, cap)
               && r.employee == e && FitsRange(s, day, r, start);
      StartIsInItsDay(s, day, r, start);
    }
  }

  /** The starts of the searched days and nothing else, each with its candidates in order. */
  ghost predicate StartsExact(s: Search, first: int, last: int, starts: map<Instant, seq<EmployeeId>>) {
    && (forall start :: start in starts <==>
          first <= LocalDay(s.business.utcOffset, start) <= last && Candidates(s, start) != [])
    && (forall start | start in starts :: starts[start] == Candidates(s, start))
  }

  ghost predicate PlansExact(s: Search, first: int, last: int, plans: PlanCache) {
    && (forall e, start :: (e, start) in plans <==>
          first <= LocalDay(s.business.utcOffset, start) <= last && e in Candidates(s, start))
    && (forall e, start | (e, start) in plans :: plans[(e, start)] == PlanAt(s, e, start))
  }

  function FoundCosts(found: Found, start: Instant, plans: PlanCache): map<EmployeeId, int>
    requires start in found && forall e | e in found[start] :: (e, start) in plans
  {
    map e | e in found[start] :: TravelCost(plans[(e, start)])
  }

  /** The loops have been over every searched day. */
  ghost predicate SearchDone(s: Search, first: int, last: int, found: Found, plans: PlanCache) {
    && ValidSearch(s)
    && Recorded(s, LoadCapacity(s, first, last), found, plans)
    && forall e, start :: In(found, e, start) <==>
         first <= LocalDay(s.business.utcOffset, start) <= last
         && OfferedFrom(s, LoadCapacity(s, first, last), LocalDay(s.business.utcOffset, start), e, start)
  }

  lemma FoundPair(s: Search, first: int, last: int, found: Found, plans: PlanCache, e: EmployeeId, start: Instant)
    requires SearchDone(s, first, last, found, plans)
    ensures In(found, e, start) <==>
              first <= LocalDay(s.business.utcOffset, start) <= last && e in OfferedCosts(s, start)
    ensures In(found, e, start) ==> (e, start) in plans && plans[(e, start)] == PlanAt(s, e, start)
  {
    var day := LocalDay(s.business.utcOffset, start);
    if first <= day <= last {
      WindowedSearchIsExact(s, first, last, day, e, start);
      if In(found, e, start) {
        NeighboursAreLoaded(s, first, last, e, start);
      }
    }
  }

  lemma CostsAgree(found: Found, start: Instant, plans: PlanCache, offered: map<EmployeeId, int>)
    requires start in found && forall e | e in found[start] :: (e, start) in plans
    requires forall e :: e in found[start] <==> e in offered
    requires forall e | e in offered :: offered[e] == TravelCost(plans[(e, start)])
    ensures FoundCosts(found, start, plans) == offered
  {
  }

  lemma FoundStart(s: Search, first: int, last: int, found: Found, plans: PlanCache, start: Instant)
    requires SearchDone(s, first, last, found, plans)
    ensures start in found <==>
              first <= LocalDay(s.business.utcOffset, start) <= last && Candidates(s, start) != []
    ensures start in found ==> FoundCosts(found, start, plans) == OfferedCosts(s, start)
  {
    var offered := OfferedCosts(s, start);
    forall e
      ensures In(found, e, start) <==> first <= LocalDay(s.business.utcOffset, start) <= last && e in offered
      ensures In(found, e, start) ==> (e, start) in plans && offered[e] == TravelCost(plans[(e, start)])
    {
      FoundPair(s, first, last, found, plans, e, start);
    }
    FoundStartFromPairs(s, first, last, found, plans, start, offered);
  }

  lemma FoundStartFromPairs(
    s: Search, first: int, last: int, found: Found, plans: PlanCache, start: Instant, offered: map<EmployeeId, int>)
    requires start in found ==> found[start] != {} && forall e | e in found[start] :: (e, start) in plans
    requires forall e :: In(found, e, start) <==> first <= LocalDay(s.business.utcOffset, start) <= last && e in offered
    requires forall e | In(found, e, start) :: offered[e] == TravelCost(plans[(e, start)])
    ensures start in found <==>
              first <= LocalDay(s.business.utcOffset, start) <= last && SortedByCost(offered) != []
    ensures start in found ==> FoundCosts(found, start, plans) == offered
  {
    if start in found {
      var e :| e in found[start];
      assert In(found, e, start);
      assert e in SortedByCost(offered);
      assert forall f :: f in found[start] <==> In(found, f, start);
      CostsAgree(found, start, plans, offered);
    } else if SortedByCost(offered) != [] {
      assert SortedByCost(offered)[0] in offered;
      assert !In(found, SortedByCost(offered)[0], start);
    }
  }

  /** What the loops found over loaded rows is what the whole agenda offers, at the same cost. */
  lemma FoundIsOffered(s: Search, first: int, last: int, found: Found, plans: PlanCache)
    requires SearchDone(s, first, last, found, plans)
    ensures forall start | start in found :: FoundCosts(found, start, plans) == OfferedCosts(s, start)
    ensures forall start :: start in found <==>
              first <= LocalDay(s.business.utcOffset, start) <= last && Candidates(s, start) != []
    ensures PlansExact(s, first, last, plans)
  {
    forall start
      ensures start in found <==>
                first <= LocalDay(s.business.utcOffset, start) <= last && Candidates(s, start) != []
      ensures start in found ==> FoundCosts(found, start, plans) == OfferedCosts(s, start)
    {
      FoundStart(s, first, last, found, plans, start);
    }
    forall e, start
      ensures (e, start) in plans <==>
                first <= LocalDay(s.business.utcOffset, start) <= last && e in Candidates(s, start)
      ensures (e, start) in plans ==> plans[(e, start)] == PlanAt(s, e, start)
    {
      FoundPair(s, first, last, found, plans, e, start);
    }
  }

  class SlotSearcher {
    var candidatePlans: PlanCache

    constructor ()
      ensures candidatePlans == map[]
    {
      candidatePlans := map[];
    }

    /** Remember one accepted pair and its plan. */
    method Keep(s: Search, cap: Capacity, found0: Found, e: EmployeeId, start: Instant, plan: BookingPlan)
      returns (found: Found)
      requires Recorded(s, cap, found0, candidatePlans)
      requires plan == ScheduleAwarePlan(s, e, start, cap.rows)
      modifies this
      ensures Recorded(s, cap, found, candidatePlans)
      ensures forall f, t :: In(found, f, t) <==> In(found0, f, t) || (f == e && t == start)
    {
      var already := if start in found0 then found0[start] else {};
      found := found0[start := already + {e}];
      candidatePlans := candidatePlans[(e, start) := plan];
    }

    /** Plan one candidate from its neighbours and keep it if the search may offer it. */
    method Consider(s: Search, cap: Capacity, day: int, e: EmployeeId, start: Instant, found0: Found)
      returns (found: Found)
      requires Recorded(s, cap, found0, candidatePlans)
      modifies this
      ensures Recorded(s, cap, found, candidatePlans)
      ensures forall f, t :: In(found, f, t) <==>
                In(found0, f, t) || (f == e && t == start && Accepts(s, cap, day, e, start))
    {
      var plan := ScheduleAwarePlan(s, e, start, cap.rows);
      var end := ServiceEnd(s, start);
      if && start > EarliestAllowedStart(s)
         && !plan.requiresHandoff
         && WithinSiteWindow(s, day, start, end)
         && !HasConflict(e, OccupiedStart(plan, start), OccupiedEnd(plan, end), cap)
      {
        found := Keep(s, cap, found0, e, start, plan);
      } else {
        found := found0;
      }
    }

    /** One range: walk its slots from the first and keep the accepted ones. */
    method WalkSlots(
      s: Search, cap: Capacity, day: int, e: EmployeeId, first: Instant, latest: Instant, step: pos,
      ghost slots: iset<Instant>, found0: Found)
      returns (found: Found)
      requires Recorded(s, cap, found0, candidatePlans)
      requires IsSlotWalk(slots, first, latest, step)
      modifies this
      ensures Recorded(s, cap, found, candidatePlans)
      ensures forall f, start :: In(found, f, start) <==>
                In(found0, f, start) || (f == e && start in slots && Accepts(s, cap, day, e, start))
    {
      found := found0;
      var candidate := first;
      while candidate <= latest
        invariant candidate <= latest ==> candidate in slots
        invariant Recorded(s, cap, found, candidatePlans)
        invariant forall f, start :: In(found, f, start) <==>
                    In(found0, f, start)
                    || (f == e && start < candidate && start in slots && Accepts(s, cap, day, e, start))
        decreases latest - candidate
      {
        found := Consider(s, cap, day, e, candidate, found);
        assert StepsOn(slots, latest, step, candidate);
        candidate := candidate + step;
      }
    }

    method SearchRange(s: Search, cap: Capacity, day: int, r: OperatingRange, found0: Found)
      returns (found: Found)
      requires Recorded(s, cap, found0, candidatePlans)
      modifies this
      ensures Recorded(s, cap, found, candidatePlans)
      ensures forall e, start :: In(found, e, start) <==>
                In(found0, e, start)
                || (e == r.employee && FitsRange(s, day, r, start) && Accepts(s, cap, day, e, start))
    {
      var first := CeilToSlot(s.business.utcOffset, s.business.slotInterval, EarliestServiceStart(s, day, r));
      RangeIsSlotWalk(s, day, r);
      found := WalkSlots(s, cap, day, r.employee, first, LatestServiceStart(s, day, r),
                         s.business.slotInterval * MINUTE, SlotsOf(s, day, r), found0);
    }

    /** One day: the ranges of every technician. */
    method SearchDay(s: Search, cap: Capacity, day: int, found0: Found) returns (found: Found)
      requires Recorded(s, cap, found0, candidatePlans)
      modifies this
      ensures Recorded(s, cap, found, candidatePlans)
      ensures forall e, start :: In(found, e, start) <==>
                In(found0, e, start) || OfferedFrom(s, cap, day, e, start)
    {
      found := found0;
      var ranges := OperatingRanges(s.business, s.env.holiday, day, cap);
      for i := 0 to |ranges|
        invariant Recorded(s, cap, found, candidatePlans)
        invariant forall e, start :: In(found, e, start) <==>
                    In(found0, e, start)
                    || (FitsOneOf(s, day, ranges[..i], e, start) && Accepts(s, cap, day, e, start))
      {
        found := SearchRange(s, cap, day, ranges[i], found);
        assert ranges[..i + 1] == ranges[..i] + [ranges[i]];
      }
      assert ranges[..|ranges|] == ranges;
    }

    /** The search over a range of days; the table of results is ranked per start. */
    method AvailableStarts(s: Search, first: int, last: int)
      returns (r: Outcome<map<Instant, seq<EmployeeId>>>)
      requires ValidSearch(s)
      modifies this
      ensures s.agenda.technicians == [] ==>
                r == Fail(BookingRequiresHandoff) && candidatePlans == old(candidatePlans)
      ensures s.agenda.technicians != [] ==>
                r.Ok? && StartsExact(s, first, last, r.value) && PlansExact(s, first, last, candidatePlans)
    {
      if s.agenda.technicians == [] {
        return Fail(BookingRequiresHandoff);
      }
      var offset := s.business.utcOffset;
      var cap := LoadCapacity(s, first, last);
      var found: Found := map[];
      candidatePlans := map[];
      var day := first;
      while day <= last
        invariant Recorded(s, cap, found, candidatePlans)
        invariant forall e, start :: In(found, e, start) <==>
                    first <= LocalDay(offset, start) < day && day <= last + 1
                    && OfferedFrom(s, cap, LocalDay(offset, start), e, start)
        invariant day <= last + 1 || (day == first && found == map[])
        decreases last - day
      {
        found := SearchDay(s, cap, day, found);
        OfferedOnItsOwnDay(s, cap, day);
        day := day + 1;
      }
      FoundIsOffered(s, first, last, found, candidatePlans);
      return Ok(map start | start in found :: SortedByCost(FoundCosts(found, start, candidatePlans)));
    }
  }
}
