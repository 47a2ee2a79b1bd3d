/**
 Two links: the order in which a query returns rows does not matter, and each iteration of
 the port's write loops is one step of the concurrent machine.
 */
module BookingRefinement {
  import opened BookingTime
  import opened BookingDomain
  import opened Availability
  import opened AppointmentStore
  import opened BookingPort
  import opened BookingRuns
  import opened Seqs

  // ---- Row order ----

  ghost predicate SameRows(x: seq<Appointment>, y: seq<Appointment>) {
    forall a :: a in x <==> a in y
  }

  lemma DistinctRowsDoNotClash(rows: seq<Appointment>, a: Appointment, b: Appointment)
    requires StoreValid(rows) && a in rows && b in rows && a != b
    ensures !Clash(a, b)
  {
    var i :| 0 <= i < |rows| && rows[i] == a;
    var j :| 0 <= j < |rows| && rows[j] == b;
    assert !Clash(rows[if i < j then i else j], rows[if i < j then j else i]);
  }

  /** The neighbours are unique, so no order of the rows can change them. */
  lemma PreviousIgnoresRowOrder(x: seq<Appointment>, y: seq<Appointment>, all: seq<Appointment>, start: Instant)
    requires StoreValid(all) && SameRows(x, y) && forall a | a in x :: a in all && a.status.Confirmed?
    requires forall a, b | a in x && b in x :: a.employee == b.employee
    ensures Previous(x, start) == Previous(y, start)
  {
    var fx, fy := Filter(x, (a: Appointment) => a.endsAt <= start), Filter(y, (a: Appointment) => a.endsAt <= start);
    var p, q := Previous(x, start), Previous(y, start);
    if p.Some? {
      assert p.value in fy;
    }
    if q.Some? {
      assert q.value in fx;
      if p != q {
        DistinctRowsDoNotClash(all, p.value, q.value);
      }
    }
  }

  lemma FollowingIgnoresRowOrder(x: seq<Appointment>, y: seq<Appointment>, all: seq<Appointment>, end: Instant)
    requires StoreValid(all) && SameRows(x, y) && forall a | a in x :: a in all && a.status.Confirmed?
    requires forall a, b | a in x && b in x :: a.employee == b.employee
    ensures Following(x, end) == Following(y, end)
  {
    var fx, fy := Filter(x, (a: Appointment) => end <= a.startsAt), Filter(y, (a: Appointment) => end <= a.startsAt);
    var p, q := Following(x, end), Following(y, end);
    if p.Some? {
      assert p.value in fy;
    }
    if q.Some? {
      assert q.value in fx;
      if p != q {
        DistinctRowsDoNotClash(all, p.value, q.value);
      }
    }
  }

  lemma DayRowsKeepSameRows(offset: int, x: seq<Appointment>, y: seq<Appointment>, e: EmployeeId, day: int)
    requires SameRows(x, y)
    ensures SameRows(DayRows(offset, x, e, day), DayRows(offset, y, e, day))
    ensures forall a | a in DayRows(offset, x, e, day) :: a in x && a.employee == e && a.status.Confirmed?
  {
  }

  lemma NeighboursIgnoreRowOrder(
    offset: int, x: seq<Appointment>, y: seq<Appointment>, all: seq<Appointment>, e: EmployeeId, day: int,
    start: Instant, end: Instant)
    requires StoreValid(all) && SameRows(x, y) && forall a | a in x :: a in all
    ensures Previous(DayRows(offset, x, e, day), start) == Previous(DayRows(offset, y, e, day), start)
    ensures Following(DayRows(offset, x, e, day), end) == Following(DayRows(offset, y, e, day), end)
  {
    DayRowsKeepSameRows(offset, x, y, e, day);
    PreviousIgnoresRowOrder(DayRows(offset, x, e, day), DayRows(offset, y, e, day), all, start);
    FollowingIgnoresRowOrder(DayRows(offset, x, e, day), DayRows(offset, y, e, day), all, end);
  }

  /** The same search over other rows. */
  function WithRows(s: Search, rows: seq<Appointment>): Search {
    Search(s.env, s.business, s.requirements, s.plan,
           Agenda(s.agenda.technicians, s.agenda.hours, s.agenda.blocks, rows), s.exclude)
  }

  lemma ScheduleIgnoresRowOrder(
    s: Search, x: seq<Appointment>, y: seq<Appointment>, all: seq<Appointment>, e: EmployeeId, start: Instant)
    requires StoreValid(all) && SameRows(x, y) && forall a | a in x :: a in all
    ensures ScheduleAwarePlan(s, e, start, x) == ScheduleAwarePlan(s, e, start, y)
  {
    NeighboursIgnoreRowOrder(s.business.utcOffset, x, y, all, e, LocalDay(s.business.utcOffset, start),
                             start, ServiceEnd(s, start));
  }

  lemma ScheduleIgnoresAgenda(s: Search, rows: seq<Appointment>, e: EmployeeId, start: Instant, y: seq<Appointment>)
    ensures ScheduleAwarePlan(s, e, start, y) == ScheduleAwarePlan(WithRows(s, rows), e, start, y)
  {
  }

  lemma PlanIgnoresRowOrder(s: Search, rows: seq<Appointment>, e: EmployeeId, start: Instant)
    requires StoreValid(s.agenda.rows) && SameRows(OtherRows(s), OtherRows(WithRows(s, rows)))
    ensures PlanAt(s, e, start) == PlanAt(WithRows(s, rows), e, start)
  {
    ScheduleIgnoresRowOrder(s, OtherRows(s), OtherRows(WithRows(s, rows)), s.agenda.rows, e, start);
    ScheduleIgnoresAgenda(s, rows, e, start, OtherRows(WithRows(s, rows)));
  }

  /** The queries have no ORDER BY; any order of the same valid rows offers the same starts. */
  lemma OfferedIgnoresRowOrder(s: Search, rows: seq<Appointment>, day: int, e: EmployeeId, start: Instant)
    requires StoreValid(s.agenda.rows) && StoreValid(rows) && SameRows(s.agenda.rows, rows)
    ensures Offered(s, day, e, start) <==> Offered(WithRows(s, rows), day, e, start)
  {
    var t := WithRows(s, rows);
    forall a ensures a in OtherRows(s) <==> a in OtherRows(t) {
      assert NotExcluded(s)(a) == NotExcluded(t)(a);
    }
    PlanIgnoresRowOrder(s, rows, e, start);
    AcceptanceIgnoresRowOrder(s, rows, day, e, start);
    FittingIgnoresRows(s, rows, day, e, start);
  }

  lemma FittingIgnoresRows(s: Search, rows: seq<Appointment>, day: int, e: EmployeeId, start: Instant)
    ensures FitsSomeRange(s, WholeAgenda(s), day, e, start)
            == FitsSomeRange(WithRows(s, rows), WholeAgenda(WithRows(s, rows)), day, e, start)
  {
    FilterAgree(s.agenda.hours, KnownTechnician(s), KnownTechnician(WithRows(s, rows)));
    forall r ensures FitsRange(s, day, r, start) == FitsRange(WithRows(s, rows), day, r, start) {
    }
  }

  lemma AcceptanceIgnoresRowOrder(s: Search, rows: seq<Appointment>, day: int, e: EmployeeId, start: Instant)
    requires var t := WithRows(s, rows);
             SameRows(OtherRows(s), OtherRows(t)) && PlanAt(s, e, start) == PlanAt(t, e, start)
    ensures Accepts(s, WholeAgenda(s), day, e, start)
            == Accepts(WithRows(s, rows), WholeAgenda(WithRows(s, rows)), day, e, start)
  {
  }

  // ---- The write loops as steps ----

  /** The rows a confirm call still has to try. */
  function Proposals(
    shop: Shop, req: Requirements, customer: CustomerId, s: Search, start: Instant,
        left: seq<EmployeeId>): seq<Appointment>
  {
    seq(|left|, i requires 0 <= i < |left| =>
      NewRow(shop, req, customer, 0, left[i], start, PlanAt(s, left[i], start)))
  }

  ghost predicate AtInsert(before: State, c: CallId, shop: Shop, req: Requirements, customer: CustomerId,
                           s: Search, start: Instant, left: seq<EmployeeId>) {
    && c in before.calls
    && before.calls[c] == Confirming(shop.business.id, customer, req.key,
        Proposals(shop, req, customer, s, start, left))
  }

  /**
   One pass through the insert loop is one step: it books the row the loop returns, drops
   the technician the loop skips, or fails as the loop does.
   */
  lemma InsertIterationIsAStep(
    before: State, c: CallId, shop: Shop, req: Requirements, customer: CustomerId, s: Search, start: Instant,
    left: seq<EmployeeId>) returns (after: State)
    requires left != [] && AtInsert(before, c, shop, req, customer, s, start, left)
    ensures Step(before, TryInsert(c), after)
    ensures var done := TryInserts(shop, req, customer, s, start, left, before.rows);
            match after.calls[c]
            case Confirming(_, _, _, _) =>
              && AtInsert(after, c, shop, req, customer, s, start, left[1..]) && after.rows == before.rows
              && done == TryInserts(shop, req, customer, s, start, left[1..], after.rows)
            case Booked(_, _, _, id) => done.outcome.Ok? && done.outcome.value.id == id && done.rows == after.rows
            case _ => done == Confirmation(Fail(IntegrityError), after.rows)
  {
    var tries := Proposals(shop, req, customer, s, start, left);
    var row := NewRow(shop, req, customer, FreshId(before.rows), left[0], start, PlanAt(s, left[0], start));
    assert tries[0].(id := FreshId(before.rows)) == row;
    assert tries[1..] == Proposals(shop, req, customer, s, start, left[1..]);
    var call := before.calls[c];
    if KeyTaken(before.rows, row) {
      var found := FindByKey(before.rows, shop.business.id, customer, req.key.value);
      after := Answer(before, c, if found.Some?
                                 then Booked(shop.business.id, customer, req.key, found.value.id) else Failed);
    } else if Excluded(before.rows, row) {
      after := Answer(before, c, Confirming(call.business, call.customer, call.key, call.tries[1..]));
    } else {
      after := State(before.rows + [row],
                     before.calls[c := Booked(call.business, call.customer, call.key, row.id)],
                     before.added + [(c, row.id)]);
    }
  }

  /** The rows a move still has to try. */
  function MoveProposals(original: Appointment, req: Requirements, plan: BookingPlan, start: Instant,
      left: seq<EmployeeId>)
    : seq<Appointment>
  {
    seq(|left|, i requires 0 <= i < |left| => MovedRow(original, req, left[i], start, plan))
  }

  ghost predicate AtUpdate(before: State, c: CallId, original: Appointment, req: Requirements, plan: BookingPlan,
                           start: Instant, left: seq<EmployeeId>) {
    && c in before.calls && before.calls[c] == Moving(original, MoveProposals(original, req, plan, start, left))
  }

  /**
   One pass through the update loop is one step: it writes the row the loop returns, drops the
   technician the loop skips, or fails as the loop does.
   */
  lemma UpdateIterationIsAStep(
    before: State, c: CallId, original: Appointment, req: Requirements, plan: BookingPlan, start: Instant,
    left: seq<EmployeeId>) returns (after: State)
    requires Inv(before) && left != [] && AtUpdate(before, c, original, req, plan, start, left)
    ensures Step(before, TryMove(c), after)
    ensures var k := IndexOf(before.rows, original.id);
            && k < |before.rows|
            && var done := TryUpdates(req, plan, start, k, left, before.rows);
               match after.calls[c]
               case Moving(_, _) =>
                 && AtUpdate(after, c, original, req, plan, start, left[1..]) && after.rows == before.rows
                 && done == TryUpdates(req, plan, start, k, left[1..], after.rows)
               case Moved(id) => done.outcome.Ok? && done.outcome.value.id == id && done.rows == after.rows
               case _ => done == Confirmation(Fail(IntegrityError), after.rows)
  {
    var call := before.calls[c];
    assert CallOk(before.rows, call);
    OriginalIsAtItsId(before.rows, original);
    var k := IndexOf(before.rows, original.id);
    var row := MovedRow(original, req, left[0], start, plan);
    assert call.tries[0] == row;
    assert call.tries[1..] == MoveProposals(original, req, plan, start, left[1..]);
    if KeyTaken(before.rows, row) {
      after := Answer(before, c, Failed);
    } else if Excluded(before.rows, row) {
      after := Answer(before, c, Moving(original, call.tries[1..]));
    } else {
      after := State(before.rows[k := row], before.calls[c := Moved(row.id)], before.added);
    }
  }

  /** A search proposes only rows that may begin a confirm or a move. */
  lemma ProposedRowsAreWellFormed(
    shop: Shop, req: Requirements, customer: CustomerId, s: Search, start: Instant, e: EmployeeId,
    original: Appointment)
    requires e.business == shop.business.id && original.employee.business == shop.business.id
    ensures ConfirmRow(NewRow(shop, req, customer, 0, e, start, PlanAt(s, e, start)), shop.business.id, customer,
        req.key)
    ensures var moved := MovedRow(original, req, e, start, s.plan);
            MoveRow(moved, original)
  {
  }
}
