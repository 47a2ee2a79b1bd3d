/**
 Concurrent booking as a state machine.  Calls interleave at every write; the rows a call
 tries come from a search over an arbitrarily old read, so they are arbitrary rows of the
 right shape.  Only the constraints of the table and the row lock of a reschedule stand
 between the calls.
 */
module BookingRuns {
  import opened BookingDomain
  import opened AppointmentStore
  import opened Seqs

  type CallId = nat

  datatype Call =
    | Confirming(business: nat, customer: CustomerId, key: Option<IdempotencyKey>, tries: seq<Appointment>)
    | Booked(business: nat, customer: CustomerId, key: Option<IdempotencyKey>, id: AppointmentId)
    | Moving(original: Appointment, tries: seq<Appointment>)
    | Moved(id: AppointmentId)
    | Failed

  // `added` records which call inserted which row.
  datatype State = State(rows: seq<Appointment>, calls: map<CallId, Call>, added: seq<(CallId, AppointmentId)>)

  datatype Action =
    | BeginConfirm(c: CallId, business: nat, customer: CustomerId, key: Option<IdempotencyKey>, tries: seq<Appointment>)
    | TryInsert(c: CallId)
    | BeginMove(c: CallId, k: nat, tries: seq<Appointment>)
    | TryMove(c: CallId)
    | GiveUp(c: CallId)
    | Cancel(k: nat)
    | StaffInsert(row: Appointment)
    | StaffUpdate(k: nat, row: Appointment)

  /** A row some search proposed for a confirm call. */
  predicate ConfirmRow(a: Appointment, business: nat, customer: CustomerId, key: Option<IdempotencyKey>) {
    a.startsAt < a.endsAt && a.status.Confirmed? && a.employee.business == business
    && a.customer == customer && a.key == key
  }

  /** A row that rewrites `original` in place; staff may even hand it to another customer. */
  predicate Rewrites(a: Appointment, original: Appointment) {
    && a.startsAt < a.endsAt && a.id == original.id
    && a.employee.business == original.employee.business && a.key == original.key
  }

  /** A row a customer's own move proposes. */
  predicate MoveRow(a: Appointment, original: Appointment) {
    Rewrites(a, original) && a.customer == original.customer && a.service == original.service && a.status.Confirmed?
  }

  predicate Locked(s: State, id: AppointmentId) {
    exists c | c in s.calls :: s.calls[c].Moving? && s.calls[c].original.id == id
  }

  function Answer(s: State, c: CallId, call: Call): State {
    s.(calls := s.calls[c := call])
  }

  /** A call that holds a key looks for its appointment. */
  function Existing(s: State, business: nat, customer: CustomerId, key: Option<IdempotencyKey>): Option<Appointment> {
    if key.Some? then FindByKey(s.rows, business, customer, key.value) else None
  }

  ghost predicate Inserts(s: State, c: CallId, t: State)
    requires c in s.calls && s.calls[c].Confirming? && s.calls[c].tries != []
  {
    var call := s.calls[c];
    var row := call.tries[0].(id := FreshId(s.rows));
    var found := Existing(s, call.business, call.customer, call.key);
    || (!KeyTaken(s.rows, row) && !Excluded(s.rows, row)
        && t == State(s.rows + [row], s.calls[c := Booked(call.business, call.customer, call.key, row.id)],
                      s.added + [(c, row.id)]))
    || (Excluded(s.rows, row)
        && t == Answer(s, c, Confirming(call.business, call.customer, call.key, call.tries[1..])))
    || (KeyTaken(s.rows, row)
        && t == Answer(s, c, if found.Some? then Booked(call.business, call.customer, call.key, found.value.id)
            else Failed))
  }

  ghost predicate Moves(s: State, c: CallId, t: State)
    requires c in s.calls && s.calls[c].Moving? && s.calls[c].tries != []
  {
    var call := s.calls[c];
    var row := call.tries[0];
    var k := IndexOf(s.rows, call.original.id);
    || (!KeyTaken(s.rows, row) && !Excluded(s.rows, row) && k < |s.rows|
        && t == State(s.rows[k := row], s.calls[c := Moved(row.id)], s.added))
    || (Excluded(s.rows, row) && t == Answer(s, c, Moving(call.original, call.tries[1..])))
    || (KeyTaken(s.rows, row) && t == Answer(s, c, Failed))
  }

  ghost predicate Step(s: State, a: Action, t: State) {
    match a
    case BeginConfirm(c, business, customer, key, tries) =>
      && c !in s.calls && (forall r | r in tries :: ConfirmRow(r, business, customer, key))
      && var found := Existing(s, business, customer, key);
         t == Answer(s, c, if found.Some? then Booked(business, customer, key, found.value.id)
                           else Confirming(business, customer, key, tries))
    case TryInsert(c) =>
      c in s.calls && s.calls[c].Confirming? && s.calls[c].tries != [] && Inserts(s, c, t)
    case BeginMove(c, k, tries) =>
      && c !in s.calls && k < |s.rows| && !Locked(s, s.rows[k].id)
      && (s.rows[k].status.Confirmed? || (s.rows[k].status.Pending? && s.rows[k].reschedulePending))
      && (forall r | r in tries :: MoveRow(r, s.rows[k]))
      && t == Answer(s, c, Moving(s.rows[k], tries))
    case TryMove(c) =>
      c in s.calls && s.calls[c].Moving? && s.calls[c].tries != [] && Moves(s, c, t)
    case GiveUp(c) =>
      && c in s.calls && (s.calls[c].Confirming? || s.calls[c].Moving?) && s.calls[c].tries == []
      && t == Answer(s, c, Failed)
    case Cancel(k) =>
      && k < |s.rows| && s.rows[k].status.Confirmed? && !Locked(s, s.rows[k].id)
      && t == s.(rows := s.rows[k := s.rows[k].(status := Cancelled)])
    case StaffInsert(row) =>
      && row.startsAt < row.endsAt && row.key.None? && !HasId(s.rows, row.id) && !Excluded(s.rows, row)
      && t == s.(rows := s.rows + [row])
    case StaffUpdate(k, row) =>
      && k < |s.rows| && !Locked(s, s.rows[k].id) && Rewrites(row, s.rows[k]) && !Excluded(s.rows, row)
      && t == s.(rows := s.rows[k := row])
  }

  /** The row a call answered with; its customer may have changed since. */
  ghost predicate HasBooking(
    rows: seq<Appointment>, id: AppointmentId, business: nat, key: Option<IdempotencyKey>) {
    key.Some? ==> exists r | r in rows :: r.id == id && r.employee.business == business && r.key == key
  }

  ghost predicate CallOk(rows: seq<Appointment>, call: Call) {
    match call
    case Confirming(business, customer, key, tries) => forall r | r in tries :: ConfirmRow(r, business, customer, key)
    case Booked(business, customer, key, id) => HasBooking(rows, id, business, key)
    case Moving(original, tries) => original in rows && forall r | r in tries :: MoveRow(r, original)
    case _ => true
  }

  /** How many rows a call has inserted. */
  function AddedBy(added: seq<(CallId, AppointmentId)>, c: CallId): nat {
    if added == [] then 0
    else AddedBy(added[..|added| - 1], c) + if added[|added| - 1].0 == c then 1 else 0
  }

  ghost predicate Inv(s: State) {
    && StoreValid(s.rows)
    && (forall c | c in s.calls :: CallOk(s.rows, s.calls[c]))
    && (forall c, d | c in s.calls && d in s.calls && s.calls[c].Moving? && s.calls[d].Moving? ::
          s.calls[c].original.id == s.calls[d].original.id ==> c == d)
    && (forall c :: AddedBy(s.added, c) <= 1)
    && (forall c :: AddedBy(s.added, c) == 1 ==> c in s.calls && s.calls[c].Booked?)
  }

  /** Every row is still there, under its id, technician's business and key. */
  ghost predicate Persists(rows: seq<Appointment>, rows': seq<Appointment>) {
    |rows| <= |rows'| && forall i | 0 <= i < |rows| ::
      && rows'[i].id == rows[i].id
      && rows'[i].employee.business == rows[i].employee.business && rows'[i].key == rows[i].key
  }

  lemma PersistsKeepsBooking(
    rows: seq<Appointment>, rows': seq<Appointment>, id: AppointmentId, business: nat, key: Option<IdempotencyKey>)
    requires Persists(rows, rows') && HasBooking(rows, id, business, key)
    ensures HasBooking(rows', id, business, key)
  {
    if key.Some? {
      var r :| r in rows && r.id == id && r.employee.business == business && r.key == key;
      var i :| 0 <= i < |rows| && rows[i] == r;
      assert rows'[i] in rows';
    }
  }

  /** A write that leaves locked rows alone keeps every call's promise. */
  lemma WriteKeepsCalls(s: State, rows': seq<Appointment>)
    requires Inv(s) && Persists(s.rows, rows')
    requires forall c | c in s.calls && s.calls[c].Moving? :: s.calls[c].original in rows'
    ensures forall c | c in s.calls :: CallOk(rows', s.calls[c])
  {
    forall c | c in s.calls ensures CallOk(rows', s.calls[c]) {
      var call := s.calls[c];
      if call.Booked? {
        PersistsKeepsBooking(s.rows, rows', call.id, call.business, call.key);
      }
    }
  }

  /** Rewriting one row in place leaves every other row that a move has locked. */
  lemma RewriteSparesLocked(s: State, k: nat, row: Appointment, c: CallId)
    requires Inv(s) && k < |s.rows| && c in s.calls && s.calls[c].Moving?
    requires s.calls[c].original.id != s.rows[k].id
    ensures s.calls[c].original in s.rows[k := row]
  {
    var i :| 0 <= i < |s.rows| && s.rows[i] == s.calls[c].original;
    assert s.rows[k := row][i] == s.rows[i];
  }

  /** A call that answers or narrows its tries without writing. */
  lemma AnswerKeepsInv(s: State, c: CallId, call: Call)
    requires Inv(s) && CallOk(s.rows, call)
    requires AddedBy(s.added, c) == 0
    requires call.Moving? ==>
      (c in s.calls && s.calls[c].Moving? && s.calls[c].original == call.original) || !Locked(s, call.original.id)
    ensures Inv(Answer(s, c, call))
  {
  }

  lemma InsertKeepsInv(s: State, c: CallId, call: Call, row: Appointment)
    requires Inv(s) && c in s.calls && s.calls[c].Confirming? && call.Booked? && call.id == row.id
    requires row.startsAt < row.endsAt && !HasId(s.rows, row.id) && !Excluded(s.rows, row) && !KeyTaken(s.rows, row)
    requires call.key.Some? ==> HoldsKey(row, call.business, call.customer, call.key.value)
    ensures Inv(State(s.rows + [row], s.calls[c := call], s.added + [(c, row.id)]))
    ensures Persists(s.rows, s.rows + [row])
  {
    var rows' := s.rows + [row];
    var added' := s.added + [(c, row.id)];
    InsertKeepsValid(s.rows, row);
    WriteKeepsCalls(s, rows');
    assert row in rows';
    assert CallOk(rows', call);
    assert added'[..|added'| - 1] == s.added;
    assert forall d :: AddedBy(added', d) == AddedBy(s.added, d) + if d == c then 1 else 0;
  }

  lemma InsertStepKeepsInv(s: State, c: CallId, t: State)
    requires Inv(s) && c in s.calls && s.calls[c].Confirming? && s.calls[c].tries != [] && Inserts(s, c, t)
    ensures Inv(t) && Persists(s.rows, t.rows)
  {
    var call := s.calls[c];
    var row := call.tries[0].(id := FreshId(s.rows));
    assert CallOk(s.rows, call);
    assert ConfirmRow(call.tries[0], call.business, call.customer, call.key);
    if t.rows != s.rows {
      InsertKeepsInv(s, c, Booked(call.business, call.customer, call.key, row.id), row);
    } else {
      assert forall r | r in call.tries[1..] :: r in call.tries;
      AnswerKeepsInv(s, c, t.calls[c]);
    }
  }

  lemma MoveKeepsInv(s: State, c: CallId, row: Appointment)
    requires Inv(s) && c in s.calls && s.calls[c].Moving? && MoveRow(row, s.calls[c].original)
    requires !Excluded(s.rows, row) && !KeyTaken(s.rows, row)
    ensures var k := IndexOf(s.rows, s.calls[c].original.id);
            && k < |s.rows| && Persists(s.rows, s.rows[k := row])
            && Inv(State(s.rows[k := row], s.calls[c := Moved(row.id)], s.added))
  {
    var original := s.calls[c].original;
    var k := IndexOf(s.rows, original.id);
    assert CallOk(s.rows, s.calls[c]);
    OriginalIsAtItsId(s.rows, original);
    ReplaceKeepsValid(s.rows, k, row);
    AnswerKeepsInv(s, c, Failed);
    var others := Answer(s, c, Failed);
    forall d | d in others.calls && others.calls[d].Moving? ensures others.calls[d].original in s.rows[k := row] {
      RewriteSparesLocked(others, k, row, d);
    }
    WriteKeepsCalls(others, s.rows[k := row]);
  }

  lemma MoveStepKeepsInv(s: State, c: CallId, t: State)
    requires Inv(s) && c in s.calls && s.calls[c].Moving? && s.calls[c].tries != [] && Moves(s, c, t)
    ensures Inv(t) && Persists(s.rows, t.rows)
  {
    var call := s.calls[c];
    assert CallOk(s.rows, call);
    assert MoveRow(call.tries[0], call.original);
    if t.calls[c].Moved? {
      MoveKeepsInv(s, c, call.tries[0]);
    } else {
      assert forall r | r in call.tries[1..] :: r in call.tries;
      AnswerKeepsInv(s, c, t.calls[c]);
    }
  }

  lemma UpdateStepKeepsInv(s: State, k: nat, row: Appointment)
    requires Inv(s) && k < |s.rows| && !Locked(s, s.rows[k].id) && Rewrites(row, s.rows[k]) && !Excluded(s.rows, row)
    ensures Inv(s.(rows := s.rows[k := row])) && Persists(s.rows, s.rows[k := row])
  {
    assert !KeyTaken(s.rows, row);
    ReplaceKeepsValid(s.rows, k, row);
    forall d | d in s.calls && s.calls[d].Moving? ensures s.calls[d].original in s.rows[k := row] {
      RewriteSparesLocked(s, k, row, d);
    }
    WriteKeepsCalls(s, s.rows[k := row]);
  }

  lemma StepKeepsInv(s: State, a: Action, t: State)
    requires Inv(s) && Step(s, a, t)
    ensures Inv(t) && Persists(s.rows, t.rows)
  {
    match a
    case BeginConfirm(c, business, customer, key, tries) => AnswerKeepsInv(s, c, t.calls[c]);
    case TryInsert(c) => InsertStepKeepsInv(s, c, t);
    case BeginMove(c, k, tries) =>
      assert s.rows[k] in s.rows;
      AnswerKeepsInv(s, c, Moving(s.rows[k], tries));
    case TryMove(c) => MoveStepKeepsInv(s, c, t);
    case GiveUp(c) => AnswerKeepsInv(s, c, Failed);
    case Cancel(k) => UpdateStepKeepsInv(s, k, s.rows[k].(status := Cancelled));
    case StaffInsert(row) =>
      InsertKeepsValid(s.rows, row);
      WriteKeepsCalls(s, t.rows);
    case StaffUpdate(k, row) => UpdateStepKeepsInv(s, k, row);
  }

  // ---- Runs ----

  ghost predicate IsRun(run: seq<State>, actions: seq<Action>) {
    && |run| == |actions| + 1
    && StoreValid(run[0].rows) && run[0].calls == map[] && run[0].added == []
    && forall i | 0 <= i < |actions| :: Step(run[i], actions[i], run[i + 1])
  }

  lemma {:induction false} RunKeepsInv(run: seq<State>, actions: seq<Action>, i: nat)
    requires IsRun(run, actions) && i < |run|
    ensures Inv(run[i])
  {
    if i > 0 {
      RunKeepsInv(run, actions, i - 1);
      StepKeepsInv(run[i - 1], actions[i - 1], run[i]);
    }
  }

  /**
   In every interleaving, at every moment, the confirmed reservations of one technician are
   pairwise disjoint and no idempotency key occurs twice.
   */
  lemma ReservationsStayDisjoint(run: seq<State>, actions: seq<Action>, i: nat)
    requires IsRun(run, actions) && i < |run|
    ensures forall x, y | 0 <= x < y < |run[i].rows| ::
              var a, b := run[i].rows[x], run[i].rows[y];
              && (a.status.Confirmed? && b.status.Confirmed? && a.employee == b.employee ==>
                    a.ReservedEnd() <= b.ReservedStart() || b.ReservedEnd() <= a.ReservedStart())
              && (a.key.Some? ==> a.key != b.key)
  {
    RunKeepsInv(run, actions, i);
    forall x, y | 0 <= x < y < |run[i].rows| ensures !Clash(run[i].rows[x], run[i].rows[y]) {
    }
  }

  /** Each confirm adds one row or none; one that added a row has answered with it. */
  lemma EachConfirmAddsAtMostOneRow(run: seq<State>, actions: seq<Action>, i: nat, c: CallId)
    requires IsRun(run, actions) && i < |run|
    ensures AddedBy(run[i].added, c) <= 1
    ensures AddedBy(run[i].added, c) == 1 ==> c in run[i].calls && run[i].calls[c].Booked?
  {
    RunKeepsInv(run, actions, i);
  }

  lemma {:induction false} RowsPersist(run: seq<State>, actions: seq<Action>, i: nat, j: nat)
    requires IsRun(run, actions) && i <= j < |run|
    ensures Persists(run[i].rows, run[j].rows)
    decreases j - i
  {
    if i < j {
      RunKeepsInv(run, actions, j - 1);
      StepKeepsInv(run[j - 1], actions[j - 1], run[j]);
      RowsPersist(run, actions, i, j - 1);
    }
  }

  /** Only staff hand an appointment to another customer. */
  lemma OnlyStaffChangesCustomers(run: seq<State>, actions: seq<Action>, i: nat, x: nat)
    requires IsRun(run, actions) && i < |actions| && x < |run[i].rows| <= |run[i + 1].rows|
    ensures run[i + 1].rows[x].customer == run[i].rows[x].customer || (actions[i].StaffUpdate? && actions[i].k == x)
  {
    RunKeepsInv(run, actions, i);
    assert Step(run[i], actions[i], run[i + 1]);
    match actions[i] {
      case TryMove(c) =>
        var call := run[i].calls[c];
        assert CallOk(run[i].rows, call);
        assert MoveRow(call.tries[0], call.original);
        OriginalIsAtItsId(run[i].rows, call.original);
      case _ =>
    }
  }

  lemma OriginalIsAtItsId(rows: seq<Appointment>, original: Appointment)
    requires StoreValid(rows) && original in rows
    ensures IndexOf(rows, original.id) < |rows| && rows[IndexOf(rows, original.id)] == original
  {
    var i :| 0 <= i < |rows| && rows[i] == original;
  }

  /**
   Idempotency: two calls with one key that ever succeed, at any two moments of a run, return
   the same appointment, and it is the only row with that key; cancelling it, moving it or
   handing it to another customer in between changes nothing.
   */
  lemma RetriesReturnTheSameAppointment(
    run: seq<State>, actions: seq<Action>, i: nat, j: nat, c: CallId, d: CallId)
    requires IsRun(run, actions) && i <= j < |run|
    requires c in run[i].calls && run[i].calls[c].Booked? && run[i].calls[c].key.Some?
    requires d in run[j].calls && run[j].calls[d].Booked?
    requires run[j].calls[d].key == run[i].calls[c].key
    ensures run[j].calls[d].id == run[i].calls[c].id
    ensures forall r | r in run[j].rows :: r.key == run[i].calls[c].key ==> r.id == run[i].calls[c].id
  {
    RunKeepsInv(run, actions, i);
    RunKeepsInv(run, actions, j);
    RowsPersist(run, actions, i, j);
    var first, second := run[i].calls[c], run[j].calls[d];
    assert CallOk(run[i].rows, first) && CallOk(run[j].rows, second);
    PersistsKeepsBooking(run[i].rows, run[j].rows, first.id, first.business, first.key);
    KeyIsUnique(run[j].rows, first.id, first.business, first.key);
    KeyIsUnique(run[j].rows, second.id, second.business, second.key);
  }

  lemma KeyIsUnique(
    rows: seq<Appointment>, id: AppointmentId, business: nat, key: Option<IdempotencyKey>)
    requires StoreValid(rows) && key.Some? && HasBooking(rows, id, business, key)
    ensures forall r | r in rows :: r.key == key ==> r.id == id
    ensures exists r | r in rows :: r.key == key
  {
    var found :| found in rows && found.id == id && found.employee.business == business && found.key == key;
    forall r | r in rows && r.key == key ensures r.id == id {
      var x :| 0 <= x < |rows| && rows[x] == found;
      var y :| 0 <= y < |rows| && rows[y] == r;
      assert x != y ==> !SameKey(rows[if x < y then x else y], rows[if x < y then y else x]);
    }
  }
}
