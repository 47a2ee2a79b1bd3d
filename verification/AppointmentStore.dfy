/**
 The appointments table: what its constraints allow to be stored.  The exclusion
 constraint compares reserved windows of confirmed rows of one technician; the partial
 unique index covers rows that carry an idempotency key.
 */
module AppointmentStore {
  import opened BookingDomain
  import opened Seqs

  predicate Clash(a: Appointment, b: Appointment) {
    && a.status.Confirmed? && b.status.Confirmed? && a.employee == b.employee
    && Overlaps(a.ReservedStart(), a.ReservedEnd(), b.ReservedStart(), b.ReservedEnd())
  }

  predicate SameKey(a: Appointment, b: Appointment) {
    a.key.Some? && a.key == b.key
  }

  /** Every state the constraints permit. */
  predicate StoreValid(rows: seq<Appointment>) {
    && (forall i | 0 <= i < |rows| :: rows[i].startsAt < rows[i].endsAt)
    && (forall i, j | 0 <= i < j < |rows| ::
          rows[i].id != rows[j].id && !Clash(rows[i], rows[j]) && !SameKey(rows[i], rows[j]))
  }

  /** A write of `a` violates the exclusion constraint against some other row. */
  predicate Excluded(rows: seq<Appointment>, a: Appointment) {
    exists b | b in rows :: b.id != a.id && Clash(a, b)
  }

  predicate KeyTaken(rows: seq<Appointment>, a: Appointment) {
    exists b | b in rows :: b.id != a.id && SameKey(a, b)
  }

  predicate HasId(rows: seq<Appointment>, id: AppointmentId) {
    exists a | a in rows :: a.id == id
  }

  /** The position of the row with this id, or the number of rows. */
  function IndexOf(rows: seq<Appointment>, id: AppointmentId): (i: nat)
    ensures i <= |rows|
    ensures i < |rows| ==> rows[i].id == id
    ensures forall j | 0 <= j < i :: rows[j].id != id
  {
    if rows == [] then 0 else if rows[0].id == id then 0 else 1 + IndexOf(rows[1..], id)
  }

  /** uuid4: some id no row uses yet. */
  function FreshId(rows: seq<Appointment>): (id: AppointmentId)
    ensures forall a | a in rows :: a.id < id
  {
    if rows == [] then 0
    else
      var rest := FreshId(rows[1..]);
      if rest <= rows[0].id then rows[0].id + 1 else rest
  }

  function FindByKey(
    rows: seq<Appointment>, business: nat, customer: CustomerId, key: IdempotencyKey): (r: Option<Appointment>)
    ensures r.Some? ==> r.value in rows && HoldsKey(r.value, business, customer, key)
    ensures r.None? ==> forall a | a in rows :: !HoldsKey(a, business, customer, key)
  {
    if rows == [] then None
    else if HoldsKey(rows[0], business, customer, key) then Some(rows[0])
    else FindByKey(rows[1..], business, customer, key)
  }

  predicate HoldsKey(a: Appointment, business: nat, customer: CustomerId, key: IdempotencyKey) {
    a.employee.business == business && a.customer == customer && a.key == Some(key)
  }

  lemma InsertKeepsValid(rows: seq<Appointment>, a: Appointment)
    requires StoreValid(rows) && a.startsAt < a.endsAt
    requires !HasId(rows, a.id) && !Excluded(rows, a) && !KeyTaken(rows, a)
    ensures StoreValid(rows + [a])
  {
    forall i | 0 <= i < |rows|
      ensures rows[i].id != a.id && !Clash(rows[i], a) && !SameKey(rows[i], a)
    {
      assert rows[i] in rows;
    }
  }

  lemma ReplaceKeepsValid(rows: seq<Appointment>, k: nat, a: Appointment)
    requires StoreValid(rows) && k < |rows| && a.startsAt < a.endsAt
    requires a.id == rows[k].id && !Excluded(rows, a) && !KeyTaken(rows, a)
    ensures StoreValid(rows[k := a])
  {
    forall i | 0 <= i < |rows| && i != k
      ensures rows[i].id != a.id && !Clash(rows[i], a) && !Clash(a, rows[i])
      ensures !SameKey(rows[i], a) && !SameKey(a, rows[i])
    {
      assert rows[i] in rows;
    }
  }

  datatype WriteResult = Written | ExclusionViolated | KeyViolated

  class AppointmentTable {
    var rows: seq<Appointment>

    constructor ()
      ensures rows == [] && StoreValid(rows)
    {
      rows := [];
    }

    method Insert(a: Appointment) returns (r: WriteResult)
      requires StoreValid(rows) && a.startsAt < a.endsAt && !HasId(rows, a.id)
      modifies this
      ensures StoreValid(rows)
      ensures r == if KeyTaken(old(rows), a) then KeyViolated
                   else if Excluded(old(rows), a) then ExclusionViolated else Written
      ensures rows == if r.Written? then old(rows) + [a] else old(rows)
    {
      if KeyTaken(rows, a) {
        return KeyViolated;
      }
      if Excluded(rows, a) {
        return ExclusionViolated;
      }
      InsertKeepsValid(rows, a);
      rows := rows + [a];
      return Written;
    }

    method Update(k: nat, a: Appointment) returns (r: WriteResult)
      requires StoreValid(rows) && k < |rows| && a.id == rows[k].id && a.startsAt < a.endsAt
      modifies this
      ensures StoreValid(rows)
      ensures r == if KeyTaken(old(rows), a) then KeyViolated
                   else if Excluded(old(rows), a) then ExclusionViolated else Written
      ensures rows == if r.Written? then old(rows)[k := a] else old(rows)
    {
      if KeyTaken(rows, a) {
        return KeyViolated;
      }
      if Excluded(rows, a) {
        return ExclusionViolated;
      }
      ReplaceKeepsValid(rows, k, a);
      rows := rows[k := a];
      return Written;
    }
  }
}
