/**
 Gregorian dates and the end of a billing cycle.  A cycle end moves the month index by exactly
 the cycle's months and clamps the day to the month reached; the time of day is kept.
 */
module Calendar {
  datatype Cycle = Monthly | Quarterly | Annual

  datatype Date = Date(year: int, month: int, day: int)

  const DAY := 86_400_000_000

  function Months(cycle: Cycle): int {
    match cycle
    case Monthly => 1
    case Quarterly => 3
    case Annual => 12
  }

  predicate IsLeap(year: int) {
    year % 4 == 0 && (year % 100 != 0 || year % 400 == 0)
  }

  function DaysIn(year: int, month: int): (days: int)
    ensures 28 <= days <= 31
  {
    if month == 2 then if IsLeap(year) then 29 else 28
    else if month in {4, 6, 9, 11} then 30
    else 31
  }

  predicate IsDate(d: Date) {
    1 <= d.year && 1 <= d.month <= 12 && 1 <= d.day <= DaysIn(d.year, d.month)
  }

  /** The number of whole months since year zero. */
  function MonthIndex(d: Date): int {
    12 * d.year + d.month - 1
  }

  function Clamped(index: int, day: int): Date {
    var year, month := index / 12, index % 12 + 1;
    Date(year, month, if day <= DaysIn(year, month) then day else DaysIn(year, month))
  }

  /** _cycle_end on the date part. */
  function CycleEndDate(d: Date, cycle: Cycle): Date {
    var monthIndex := d.month - 1 + Months(cycle);
    var year, month := d.year + monthIndex / 12, monthIndex % 12 + 1;
    var day := if d.day <= DaysIn(year, month) then d.day else DaysIn(year, month);
    Date(year, month, day)
  }

  // ---- Day numbers ----

  function YearDays(year: int): int {
    if IsLeap(year) then 366 else 365
  }

  function DaysBeforeYear(year: int): int {
    if year <= 1 then 0 else DaysBeforeYear(year - 1) + YearDays(year - 1)
  }

  function DaysBeforeMonth(year: int, month: int): int
    requires 1 <= month <= 13
    decreases month
  {
    if month == 1 then 0 else DaysBeforeMonth(year, month - 1) + DaysIn(year, month - 1)
  }

  /** Days since 0001-01-01. */
  function DayNumber(d: Date): int
    requires 1 <= d.month <= 12
  {
    DaysBeforeYear(d.year) + DaysBeforeMonth(d.year, d.month) + d.day - 1
  }

  ghost predicate NotAfter(d: Date, e: Date) {
    MonthIndex(d) < MonthIndex(e) || (MonthIndex(d) == MonthIndex(e) && d.day <= e.day)
  }

  /** The rule of leap years in closed form. */
  lemma {:induction false} DaysBeforeYearIs(year: int)
    requires year >= 1
    ensures DaysBeforeYear(year) == 365 * (year - 1) + (year - 1) / 4 - (year - 1) / 100 + (year - 1) / 400
  {
    if year > 1 {
      DaysBeforeYearIs(year - 1);
      QuotientStep(year - 1, 4);
      QuotientStep(year - 1, 100);
      QuotientStep(year - 1, 400);
      MultiplesNest(year - 1);
    }
  }

  lemma QuotientStep(n: int, k: int)
    requires k > 0
    ensures n / k - (n - 1) / k == if n % k == 0 then 1 else 0
  {
    var q, r := n / k, n % k;
    assert n == q * k + r;
    if r == 0 {
      QuotientIs(n - 1, k, q - 1, k - 1);
    } else {
      QuotientIs(n - 1, k, q, r - 1);
    }
  }

  lemma QuotientIs(n: int, k: int, q: int, r: int)
    requires k > 0 && n == q * k + r && 0 <= r < k
    ensures n / k == q
  {
    var q', r' := n / k, n % k;
    assert q' * k + r' == q * k + r;
    if q' < q {
      Scaled(q - q', k);
    } else if q < q' {
      Scaled(q' - q, k);
    }
  }

  lemma Scaled(m: int, k: int)
    requires m >= 1 && k > 0
    ensures m * k >= k
  {
  }

  lemma MultiplesNest(year: int)
    ensures year % 400 == 0 ==> year % 100 == 0
    ensures year % 100 == 0 ==> year % 4 == 0
  {
  }

  lemma WholeYear(year: int)
    ensures DaysBeforeMonth(year, 13) == YearDays(year)
  {
    FirstHalf(year);
    assert DaysBeforeMonth(year, 9) == DaysBeforeMonth(year, 7) + 62;
    assert DaysBeforeMonth(year, 11) == DaysBeforeMonth(year, 9) + 61;
    assert DaysBeforeMonth(year, 13) == DaysBeforeMonth(year, 11) + 61;
  }

  lemma FirstHalf(year: int)
    ensures DaysBeforeMonth(year, 7) == if IsLeap(year) then 182 else 181
  {
    assert DaysBeforeMonth(year, 3) == if IsLeap(year) then 60 else 59;
    assert DaysBeforeMonth(year, 5) == DaysBeforeMonth(year, 3) + 61;
    assert DaysBeforeMonth(year, 7) == DaysBeforeMonth(year, 5) + 61;
  }

  /** Days before the month with this index. */
  function MonthStart(index: int): int {
    DaysBeforeYear(index / 12) + DaysBeforeMonth(index / 12, index % 12 + 1)
  }

  lemma MonthStartStep(index: int)
    requires index >= 12
    ensures MonthStart(index + 1) == MonthStart(index) + DaysIn(index / 12, index % 12 + 1)
  {
    var year, month := index / 12, index % 12 + 1;
    if month < 12 {
      assert (index + 1) / 12 == year && (index + 1) % 12 == month;
    } else {
      assert (index + 1) / 12 == year + 1 && (index + 1) % 12 == 0;
      WholeYear(year);
    }
  }

  function MonthLength(index: int): int {
    DaysIn(index / 12, index % 12 + 1)
  }

  lemma {:induction false} MonthStartGap(index: int, later: int)
    requires 12 <= index < later
    ensures MonthStart(later) >= MonthStart(index) + MonthLength(index)
    decreases later - index
  {
    MonthStartGrows(later - 1);
    if index < later - 1 {
      MonthStartGap(index, later - 1);
    }
  }

  lemma MonthStartGrows(index: int)
    requires index >= 12
    ensures MonthStart(index + 1) == MonthStart(index) + MonthLength(index) && MonthLength(index) > 0
  {
    MonthStartStep(index);
  }

  lemma DayNumberOfMonth(d: Date)
    requires IsDate(d)
    ensures MonthIndex(d) / 12 == d.year && MonthIndex(d) % 12 == d.month - 1
    ensures DayNumber(d) == MonthStart(MonthIndex(d)) + d.day - 1
  {
  }

  /** Day numbers order dates exactly as month index and day do. */
  lemma DayNumberOrders(d: Date, e: Date)
    requires IsDate(d) && IsDate(e)
    ensures DayNumber(d) <= DayNumber(e) <==> NotAfter(d, e)
    ensures DayNumber(d) == DayNumber(e) <==> d == e
  {
    DayNumberOfMonth(d);
    DayNumberOfMonth(e);
    if MonthIndex(d) < MonthIndex(e) {
      MonthStartGap(MonthIndex(d), MonthIndex(e));
    } else if MonthIndex(e) < MonthIndex(d) {
      MonthStartGap(MonthIndex(e), MonthIndex(d));
    }
  }

  // ---- Cycle ends ----

  /** The month index moves by exactly the cycle's months, and the day is the same or the month's last. */
  lemma CycleEndShiftsMonths(d: Date, cycle: Cycle)
    requires IsDate(d)
    ensures var e := CycleEndDate(d, cycle);
            && IsDate(e)
            && MonthIndex(e) == MonthIndex(d) + Months(cycle)
            && e == Clamped(MonthIndex(d) + Months(cycle), d.day)
            && (e.day == d.day || (e.day < d.day && e.day == DaysIn(e.year, e.month)))
  {
    var i := d.month - 1 + Months(cycle);
    assert i == 12 * (i / 12) + i % 12;
    QuotientIs(MonthIndex(d) + Months(cycle), 12, d.year + i / 12, i % 12);
  }

  lemma CycleEndIsLater(d: Date, cycle: Cycle)
    requires IsDate(d)
    ensures DayNumber(CycleEndDate(d, cycle)) > DayNumber(d)
  {
    CycleEndShiftsMonths(d, cycle);
    DayNumberOrders(CycleEndDate(d, cycle), d);
  }

  lemma CycleEndIsMonotone(d: Date, e: Date, cycle: Cycle)
    requires IsDate(d) && IsDate(e) && DayNumber(d) <= DayNumber(e)
    ensures DayNumber(CycleEndDate(d, cycle)) <= DayNumber(CycleEndDate(e, cycle))
  {
    DayNumberOrders(d, e);
    CycleEndShiftsMonths(d, cycle);
    CycleEndShiftsMonths(e, cycle);
    DayNumberOrders(CycleEndDate(d, cycle), CycleEndDate(e, cycle));
  }

  /** From a date to one in the next month. */
  lemma NextMonthGap(d: Date, e: Date)
    requires IsDate(d) && IsDate(e) && MonthIndex(e) == MonthIndex(d) + 1
    ensures DayNumber(e) - DayNumber(d) == DaysIn(d.year, d.month) + e.day - d.day
  {
    DayNumberOfMonth(d);
    DayNumberOfMonth(e);
    MonthStartGrows(MonthIndex(d));
  }

  lemma MonthlyCycleLength(d: Date)
    requires IsDate(d)
    ensures 28 <= DayNumber(CycleEndDate(d, Monthly)) - DayNumber(d) <= 31
  {
    var e := CycleEndDate(d, Monthly);
    CycleEndShiftsMonths(d, Monthly);
    NextMonthGap(d, e);
    ClampedGap(DaysIn(d.year, d.month), DaysIn(e.year, e.month), d.day, e.day);
  }

  /** From day `day` of a month of `length` days to the same day, clamped, of one of `next` days. */
  lemma ClampedGap(length: int, next: int, day: int, clamped: int)
    requires 28 <= length <= 31 && 28 <= next <= 31 && 1 <= day <= length
    requires clamped == if day <= next then day else next
    ensures 28 <= length + clamped - day <= 31
  {
  }

  /** Three monthly extensions never pass one quarterly extension. */
  lemma ThreeMonthlyWithinQuarterly(d: Date)
    requires IsDate(d)
    ensures var m1 := CycleEndDate(d, Monthly); var m2 := CycleEndDate(m1, Monthly);
            DayNumber(CycleEndDate(m2, Monthly)) <= DayNumber(CycleEndDate(d, Quarterly))
  {
    var m1 := CycleEndDate(d, Monthly);
    var m2 := CycleEndDate(m1, Monthly);
    CycleEndShiftsMonths(d, Monthly);
    CycleEndShiftsMonths(m1, Monthly);
    CycleEndShiftsMonths(m2, Monthly);
    CycleEndShiftsMonths(d, Quarterly);
    DayNumberOrders(CycleEndDate(m2, Monthly), CycleEndDate(d, Quarterly));
  }

  // ---- Instants ----

  function NextDate(d: Date): Date {
    if d.day < DaysIn(d.year, d.month) then Date(d.year, d.month, d.day + 1)
    else if d.month < 12 then Date(d.year, d.month + 1, 1)
    else Date(d.year + 1, 1, 1)
  }

  /** The date a number of days after 0001-01-01. */
  function DateOf(days: nat): (d: Date)
    ensures IsDate(d)
  {
    if days == 0 then Date(1, 1, 1) else NextDate(DateOf(days - 1))
  }

  lemma {:induction false} DateOfDayNumber(days: nat)
    ensures DayNumber(DateOf(days)) == days
  {
    if days > 0 {
      DateOfDayNumber(days - 1);
      NextDateIsNext(DateOf(days - 1));
    }
  }

  lemma NextDateIsNext(d: Date)
    requires IsDate(d)
    ensures IsDate(NextDate(d)) && DayNumber(NextDate(d)) == DayNumber(d) + 1
  {
    if d.day == DaysIn(d.year, d.month) {
      NextMonthGap(d, NextDate(d));
    }
  }

  /** _cycle_end on an instant: microseconds since 0001-01-01 in UTC. */
  function CycleEnd(anchor: nat, cycle: Cycle): (end: nat)
    ensures end > anchor && end % DAY == anchor % DAY
  {
    var day := DayNumber(CycleEndDate(DateOf(anchor / DAY), cycle));
    DateOfDayNumber(anchor / DAY);
    CycleEndIsLater(DateOf(anchor / DAY), cycle);
    LaterDay(anchor, day);
    AtDay(day, anchor % DAY)
  }

  function AtDay(day: int, timeOfDay: int): int {
    day * DAY + timeOfDay
  }

  lemma LaterDay(anchor: nat, day: int)
    requires day > anchor / DAY
    ensures AtDay(day, anchor % DAY) > anchor && AtDay(day, anchor % DAY) % DAY == anchor % DAY
  {
    QuotientIs(AtDay(day, anchor % DAY), DAY, day, anchor % DAY);
  }

  /** Two dates share a cycle end exactly when they are equal or both are clamped to the end of one month. */
  predicate ClampedTogether(d: Date, e: Date, cycle: Cycle) {
    var length := MonthLength(MonthIndex(d) + Months(cycle));
    d != e && d.year == e.year && d.month == e.month && length <= d.day && length <= e.day
  }

  lemma SameCycleEnd(d: Date, e: Date, cycle: Cycle)
    requires IsDate(d) && IsDate(e)
    ensures CycleEndDate(d, cycle) == CycleEndDate(e, cycle) <==> d == e || ClampedTogether(d, e, cycle)
  {
    CycleEndShiftsMonths(d, cycle);
    CycleEndShiftsMonths(e, cycle);
    SameMonth(d, e);
    if MonthIndex(d) == MonthIndex(e) {
      ClampedSame(MonthIndex(d) + Months(cycle), d.day, e.day);
    }
  }

  lemma SameMonth(d: Date, e: Date)
    requires IsDate(d) && IsDate(e)
    ensures MonthIndex(d) == MonthIndex(e) <==> d.year == e.year && d.month == e.month
  {
  }

  lemma ClampedSame(index: int, day: int, other: int)
    ensures Clamped(index, day) == Clamped(index, other) <==>
              day == other || (MonthLength(index) <= day && MonthLength(index) <= other)
  {
  }

  /**
   Because the time of day is kept, a later anchor may end earlier: exactly when its date and the
   earlier one are different days of one month, both clamped to the end of the month reached, and
   the later anchor has the earlier time of day.
   */
  lemma CycleEndOrder(a: nat, b: nat, cycle: Cycle)
    requires a <= b
    ensures CycleEnd(a, cycle) > CycleEnd(b, cycle) <==>
              ClampedTogether(DateOf(a / DAY), DateOf(b / DAY), cycle) && a % DAY > b % DAY
  {
    var d, e := DateOf(a / DAY), DateOf(b / DAY);
    DateOfDayNumber(a / DAY);
    DateOfDayNumber(b / DAY);
    DaysInOrder(a, b);
    CycleEndIsMonotone(d, e, cycle);
    CycleEndShiftsMonths(d, cycle);
    CycleEndShiftsMonths(e, cycle);
    DayNumberOrders(CycleEndDate(d, cycle), CycleEndDate(e, cycle));
    SameCycleEnd(d, e, cycle);
    AtDayOrder(DayNumber(CycleEndDate(d, cycle)), DayNumber(CycleEndDate(e, cycle)), a % DAY, b % DAY);
    SameDayOrder(a, b);
  }

  lemma SameDayOrder(a: nat, b: nat)
    requires a <= b
    ensures a / DAY == b / DAY ==> a % DAY <= b % DAY
  {
  }

  const HOUR := 3_600_000_000

  /** In every year: a monthly cycle from 30 January, 23:00, ends after one from 31 January, 01:00. */
  lemma LaterAnchorEndsEarlier(year: int, a: int, b: int)
    requires year >= 1
    requires a == AtDay(DayNumber(Date(year, 1, 30)), 23 * HOUR) && b == AtDay(DayNumber(Date(year, 1, 31)), HOUR)
    ensures 0 <= a < b && CycleEnd(a, Monthly) > CycleEnd(b, Monthly)
  {
    var d, e := Date(year, 1, 30), Date(year, 1, 31);
    AnchorOn(d, 23 * HOUR, a);
    AnchorOn(e, HOUR, b);
    EarlierDay(DayNumber(d), 23 * HOUR, HOUR);
    EndOfJanuaryIsClamped(year);
    CycleEndOrder(a, b, Monthly);
  }

  lemma EndOfJanuaryIsClamped(year: int)
    ensures ClampedTogether(Date(year, 1, 30), Date(year, 1, 31), Monthly)
  {
    FebruaryFollows(Date(year, 1, 30));
  }

  lemma EarlierDay(day: int, r: int, q: int)
    requires r < DAY && 0 <= q
    ensures AtDay(day, r) < AtDay(day + 1, q)
  {
  }

  lemma AnchorOn(d: Date, time: int, anchor: int)
    requires IsDate(d) && 0 <= time < DAY && anchor == AtDay(DayNumber(d), time)
    ensures anchor >= 0 && DateOf(anchor / DAY) == d && anchor % DAY == time
  {
    DateOfIs(d);
    QuotientIs(anchor, DAY, DayNumber(d), time);
  }

  lemma FebruaryFollows(d: Date)
    requires d.month == 1
    ensures MonthLength(MonthIndex(d) + 1) <= 29
  {
    assert (12 * d.year + 1) / 12 == d.year && (12 * d.year + 1) % 12 == 1;
  }

  lemma DateOfIs(d: Date)
    requires IsDate(d)
    ensures DayNumber(d) >= 0 && DateOf(DayNumber(d)) == d
  {
    DayNumberOrders(Date(1, 1, 1), d);
    DateOfDayNumber(DayNumber(d));
    DayNumberOrders(DateOf(DayNumber(d)), d);
  }

  lemma DaysInOrder(a: nat, b: nat)
    requires a <= b
    ensures a / DAY <= b / DAY
  {
  }

  lemma AtDayOrder(m: int, n: int, r: int, q: int)
    requires 0 <= r < DAY && 0 <= q < DAY
    ensures m < n ==> AtDay(m, r) < AtDay(n, q)
    ensures m == n ==> (AtDay(m, r) <= AtDay(n, q) <==> r <= q)
  {
  }
}
