/**
 Instants, local days and slot alignment.  An instant counts microseconds, the
 resolution of a datetime; a business lives in one fixed offset from UTC.
 */
module BookingTime {
  type Instant = int
  type TimeOfDay = t: int | 0 <= t < DAY

  const MINUTE: int := 60_000_000
  const DAY: int := 86_400_000_000

  /** The instant of a wall-clock time on a local day. */
  function Combine(offset: int, day: int, time: int): Instant {
    day * DAY + time - offset
  }

  function LocalDay(offset: int, t: Instant): int {
    (t + offset) / DAY
  }

  predicate InDay(offset: int, day: int, t: Instant) {
    Combine(offset, day, 0) <= t < Combine(offset, day + 1, 0)
  }

  lemma InDayIffLocalDay(offset: int, day: int, t: Instant)
    ensures InDay(offset, day, t) <==> LocalDay(offset, t) == day
  {
    var x := t + offset;
    assert x == DAY * (x / DAY) + x % DAY;
  }

  /** The slot grid of a day: whole multiples of the interval after midnight. */
  predicate OnGrid(offset: int, interval: int, day: int, t: Instant)
    requires interval > 0
  {
    (t - Combine(offset, day, 0)) % (interval * MINUTE) == 0
  }

  /** Rounds up to the grid of the value's own local day. */
  function CeilToSlot(offset: int, interval: int, value: Instant): Instant
    requires interval > 0
  {
    var midnight := Combine(offset, LocalDay(offset, value), 0);
    var step := interval * MINUTE;
    midnight + (value - midnight + step - 1) / step * step
  }

  /** The rounded value is the first grid point at or after the value. */
  lemma CeilToSlotIsFirst(offset: int, interval: int, value: Instant)
    requires interval > 0
    ensures var day := LocalDay(offset, value);
            var c := CeilToSlot(offset, interval, value);
            && value <= c < value + interval * MINUTE
            && OnGrid(offset, interval, day, c)
            && forall t :: OnGrid(offset, interval, day, t) && value <= t ==> c <= t
  {
    var day := LocalDay(offset, value);
    var midnight := Combine(offset, day, 0);
    var step := interval * MINUTE;
    var c := CeilToSlot(offset, interval, value);
    DivRoundUp(value - midnight, step);
    forall t | OnGrid(offset, interval, day, t) && value <= t ensures c <= t {
      if t < c {
        NextMultiple(t - midnight, c - midnight, step);
      }
    }
  }

  lemma DivRoundUp(x: int, step: int)
    requires step > 0
    ensures var q := (x + step - 1) / step * step;
            x <= q < x + step && q % step == 0
  {
    var y := x + step - 1;
    var k := y / step;
    assert y == step * k + y % step;
    MultipleMod(k, step);
  }

  lemma MultipleMod(k: int, step: int)
    requires step > 0
    ensures (k * step) % step == 0
  {
    var x := k * step;
    var r := x % step;
    assert x == step * (x / step) + r;
    assert r == step * (k - x / step);
    MulMonotone(step, 1, k - x / step);
    MulMonotone(step, k - x / step, -1);
  }

  lemma MulMonotone(step: int, a: int, b: int)
    requires step > 0
    ensures a <= b ==> step * a <= step * b
  {
  }

  /** Distinct multiples are at least one step apart, and one step on is a multiple. */
  lemma NextMultiple(x: int, y: int, step: int)
    requires step > 0 && x % step == 0
    ensures (x + step) % step == 0
    ensures x < y && y % step == 0 ==> x + step <= y
  {
    var k := x / step;
    assert x == step * k;
    assert x + step == (k + 1) * step;
    MultipleMod(k + 1, step);
    if x < y && y % step == 0 {
      var m := y / step;
      assert y == step * m;
      MulMonotone(step, m, k);
      MulMonotone(step, k + 1, m);
    }
  }
}
