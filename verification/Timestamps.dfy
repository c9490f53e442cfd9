/** Timestamps are nanoseconds on the steady clock; durations are cast by truncation toward zero. */
module Timestamps {

  const MICROSECOND := 1000
  const MILLISECOND := 1_000_000
  const SECOND := 1_000_000_000
  const MICROSECONDS_PER_SECOND := 1_000_000

  /** The division of C++: it truncates toward zero. */
  function Truncate(a: int, b: int): int
    requires b > 0
  {
    if a >= 0 then a / b else -((-a) / b)
  }

  function Add(t: int, count: int, unit: int): int {
    t + count * unit
  }

  /** How many whole units lie between two timestamps. */
  function Differ(st: int, ed: int, unit: int): int
    requires unit > 0
  {
    Truncate(ed - st, unit)
  }

  /** Adding a count of units and counting the units between gives the count back. */
  lemma DifferOfAdd(t: int, count: int, unit: int)
    requires unit in {MICROSECOND, MILLISECOND, SECOND}
    ensures Differ(t, Add(t, count, unit), unit) == count
  {
    if unit == MICROSECOND {
    } else if unit == MILLISECOND {
    } else {
    }
  }

  /** Truncation drops less than one unit, toward zero. */
  lemma TruncationIsTowardZero(a: int, b: int)
    requires b > 0
    ensures a >= 0 ==> 0 <= a - b * Truncate(a, b) < b
    ensures a <= 0 ==> 0 <= b * Truncate(a, b) - a < b
  {
    if a < 0 {
      assert -a == b * (-a / b) + -a % b;
    } else {
      assert a == b * (a / b) + a % b;
    }
  }

  /** A second is a thousand milliseconds is a million microseconds is a thousand million nanoseconds. */
  lemma UnitsAgree(t: int)
    ensures Add(t, 1, SECOND) == Add(t, 1000, MILLISECOND) == Add(t, 1000 * 1000, MICROSECOND) == t + 1000 * 1000 * 1000
    ensures MICROSECONDS_PER_SECOND == Differ(t, Add(t, 1, SECOND), MICROSECOND)
  {
  }

  datatype TimeSpec = TimeSpec(sec: int, nsec: int)

  function Nanoseconds(ts: TimeSpec): int {
    ts.sec * SECOND + ts.nsec
  }

  /** The relative time handed to the kernel: whole microseconds, never less than a hundred. */
  function HowMuchTimeFromNow(now: int, when: int): TimeSpec {
    var d := Differ(now, when, MICROSECOND);
    var us := if d < 100 then 100 else d;
    TimeSpec(us / MICROSECONDS_PER_SECOND, us % MICROSECONDS_PER_SECOND * 1000)
  }

  /** The timespec is normalised and at least 100 microseconds; a timer armed with it at `now` fires
      less than a microsecond before its deadline at the earliest, and at the latest at the
      deadline or 100 microseconds from now, whichever is later. */
  lemma TimeSpecIsNormalised(now: int, when: int)
    ensures var ts := HowMuchTimeFromNow(now, when);
            && ts.sec >= 0 && 0 <= ts.nsec < SECOND && ts.nsec % 1000 == 0
            && Nanoseconds(ts) >= 100 * MICROSECOND
            && when - MICROSECOND < now + Nanoseconds(ts)
            && now + Nanoseconds(ts) <= (if when < now + 100 * MICROSECOND then now + 100 * MICROSECOND else when)
  {
    var d := Differ(now, when, MICROSECOND);
    var us := if d < 100 then 100 else d;
    assert us == us / MICROSECONDS_PER_SECOND * MICROSECONDS_PER_SECOND + us % MICROSECONDS_PER_SECOND;
    assert Nanoseconds(HowMuchTimeFromNow(now, when)) == us * 1000;
  }

  /** When less than 100 microseconds are left the timer fires at or after its deadline. */
  lemma ShortTimersAreNotEarly(now: int, when: int)
    requires when - now <= 100 * MICROSECOND
    ensures now + Nanoseconds(HowMuchTimeFromNow(now, when)) >= when
  {
    TimeSpecIsNormalised(now, when);
  }

  /** Exactly how early: the deadline is missed by the nanoseconds the truncation drops. */
  lemma EarlyBy(now: int, when: int)
    requires when - now >= 100 * MICROSECOND
    ensures now + Nanoseconds(HowMuchTimeFromNow(now, when)) == when - (when - now) % MICROSECOND
  {
    var us := Differ(now, when, MICROSECOND);
    assert us == us / MICROSECONDS_PER_SECOND * MICROSECONDS_PER_SECOND + us % MICROSECONDS_PER_SECOND;
  }
}
