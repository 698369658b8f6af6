/** When a schedule fires next. */
module NextRun {
  import opened Common

  /**
   * An interval in milliseconds, or a cron expression given by its iterator:
   * `nextAfter(t)` is the first occurrence after `t`.
   */
  datatype Schedule = Interval(ms: int) | Cron(nextAfter: int -> int)

  datatype ScheduleError = InvalidDate

  /** The iterator lists a set of instants without bound: it moves forward and skips none. */
  ghost predicate IsIterator(nextAfter: int -> int) {
    && (forall t :: t < nextAfter(t))
    && (forall t, u :: t <= u < nextAfter(t) ==> nextAfter(u) == nextAfter(t))
  }

  ghost predicate Occurs(nextAfter: int -> int, t: int) {
    nextAfter(t - 1) == t
  }

  ghost predicate WellFormed(schedule: Schedule) {
    match schedule
    case Interval(ms) => ms > 0
    case Cron(nextAfter) => IsIterator(nextAfter)
  }

  /** Math.ceil(a / b). */
  function CeilDiv(a: int, b: int): int
    requires b != 0
  {
    if b > 0 then -((-a) / b) else -(a / (-b))
  }

  /** The interval branch. A zero interval divides by zero and yields an invalid date. */
  function NextInterval(base: int, interval: int, now: int): Result<int, ScheduleError> {
    var next := base + interval;
    if next > now then Ok(next)
    else if interval == 0 then Err(InvalidDate)
    else Ok(base + CeilDiv(now - base, interval) * interval)
  }

  function Base(lastRunAt: Option<int>, now: int): int {
    if lastRunAt.Some? then lastRunAt.value else now
  }

  /** What `calculateNextRunAt` yields; for cron, what its search loop finds (see `FindNextCron`). */
  function CalculateNextRunAt(schedule: Schedule, lastRunAt: Option<int>, now: int): Result<int, ScheduleError> {
    match schedule
    case Interval(ms) => NextInterval(Base(lastRunAt, now), ms, now)
    case Cron(nextAfter) => Ok(nextAfter(Max(Base(lastRunAt, now), now)))
  }

  /** The search loop: step the iterator from the base time until it passes `now`. */
  method FindNextCron(nextAfter: int -> int, base: int, now: int) returns (next: int)
    requires IsIterator(nextAfter)
    ensures next > base && next > now && Occurs(nextAfter, next)
    ensures forall u :: Occurs(nextAfter, u) && u > base && u > now ==> next <= u
    ensures next == nextAfter(Max(base, now))
  {
    next := nextAfter(base);
    while next <= now
      invariant next > base && Occurs(nextAfter, next)
      invariant forall u :: base <= u < next ==> nextAfter(u) <= next
      invariant next > now ==> nextAfter(Max(base, now)) == next
      decreases now - next
    {
      next := nextAfter(next);
    }
    LeastOccurrence(nextAfter, Max(base, now));
  }

  lemma LeastOccurrence(nextAfter: int -> int, t: int)
    requires IsIterator(nextAfter)
    ensures Occurs(nextAfter, nextAfter(t)) && nextAfter(t) > t
    ensures forall u :: Occurs(nextAfter, u) && u > t ==> nextAfter(t) <= u
  {
    forall u | Occurs(nextAfter, u) && u > t ensures nextAfter(t) <= u {
      assert u - 1 < nextAfter(t) ==> nextAfter(u - 1) == nextAfter(t);
    }
  }

  /** An instant a whole number (at least one) of intervals after the base. */
  ghost predicate OnGrid(base: int, interval: int, t: int) {
    exists k: int :: k >= 1 && t == base + k * interval
  }

  lemma CeilDivBounds(a: int, b: int)
    requires b > 0
    ensures (CeilDiv(a, b) - 1) * b < a <= CeilDiv(a, b) * b
  {
    var q := (-a) / b;
    assert -a == q * b + (-a) % b;
    assert (CeilDiv(a, b) - 1) * b == -q * b - b;
    assert CeilDiv(a, b) * b == -q * b;
  }

  /** The interval branch picks the least grid instant at or after `now`. */
  lemma NextIntervalIsLeast(base: int, interval: int, now: int)
    requires interval > 0
    ensures var r := NextInterval(base, interval, now);
            && r.Ok? && r.value >= now && OnGrid(base, interval, r.value)
            && forall t :: OnGrid(base, interval, t) && t >= now ==> r.value <= t
  {
    var m := if base + interval > now then 1 else CeilDiv(now - base, interval);
    CeilDivBounds(now - base, interval);
    if m != 1 || base + interval <= now {
      assert m >= 1 by {
        if m <= 0 { MulMonotone(m, 0, interval); }
      }
    }
    var r := base + m * interval;
    assert NextInterval(base, interval, now) == Ok(r);
    assert OnGrid(base, interval, r);
    forall t | OnGrid(base, interval, t) && t >= now ensures r <= t {
      var k: int :| k >= 1 && t == base + k * interval;
      if k < m {
        MulMonotone(k, m - 1, interval);
      } else {
        MulMonotone(m, k, interval);
      }
    }
  }

  lemma MulMonotone(a: int, b: int, n: int)
    requires a <= b && n > 0
    ensures a * n <= b * n
  {
  }

  /**
   * Both branches: the least admissible instant. A cron schedule fires strictly after `now`; an interval
   * schedule may fire at `now` itself.
   */
  lemma NextRunIsLeastAdmissible(schedule: Schedule, lastRunAt: Option<int>, now: int)
    requires WellFormed(schedule)
    ensures var base, r := Base(lastRunAt, now), CalculateNextRunAt(schedule, lastRunAt, now);
            && r.Ok? && r.value >= now
            && (schedule.Interval? ==>
                  && OnGrid(base, schedule.ms, r.value)
                  && forall t :: OnGrid(base, schedule.ms, t) && t >= now ==> r.value <= t)
            && (schedule.Cron? ==>
                  && Occurs(schedule.nextAfter, r.value) && r.value > base && r.value > now
                  && forall t :: Occurs(schedule.nextAfter, t) && t > base && t > now ==> r.value <= t)
  {
    match schedule
    case Interval(ms) => NextIntervalIsLeast(Base(lastRunAt, now), ms, now);
    case Cron(nextAfter) => LeastOccurrence(nextAfter, Max(Base(lastRunAt, now), now));
  }

  /** The occurrences every `n` milliseconds, as an iterator. */
  function Every(n: int): int -> int
    requires n > 0
  {
    (t: int) => (t / n + 1) * n
  }

  lemma QuotientInRange(t: int, u: int, n: int)
    requires n > 0 && t <= u < (t / n + 1) * n
    ensures u / n == t / n
  {
    var q := t / n;
    assert q * n <= t && u - q * n < n;
    assert u == q * n + (u - q * n);
    var d := u / n - q;
    assert d * n == (u - q * n) - u % n;
    if d >= 1 { MulMonotone(1, d, n); }
    if d <= -1 { MulMonotone(d, -1, n); }
  }

  /** Such schedules are proper: every positive interval, and a cron expression that occurs every `n` milliseconds. */
  lemma PeriodicSchedules(n: int)
    requires n > 0
    ensures WellFormed(Interval(n)) && WellFormed(Cron(Every(n)))
  {
    var next := Every(n);
    forall t ensures t < next(t) {
      assert t == (t / n) * n + t % n;
    }
    forall t, u | t <= u < next(t) ensures next(u) == next(t) {
      QuotientInRange(t, u, n);
    }
  }

  /** No next run can be computed exactly for an interval of zero behind a base that is not in the future. */
  lemma NoNextRunIff(schedule: Schedule, lastRunAt: Option<int>, now: int)
    ensures CalculateNextRunAt(schedule, lastRunAt, now).Err?
            <==> schedule == Interval(0) && (lastRunAt.Some? ==> lastRunAt.value <= now)
  {
  }

  lemma CeilDivNegative(a: int, b: int)
    requires b < 0
    ensures a + b < CeilDiv(a, b) * b <= a
  {
    var q := a / (-b);
    assert a == q * (-b) + a % (-b);
    assert CeilDiv(a, b) * b == (-q) * b == q * (-b);
  }

  /** A negative interval, which nothing refuses here, names an instant in the past: the source is due again at once. */
  lemma NegativeIntervalIsDue(interval: int, lastRunAt: Option<int>, now: int)
    requires interval < 0
    ensures var base, r := Base(lastRunAt, now), CalculateNextRunAt(Interval(interval), lastRunAt, now);
            && r.Ok?
            && (base + interval > now ==> r.value == base + interval)
            && (base + interval <= now ==> now + interval < r.value <= now)
  {
    CeilDivNegative(now - Base(lastRunAt, now), interval);
  }
}
