/**
 * The compare-and-swap lock on `nextRunAt`: any number of ticks, in any number of processes, race for one
 * source. A racer reads the row, computes the next run from its copy, and swaps; each is one atomic step.
 */
module Lock {
  import opened Common
  import opened NextRun

  datatype Row = Row(nextRunAt: int, lastRunAt: Option<int>)

  datatype Racer = HasRead(copy: Row) | HasComputed(copy: Row, newNextRunAt: int)

  /** A racer that got the lock, and the value it swapped out. */
  datatype Acquisition = Acquisition(racer: nat, expected: int)

  datatype State = State(clock: int, row: Row, racers: map<nat, Racer>, acquired: seq<Acquisition>)

  datatype Step = Advance(t: int) | Read(racer: nat) | Compute(racer: nat) | Swap(racer: nat)

  predicate Enabled(schedule: Schedule, s: State, step: Step) {
    match step
    case Advance(t) => s.clock <= t
    case Read(i) => i !in s.racers && s.row.nextRunAt <= s.clock
    case Compute(i) => i in s.racers && s.racers[i].HasRead?
                       && CalculateNextRunAt(schedule, s.racers[i].copy.lastRunAt, s.clock).Ok?
    case Swap(i) => i in s.racers && s.racers[i].HasComputed?
  }

  function Next(schedule: Schedule, s: State, step: Step): State
    requires Enabled(schedule, s, step)
  {
    match step
    case Advance(t) => s.(clock := t)
    case Read(i) => s.(racers := s.racers[i := HasRead(s.row)])
    case Compute(i) =>
      var copy := s.racers[i].copy;
      s.(racers := s.racers[i := HasComputed(copy, CalculateNextRunAt(schedule, copy.lastRunAt, s.clock).value)])
    case Swap(i) =>
      var r := s.racers[i];
      var s' := s.(racers := s.racers - {i});
      if s.row.nextRunAt == r.copy.nextRunAt then
        s'.(row := Row(r.newNextRunAt, Some(s.clock)), acquired := s.acquired + [Acquisition(i, r.copy.nextRunAt)])
      else s'
  }

  predicate ValidRun(schedule: Schedule, s: State, steps: seq<Step>)
    decreases |steps|
  {
    steps == [] || (Enabled(schedule, s, steps[0]) && ValidRun(schedule, Next(schedule, s, steps[0]), steps[1..]))
  }

  function Run(schedule: Schedule, s: State, steps: seq<Step>): State
    requires ValidRun(schedule, s, steps)
    decreases |steps|
  {
    if steps == [] then s else Run(schedule, Next(schedule, s, steps[0]), steps[1..])
  }

  // ---------------------------------------------------------------- one swap

  /** The one way a swap can leave the value alone: an interval schedule, due at this very millisecond, on its own grid. */
  ghost predicate SwapsInPlace(schedule: Schedule, copy: Row, now: int) {
    schedule.Interval? && now == copy.nextRunAt && OnGrid(Base(copy.lastRunAt, now), schedule.ms, copy.nextRunAt)
  }

  /** For a due source the computed value is never below the stored one, and is above it except in that one case. */
  lemma SwapRaisesIff(schedule: Schedule, copy: Row, now: int)
    requires WellFormed(schedule) && copy.nextRunAt <= now
    ensures var r := CalculateNextRunAt(schedule, copy.lastRunAt, now);
            r.Ok? && r.value >= copy.nextRunAt && (r.value > copy.nextRunAt <==> !SwapsInPlace(schedule, copy, now))
  {
    NextRunIsLeastAdmissible(schedule, copy.lastRunAt, now);
  }

  // ---------------------------------------------------------------- over whole runs

  ghost predicate Raises(schedule: Schedule, s: State, step: Step) {
    step.Compute? && step.racer in s.racers ==> !SwapsInPlace(schedule, s.racers[step.racer].copy, s.clock)
  }

  /** No racer computes in the one bad case. Cron schedules, and clocks past the stored value, never meet it. */
  ghost predicate AlwaysRaises(schedule: Schedule, s: State, steps: seq<Step>)
    requires ValidRun(schedule, s, steps)
    decreases |steps|
  {
    steps == [] || (Raises(schedule, s, steps[0]) && AlwaysRaises(schedule, Next(schedule, s, steps[0]), steps[1..]))
  }

  ghost predicate Inv(s: State) {
    && (forall i :: i in s.racers ==> s.racers[i].copy.nextRunAt <= s.clock)
    && (forall i :: i in s.racers && s.racers[i].HasComputed? ==> s.racers[i].copy.nextRunAt < s.racers[i].newNextRunAt)
    && (forall k :: 0 <= k < |s.acquired| ==> s.acquired[k].expected < s.row.nextRunAt)
    && (forall j, k :: 0 <= j < k < |s.acquired| ==> s.acquired[j].expected < s.acquired[k].expected)
  }

  lemma StepKeeps(schedule: Schedule, s: State, step: Step)
    requires WellFormed(schedule) && Inv(s) && Enabled(schedule, s, step) && Raises(schedule, s, step)
    ensures Inv(Next(schedule, s, step))
    ensures s.row.nextRunAt <= Next(schedule, s, step).row.nextRunAt
  {
    if step.Compute? {
      SwapRaisesIff(schedule, s.racers[step.racer].copy, s.clock);
    }
  }

  lemma {:induction false} RunKeeps(schedule: Schedule, s: State, steps: seq<Step>)
    requires WellFormed(schedule) && Inv(s) && ValidRun(schedule, s, steps) && AlwaysRaises(schedule, s, steps)
    ensures Inv(Run(schedule, s, steps)) && s.row.nextRunAt <= Run(schedule, s, steps).row.nextRunAt
    decreases |steps|
  {
    if steps != [] {
      StepKeeps(schedule, s, steps[0]);
      RunKeeps(schedule, Next(schedule, s, steps[0]), steps[1..]);
    }
  }

  /**
   * Lock exclusivity. However the racers interleave, no value of `nextRunAt` is acquired twice — so among
   * racers that read the same value at most one executes — and acquisitions happen in increasing order.
   */
  lemma {:induction false} EachValueAcquiredOnce(schedule: Schedule, clock: int, row: Row, steps: seq<Step>)
    requires WellFormed(schedule)
    requires var s := State(clock, row, map[], []); ValidRun(schedule, s, steps) && AlwaysRaises(schedule, s, steps)
    ensures var acquired := Run(schedule, State(clock, row, map[], []), steps).acquired;
            forall j, k :: 0 <= j < k < |acquired| ==> acquired[j].expected < acquired[k].expected
  {
    RunKeeps(schedule, State(clock, row, map[], []), steps);
  }

  lemma {:induction false} CronAlwaysRaises(schedule: Schedule, s: State, steps: seq<Step>)
    requires schedule.Cron? && ValidRun(schedule, s, steps)
    ensures AlwaysRaises(schedule, s, steps)
    decreases |steps|
  {
    if steps != [] {
      CronAlwaysRaises(schedule, Next(schedule, s, steps[0]), steps[1..]);
    }
  }

  /** For cron schedules exclusivity holds in every run, whatever the clock does. */
  lemma {:induction false} CronLockIsExclusive(schedule: Schedule, clock: int, row: Row, steps: seq<Step>)
    requires WellFormed(schedule) && schedule.Cron? && ValidRun(schedule, State(clock, row, map[], []), steps)
    ensures var acquired := Run(schedule, State(clock, row, map[], []), steps).acquired;
            forall j, k :: 0 <= j < k < |acquired| ==> acquired[j].expected < acquired[k].expected
  {
    CronAlwaysRaises(schedule, State(clock, row, map[], []), steps);
    EachValueAcquiredOnce(schedule, clock, row, steps);
  }

  /**
   * And only then: whenever a source is due in its bad case, two ticks in that millisecond both execute the
   * same slot, because the first swap puts back the value the second one expects.
   */
  lemma {:induction false} OtherwiseTwoTicksExecute(schedule: Schedule, row: Row, from: int, now: int)
    requires WellFormed(schedule) && SwapsInPlace(schedule, row, now) && from <= now
    ensures var s := State(from, row, map[], []);
            var steps := [Advance(now)] + [Read(1), Read(2), Compute(1), Compute(2), Swap(1), Swap(2)];
            && ValidRun(schedule, s, steps)
            && Run(schedule, s, steps).acquired == [Acquisition(1, row.nextRunAt), Acquisition(2, row.nextRunAt)]
  {
    TwoTicksExecute(schedule, row, now);
    RunCons(schedule, State(from, row, map[], []), Advance(now), [Read(1), Read(2), Compute(1), Compute(2), Swap(1), Swap(2)]);
  }

  lemma {:induction false} TwoTicksExecute(schedule: Schedule, row: Row, now: int)
    requires WellFormed(schedule) && SwapsInPlace(schedule, row, now)
    ensures var s := State(now, row, map[], []);
            var steps := [Read(1), Read(2), Compute(1), Compute(2), Swap(1), Swap(2)];
            && ValidRun(schedule, s, steps)
            && Run(schedule, s, steps).acquired == [Acquisition(1, row.nextRunAt), Acquisition(2, row.nextRunAt)]
  {
    SwapRaisesIff(schedule, row, now);
    var s0 := State(now, row, map[], []);
    var s1 := Next(schedule, s0, Read(1));
    var s2 := Next(schedule, s1, Read(2));
    var s3 := Next(schedule, s2, Compute(1));
    var s4 := Next(schedule, s3, Compute(2));
    TwoSwaps(schedule, s4, row);
    RunCons(schedule, s3, Compute(2), [Swap(1), Swap(2)]);
    RunCons(schedule, s2, Compute(1), [Compute(2)] + [Swap(1), Swap(2)]);
    RunCons(schedule, s1, Read(2), [Compute(1)] + ([Compute(2)] + [Swap(1), Swap(2)]));
    RunCons(schedule, s0, Read(1), [Read(2)] + ([Compute(1)] + ([Compute(2)] + [Swap(1), Swap(2)])));
    assert [Read(1), Read(2), Compute(1), Compute(2), Swap(1), Swap(2)]
           == [Read(1)] + ([Read(2)] + ([Compute(1)] + ([Compute(2)] + [Swap(1), Swap(2)])));
  }

  /** The first swap puts back the value the second one expects. */
  lemma {:induction false} TwoSwaps(schedule: Schedule, s: State, row: Row)
    requires s.row == row && s.acquired == []
    requires forall i :: i == 1 || i == 2 ==> i in s.racers && s.racers[i] == HasComputed(row, row.nextRunAt)
    ensures ValidRun(schedule, s, [Swap(1), Swap(2)])
    ensures Run(schedule, s, [Swap(1), Swap(2)]).acquired == [Acquisition(1, row.nextRunAt), Acquisition(2, row.nextRunAt)]
  {
    var s1 := Next(schedule, s, Swap(1));
    var s2 := Next(schedule, s1, Swap(2));
    assert ValidRun(schedule, s2, []) && Run(schedule, s2, []) == s2;
    RunCons(schedule, s1, Swap(2), []);
    RunCons(schedule, s, Swap(1), [Swap(2)]);
    assert [Swap(2)] + [] == [Swap(2)] && [Swap(1)] + [Swap(2)] == [Swap(1), Swap(2)];
  }

  lemma {:induction false} RunCons(schedule: Schedule, s: State, step: Step, rest: seq<Step>)
    requires Enabled(schedule, s, step) && ValidRun(schedule, Next(schedule, s, step), rest)
    ensures ValidRun(schedule, s, [step] + rest)
    ensures Run(schedule, s, [step] + rest) == Run(schedule, Next(schedule, s, step), rest)
  {
    assert ([step] + rest)[1..] == rest;
  }
}
