/** What calls of `processSource` leave behind: the record and the row of one call, and the records of whole runs. */
module ExecutionRecords {
  import opened Common
  import opened NextRun
  import opened Windows
  import opened Scheduler

  // ---------------------------------------------------------------- one call

  /** The positions of the executed records at or after `t`. */
  function Counted(records: seq<Record>, t: int): set<int> {
    set i | 0 <= i < |records| && records[i].status == Executed && records[i].executedAt >= t
  }

  function Size(records: seq<Record>, t: int): nat {
    |Counted(records, t)|
  }

  lemma SizeSnoc(records: seq<Record>, r: Record, t: int)
    ensures Size(records + [r], t) == Size(records, t) + if Since(t)(r) then 1 else 0
  {
    var all, n := records + [r], |records|;
    assert forall i :: 0 <= i < n ==> all[i] == records[i];
    assert Counted(all, t) == if Since(t)(r) then Counted(records, t) + {n} else Counted(records, t);
    assert n !in Counted(records, t);
  }

  lemma SizeOfNone(t: int)
    ensures Size([], t) == 0 && CountSince([], t) == 0
  {
    assert Counted([], t) == {};
  }

  /** The number the budget looks at is how many there are. */
  lemma {:induction false} CountIsSize(records: seq<Record>, t: int)
    ensures CountSince(records, t) == Size(records, t)
  {
    if records == [] {
      SizeOfNone(t);
    } else {
      var init, last := records[..|records| - 1], records[|records| - 1];
      CountIsSize(init, t);
      SizeSnoc(init, last, t);
      CountSnoc(init, last, t);
      assert records == init + [last];
    }
  }

  /** Window by window: the check refuses exactly if some limit has been reached in its current window. */
  lemma ThrottlesIff(s: State, copy: Source, x: Execution)
    ensures var now, offset, limits := x.checkedAt, copy.offset, copy.budget;
            Throttles(s, copy, x) <==>
            || (limits.perHour.Some? && CountSince(s.records, WindowStart(Hour, now, offset)) >= limits.perHour.value)
            || (limits.perDay.Some? && CountSince(s.records, WindowStart(Day, now, offset)) >= limits.perDay.value)
            || (limits.perWeek.Some?
                && CountSince(s.records, Max(WindowStart(Week, now, offset), WindowStart(Month, now, offset))) >= limits.perWeek.value)
            || (limits.perMonth.Some? && CountSince(s.records, WindowStart(Month, now, offset)) >= limits.perMonth.value)
  {
    WindowsNest(x.checkedAt, copy.offset);
    forall w: Window ensures LimitOf(copy.budget, w).Some? ==>
        (Remaining(LimitOf(copy.budget, w).value, WindowCount(s.records, w, x.checkedAt, copy.offset)) > 0
         <==> CountSince(s.records, CountStart(w, x.checkedAt, copy.offset)) < LimitOf(copy.budget, w).value)
    {
    }
    assert LimitOf(copy.budget, Hour) == copy.budget.perHour && LimitOf(copy.budget, Day) == copy.budget.perDay;
    assert LimitOf(copy.budget, Week) == copy.budget.perWeek && LimitOf(copy.budget, Month) == copy.budget.perMonth;
  }

  /** What a call needs to come to its work. */
  lemma WorksIff(s: State, x: Execution)
    ensures Works(s, x) <==>
            && CalculateNextRunAt(s.source.schedule, s.source.lastRunAt, x.computedAt).Ok? && !x.lockThrows
            && (x.trigger.Manual? || s.source.nextRunAt.Some?)
            && !x.checkThrows && !Throttles(s, s.source, x)
  {
  }

  /**
   * The records of one call, case by case: each kind of ending adds its own record with its own time, if that record
   * is stored, and the catch branch adds one more.
   */
  lemma RecordsOfCall(s: State, x: Execution)
    ensures var records' := Process(s, x).records;
            var caught := if x.caughtStored then [Record(Failed, x.endedAt)] else [];
            && (Works(s, x) && x.outcome.Succeeds? ==> records' == s.records + if x.stored then [Record(Executed, x.recordedAt)] else [])
            && (Works(s, x) && x.outcome.ParseFails? ==> records' == s.records + if x.stored then [Record(Failed, x.recordedAt)] else [])
            && (Works(s, x) && x.outcome.PipelineFails? ==>
                  records' == s.records + (if x.stored then [Record(Failed, x.recordedAt)] else []) + if x.late then caught else [])
            && (Works(s, x) && x.outcome.NoPlugin? ==> records' == s.records)
            && (Works(s, x) && x.outcome.Throws? ==> records' == s.records + caught)
            && (Locks(s, x) && x.checkThrows ==> records' == s.records + caught)
            && (Locks(s, x) && !x.checkThrows && Throttles(s, s.source, x) ==>
                  records' == s.records + if x.stored then [Record(SkippedBudget, x.recordedAt)] else [])
            && (!Locks(s, x) ==> records' == s.records + if LockThrows(s.source, x) then caught else [])
  {
  }

  /** The row of one call: a locked source has its next run computed and its last run set, whatever comes of the work. */
  lemma RowOfCall(s: State, x: Execution)
    ensures var next := CalculateNextRunAt(s.source.schedule, s.source.lastRunAt, x.computedAt);
            var source' := Process(s, x).source;
            && (next.Ok? && !x.lockThrows ==> source'.nextRunAt == Some(next.value))
            && (next.Err? || x.lockThrows ==> source'.nextRunAt == s.source.nextRunAt)
            && (source'.lastRunAt == if Locks(s, x) then Some(x.lockedAt) else s.source.lastRunAt)
            && source' == s.source.(nextRunAt := source'.nextRunAt, lastRunAt := source'.lastRunAt,
                                    consecutiveErrors := source'.consecutiveErrors, status := source'.status)
  {
  }

  /** What the switches write: a pause only an active source, a resume only an inactive one with a next run, a toggle any. */
  lemma SwitchesWrite(s: State, on: bool)
    ensures var source := s.source;
            var next := CalculateNextRunAt(source.schedule, Some(s.clock), s.clock);
            && Next(s, Pause) == (if source.status == Active then s.(source := source.(status := Disabled, pausedAt := Some(s.clock))) else s)
            && (source.status == Active || next.Err? ==> Next(s, Resume) == s)
            && (source.status != Active && next.Ok? ==>
                  Next(s, Resume) == s.(source := source.(status := Active, isEnabled := true, nextRunAt := Some(next.value),
                                                          consecutiveErrors := 0, pausedAt := None)))
            && Next(s, Toggle(on)).source.isEnabled == on
            && (on ==> Next(s, Toggle(on)).source.status == Active) && (!on ==> Next(s, Toggle(on)).source.status == Disabled)
            && Next(s, Toggle(on)).source == source.(isEnabled := on, status := Next(s, Toggle(on)).source.status)
  {
  }

  // ---------------------------------------------------------------- whole runs

  /** The step's work succeeds, and its record is stored with a time at or after `t`. */
  predicate RecordsSuccess(s: State, step: Step, t: int) {
    && step.Execute? && Works(s, step.x)
    && step.x.outcome.Succeeds? && step.x.stored && step.x.recordedAt >= t
  }

  /** The recorded successes of a run at or after `t`; the records are not looked at. */
  function SuccessesSince(s: State, steps: seq<Step>, t: int): nat
    requires ValidRun(s, steps)
    decreases |steps|
  {
    if steps == [] then 0
    else (if RecordsSuccess(s, steps[0], t) then 1 else 0) + SuccessesSince(Next(s, steps[0]), steps[1..], t)
  }

  lemma CountAdded(records: seq<Record>, added: seq<Record>, t: int)
    requires |added| <= 2 && (|added| == 2 ==> added[1].status == Failed)
    ensures CountSince(records + added, t)
            == CountSince(records, t) + if added != [] && added[0].status == Executed && added[0].executedAt >= t then 1 else 0
  {
    if added == [] {
      assert records + added == records;
    } else {
      CountSnoc(records, added[0], t);
      if |added| == 2 {
        CountSnoc(records + [added[0]], added[1], t);
        assert records + [added[0]] + [added[1]] == records + added;
      } else {
        assert [added[0]] == added;
      }
    }
  }

  lemma ExecuteCounts(s: State, x: Execution, t: int)
    ensures CountSince(Process(s, x).records, t) == CountSince(s.records, t) + if RecordsSuccess(s, Execute(x), t) then 1 else 0
  {
    RecordsOfCall(s, x);
    var caught := if x.caughtStored then [Record(Failed, x.endedAt)] else [];
    CountAdded(s.records, [], t);
    CountAdded(s.records, caught, t);
    CountAdded(s.records, [Record(Executed, x.recordedAt)], t);
    CountAdded(s.records, [Record(SkippedBudget, x.recordedAt)], t);
    CountAdded(s.records, [Record(Failed, x.recordedAt)], t);
    CountAdded(s.records, [Record(Failed, x.recordedAt)] + caught, t);
    assert s.records + ([Record(Failed, x.recordedAt)] + caught) == s.records + [Record(Failed, x.recordedAt)] + caught;
    assert s.records + [] == s.records;
  }

  /** Nothing but a call that is not overtaken touches the records. */
  lemma OtherStepsRecordNothing(s: State, step: Step)
    requires Enabled(s, step) && !step.Execute?
    ensures Next(s, step).records == s.records
  {
  }

  /**
   * The budget counts everything: over every run, the executions on record since any time are those there were and
   * the recorded successes of the run since then, no fewer and no more.
   */
  lemma {:induction false} EverySuccessCounts(s: State, steps: seq<Step>, t: int)
    requires ValidRun(s, steps)
    ensures CountSince(Run(s, steps).records, t) == CountSince(s.records, t) + SuccessesSince(s, steps, t)
    decreases |steps|
  {
    if steps != [] {
      if steps[0].Execute? {
        ExecuteCounts(s, steps[0].x, t);
      } else {
        OtherStepsRecordNothing(s, steps[0]);
      }
      EverySuccessCounts(Next(s, steps[0]), steps[1..], t);
    }
  }

  /**
   * Budget safety in terms of the run alone: at every later moment its recorded successes since the start of the
   * window (for the week, since the later of Monday and the first of the month) are within the limit.
   */
  lemma {:induction false} SuccessesStayWithinBudget(s: State, steps: seq<Step>, w: Window, t: int)
    requires Initial(s) && ValidRun(s, steps) && t >= Run(s, steps).clock
    requires LimitOf(s.source.budget, w).Some? && LimitOf(s.source.budget, w).value >= 0
    ensures var limit, offset := LimitOf(s.source.budget, w).value, s.source.offset;
            && (w != Week ==> SuccessesSince(s, steps, WindowStart(w, t, offset)) <= limit)
            && (w == Week ==> SuccessesSince(s, steps, Max(WindowStart(Week, t, offset), WindowStart(Month, t, offset))) <= limit)
  {
    var offset := s.source.offset;
    BudgetIsNeverExceeded(s, steps, w, t);
    var from := if w == Week then Max(WindowStart(Week, t, offset), WindowStart(Month, t, offset)) else WindowStart(w, t, offset);
    EverySuccessCounts(s, steps, from);
  }

  /**
   * The limits bite: once a run's recorded successes in the current window reach the limit, the next call does no
   * work, however its work would end, and all it leaves is a record of having been skipped.
   */
  lemma {:induction false} SkippedAtTheLimit(s: State, steps: seq<Step>, w: Window, x: Execution)
    requires ValidRun(s, steps) && Locks(Run(s, steps), x) && !x.checkThrows
    requires LimitOf(s.source.budget, w).Some?
    requires SuccessesSince(s, steps, CountStart(w, x.checkedAt, s.source.offset)) >= LimitOf(s.source.budget, w).value
    ensures var s' := Run(s, steps);
            && !Works(s', x)
            && Process(s', x).records == s'.records + (if x.stored then [Record(SkippedBudget, x.recordedAt)] else [])
            && Process(s', x).source.lastRunAt == Some(x.lockedAt)
            && Process(s', x).source.consecutiveErrors == s'.source.consecutiveErrors
  {
    var s' := Run(s, steps);
    RunKeepsConfiguration(s, steps);
    EverySuccessCounts(s, steps, CountStart(w, x.checkedAt, s.source.offset));
    assert Remaining(LimitOf(s'.source.budget, w).value, WindowCount(s'.records, w, x.checkedAt, s'.source.offset)) <= 0;
    assert Throttles(s', s'.source, x);
    RecordsOfCall(s', x);
  }

  lemma {:induction false} RunKeepsConfiguration(s: State, steps: seq<Step>)
    requires ValidRun(s, steps)
    ensures Run(s, steps).source.budget == s.source.budget && Run(s, steps).source.offset == s.source.offset
    decreases |steps|
  {
    if steps != [] {
      RunKeepsConfiguration(Next(s, steps[0]), steps[1..]);
    }
  }

  /** A tick at the given millisecond that meets nothing but success. */
  function SuccessfulTick(now: int): Execution {
    Execution(Tick, now, now, now, now, now, false, false, Succeeds, true, false, false, true, true)
  }

  /** At most one an hour, every minute. */
  const HOURLY := Source(Active, true, Interval(60_000), 0, Budget(Some(1), None, None, None), Some(0), None, 0, None)

  /** As above, after a run at 0: due again a minute later. */
  predicate RanAtZero(source: Source) {
    && source.status == Active && source.isEnabled && source.schedule == Interval(60_000) && source.offset == 0
    && source.budget == Budget(Some(1), None, None, None) && source.nextRunAt == Some(60_000) && source.lastRunAt == Some(0)
  }

  lemma FirstTickExecutes()
    ensures var s, step := State(0, HOURLY, []), Execute(SuccessfulTick(0));
            && Enabled(s, step)
            && Next(s, step).clock == 0 && Next(s, step).records == [Record(Executed, 0)] && RanAtZero(Next(s, step).source)
  {
    var s, x := State(0, HOURLY, []), SuccessfulTick(0);
    assert CalculateNextRunAt(HOURLY.schedule, None, 0) == Ok(60_000);
    ThrottlesIff(s, HOURLY, x);
    RecordsOfCall(s, x);
    RowOfCall(s, x);
    RaisesIff(s, Execute(x));
  }

  lemma FirstHour(now: int)
    requires 0 <= now < HOUR_MS
    ensures WindowStart(Hour, now, 0) == 0
  {
    StartsInDays(now, 0);
  }

  lemma OneSinceZero()
    ensures CountSince([Record(Executed, 0)], 0) == 1
  {
    assert [] + [Record(Executed, 0)] == [Record(Executed, 0)];
    CountSnoc([], Record(Executed, 0), 0);
  }

  lemma HourIsFull(s: State)
    requires s.records == [Record(Executed, 0)] && RanAtZero(s.source)
    ensures Throttles(s, s.source, SuccessfulTick(60_000))
  {
    FirstHour(60_000);
    OneSinceZero();
    ThrottlesIff(s, s.source, SuccessfulTick(60_000));
  }

  lemma SecondTickSkips(s: State)
    requires s.clock == 60_000 && s.records == [Record(Executed, 0)] && RanAtZero(s.source)
    ensures var step := Execute(SuccessfulTick(60_000));
            Enabled(s, step) && Next(s, step).records == [Record(Executed, 0), Record(SkippedBudget, 60_000)]
  {
    var x := SuccessfulTick(60_000);
    HourIsFull(s);
    assert CalculateNextRunAt(s.source.schedule, Some(0), 60_000).Ok?;
    RecordsOfCall(s, x);
  }

  /** At most one an hour, two ticks a minute apart: the first is executed, the second skipped. */
  lemma {:induction false} SecondTickIsSkipped()
    ensures var steps := [Execute(SuccessfulTick(0)), Advance(60_000), Execute(SuccessfulTick(60_000))];
            && Initial(State(0, HOURLY, [])) && ValidRun(State(0, HOURLY, []), steps)
            && Run(State(0, HOURLY, []), steps).records == [Record(Executed, 0), Record(SkippedBudget, 60_000)]
  {
    var a, b, c := Execute(SuccessfulTick(0)), Advance(60_000), Execute(SuccessfulTick(60_000));
    var s0 := State(0, HOURLY, []);
    FirstTickExecutes();
    var s1 := Next(s0, a);
    var s2 := Next(s1, b);
    SecondTickSkips(s2);
    ThreeSteps(s0, s1, s2, a, b, c);
  }

  lemma {:induction false} ThreeSteps(s0: State, s1: State, s2: State, a: Step, b: Step, c: Step)
    requires Enabled(s0, a) && s1 == Next(s0, a) && Enabled(s1, b) && s2 == Next(s1, b) && Enabled(s2, c)
    ensures ValidRun(s0, [a, b, c]) && Run(s0, [a, b, c]) == Next(s2, c)
  {
    var s3 := Next(s2, c);
    assert ValidRun(s3, []) && Run(s3, []) == s3;
    assert [c][1..] == [] && [b, c][1..] == [c] && [a, b, c][1..] == [b, c];
    assert ValidRun(s2, [c]) && Run(s2, [c]) == s3;
    assert ValidRun(s1, [b, c]) && Run(s1, [b, c]) == s3;
  }
}
