/** One scheduled source, processed sequentially: budget, error breaker, pause and resume. */
module Scheduler {
  import opened Common
  import opened NextRun
  import opened Windows

  datatype Status = Active | Disabled | Errored

  datatype Budget = Budget(perHour: Option<int>, perDay: Option<int>, perWeek: Option<int>, perMonth: Option<int>)

  datatype Source = Source(
    status: Status,
    isEnabled: bool,
    schedule: Schedule,
    offset: int,
    budget: Budget,
    nextRunAt: Option<int>,
    lastRunAt: Option<int>,
    consecutiveErrors: nat,
    pausedAt: Option<int>)

  datatype RecordStatus = Executed | SkippedBudget | Failed

  datatype Record = Record(status: RecordStatus, executedAt: int)

  datatype Trigger = Tick | Manual

  /** How the work itself ends: the pipeline's result, or one of the early exits. */
  datatype Outcome = Succeeds | PipelineFails | Throws | ParseFails | NoPlugin

  /**
   * One call of `processSource`: the clock at each of its readings, and what goes wrong. `lockThrows`, `checkThrows`:
   * the lock statement or the budget query. `late`: after a failed pipeline was recorded, the failure counter
   * throws; nothing else behind a record lets an exception out. `resetThrows`: the reset after a success, which
   * has a catch of its own. `stored`, `caughtStored`: whether the record of the work and that of the catch branch
   * are stored. `counted`: whether the catch branch's counter update works.
   */
  datatype Execution = Execution(
    trigger: Trigger, computedAt: int, lockedAt: int, checkedAt: int, recordedAt: int, endedAt: int,
    lockThrows: bool, checkThrows: bool, outcome: Outcome, stored: bool, resetThrows: bool, late: bool,
    caughtStored: bool, counted: bool)

  const MAX_CONSECUTIVE_ERRORS := 5

  // ---------------------------------------------------------------- budget

  function LimitOf(b: Budget, w: Window): Option<int> {
    match w
    case Hour => b.perHour
    case Day => b.perDay
    case Week => b.perWeek
    case Month => b.perMonth
  }

  function Since(t: int): Record -> bool {
    (r: Record) => r.status == Executed && r.executedAt >= t
  }

  function CountSince(records: seq<Record>, t: int): nat {
    Count(records, Since(t))
  }

  /** Where the query really starts counting: its WHERE clause also asks for the current month. */
  function CountStart(w: Window, now: int, offset: int): int {
    Max(WindowStart(w, now, offset), WindowStart(Month, now, offset))
  }

  function WindowCount(records: seq<Record>, w: Window, now: int, offset: int): nat {
    CountSince(records, CountStart(w, now, offset))
  }

  function Remaining(limit: int, count: int): int {
    Max(0, limit - count)
  }

  /** Every limited window has something left. */
  predicate WithinBudget(b: Budget, records: seq<Record>, now: int, offset: int) {
    forall w: Window :: LimitOf(b, w).Some? ==>
      Remaining(LimitOf(b, w).value, WindowCount(records, w, now, offset)) > 0
  }

  lemma {:induction false} CountSinceAntitone(records: seq<Record>, t: int, t': int)
    requires t <= t'
    ensures CountSince(records, t') <= CountSince(records, t)
  {
    if records != [] {
      CountSinceAntitone(records[..|records| - 1], t, t');
    }
  }

  lemma CountSnoc(records: seq<Record>, r: Record, t: int)
    ensures CountSince(records + [r], t) == CountSince(records, t) + if Since(t)(r) then 1 else 0
  {
    FilterSnoc(records, r, Since(t));
  }

  lemma CountStartMonotone(w: Window, now: int, later: int, offset: int)
    requires now <= later
    ensures CountStart(w, now, offset) <= CountStart(w, later, offset)
  {
    WindowStartMonotone(w, now, later, offset);
    WindowStartMonotone(Month, now, later, offset);
  }

  /** Hour, day and month are counted over their whole window. */
  lemma CountStartIsWindowStart(w: Window, now: int, offset: int)
    ensures w != Week ==> CountStart(w, now, offset) == WindowStart(w, now, offset)
  {
    WindowsNest(now, offset);
  }

  ghost predicate HiddenFromWeek(r: Record, now: int, offset: int) {
    r.status == Executed && WindowStart(Week, now, offset) <= r.executedAt < WindowStart(Month, now, offset)
  }

  /** The week count is right exactly when nothing was executed this week in the previous month. */
  lemma {:induction false} WeekCountExactIff(records: seq<Record>, now: int, offset: int)
    ensures WindowCount(records, Week, now, offset) == CountSince(records, WindowStart(Week, now, offset))
            <==> forall r :: r in records ==> !HiddenFromWeek(r, now, offset)
  {
    if records != [] {
      var n := |records| - 1;
      assert records == records[..n] + [records[n]];
      assert (forall r :: r in records ==> !HiddenFromWeek(r, now, offset))
             <==> !HiddenFromWeek(records[n], now, offset) && forall r :: r in records[..n] ==> !HiddenFromWeek(r, now, offset);
      WeekCountExactIff(records[..n], now, offset);
      CountSinceAntitone(records[..n], WindowStart(Week, now, offset), CountStart(Week, now, offset));
      CountSnoc(records[..n], records[n], CountStart(Week, now, offset));
      CountSnoc(records[..n], records[n], WindowStart(Week, now, offset));
    }
  }

  /** One a week, executed on Saturday 31 January 1970: the check on Sunday 1 February lets a second one pass. */
  lemma WeeklyLimitCanBeExceeded()
    ensures var budget := Budget(None, None, Some(1), None);
            var records := [Record(Executed, 30 * DAY_MS)];
            var sunday := 31 * DAY_MS;
            && WithinBudget(budget, records, sunday, 0)
            && CountSince(records, WindowStart(Week, sunday, 0)) == 1
  {
    var records, sunday := [Record(Executed, 30 * DAY_MS)], 31 * DAY_MS;
    StartsInDays(sunday, 0);
    assert sunday / DAY_MS == 31;
    assert FirstDay(0) == 0 && FirstDay(1) == 31 && FirstDay(2) == 59;
    if MonthOf(31) < 1 { if MonthOf(31) + 1 < 1 { FirstDayGrows(MonthOf(31) + 1, 1); } }
    if MonthOf(31) > 1 { if 2 < MonthOf(31) { FirstDayGrows(2, MonthOf(31)); } }
    assert MonthOf(31) == 1;
    assert records == [] + records;
    CountSnoc([], records[0], WindowStart(Week, sunday, 0));
    CountSnoc([], records[0], CountStart(Week, sunday, 0));
  }

  // ---------------------------------------------------------------- one execution

  datatype State = State(clock: int, source: Source, records: seq<Record>)

  function AddRecord(s: State, status: RecordStatus, x: Execution): State {
    if x.stored then s.(records := s.records + [Record(status, x.recordedAt)]) else s
  }

  /** A counted failure, one more than the copy of the row says; the threshold moves the source to the error status. */
  function CountFailure(s: State, copy: Source): State {
    var n := copy.consecutiveErrors + 1;
    s.(source := s.source.(consecutiveErrors := n, status := if n >= MAX_CONSECUTIVE_ERRORS then Errored else s.source.status))
  }

  /** The catch branch. */
  function Caught(s: State, copy: Source, x: Execution): State {
    var s' := if x.caughtStored then s.(records := s.records + [Record(Failed, x.endedAt)]) else s;
    if x.counted then CountFailure(s', copy) else s'
  }

  predicate Throttles(s: State, copy: Source, x: Execution) {
    !WithinBudget(copy.budget, s.records, x.checkedAt, copy.offset)
  }

  /** What follows once the source is locked and its next run is set; configuration is read from the copy. */
  function Work(s: State, copy: Source, x: Execution): State {
    if x.checkThrows then s
    else if Throttles(s, copy, x) then AddRecord(s, SkippedBudget, x)
    else match x.outcome
      case NoPlugin => s
      case ParseFails => AddRecord(s, Failed, x)
      case PipelineFails => if x.late then AddRecord(s, Failed, x) else CountFailure(AddRecord(s, Failed, x), copy)
      case Throws => s
      case Succeeds => if x.resetThrows then AddRecord(s, Executed, x) else AddRecord(s, Executed, x).(source := s.source.(consecutiveErrors := 0))
  }

  predicate WorkThrows(s: State, copy: Source, x: Execution) {
    || x.checkThrows
    || (!Throttles(s, copy, x) && (x.outcome.Throws? || (x.outcome.PipelineFails? && x.late)))
  }

  /** No next run can be computed, or the statement that takes the lock throws. */
  predicate LockThrows(copy: Source, x: Execution) {
    CalculateNextRunAt(copy.schedule, copy.lastRunAt, x.computedAt).Err? || x.lockThrows
  }

  /** The call ends without work: a tick repairs a missing next run, or finds that another tick was faster. */
  predicate NotLocked(s: State, copy: Source, x: Execution) {
    x.trigger.Tick? && (copy.nextRunAt.None? || s.source.nextRunAt != copy.nextRunAt)
  }

  /** The try block with a copy of the row that may be out of date; the lock compares the copy with what is stored. */
  function Try(s: State, copy: Source, x: Execution): State {
    if LockThrows(copy, x) then s
    else
      var next := CalculateNextRunAt(copy.schedule, copy.lastRunAt, x.computedAt).value;
      if x.trigger.Tick? && copy.nextRunAt.None? then s.(source := s.source.(nextRunAt := Some(next)))
      else if NotLocked(s, copy, x) then s
      else Work(s.(source := s.source.(nextRunAt := Some(next), lastRunAt := Some(x.lockedAt))), copy, x)
  }

  predicate TryThrows(s: State, copy: Source, x: Execution) {
    LockThrows(copy, x) || (!NotLocked(s, copy, x) && WorkThrows(s, copy, x))
  }

  /** One call. */
  function ProcessCopy(s: State, copy: Source, x: Execution): State {
    var s' := Try(s.(clock := x.endedAt), copy, x);
    if TryThrows(s, copy, x) then Caught(s', copy, x) else s'
  }

  function Process(s: State, x: Execution): State {
    ProcessCopy(s, s.source, x)
  }

  /** Contend: a tick with a copy of the row that another tick has overtaken. */
  datatype Step = Advance(t: int) | Execute(x: Execution) | Contend(copy: Source, x: Execution) | Pause | Resume | Toggle(on: bool)

  predicate InOrder(clock: int, x: Execution) {
    clock <= x.computedAt <= x.lockedAt <= x.checkedAt <= x.recordedAt <= x.endedAt
  }

  /** A tick takes active, enabled, due sources; a manual trigger refuses disabled and errored ones. */
  predicate Enabled(s: State, step: Step) {
    match step
    case Advance(t) => s.clock <= t
    case Execute(x) =>
      && InOrder(s.clock, x)
      && s.source.status == Active
      && (x.trigger.Tick? ==> s.source.isEnabled && s.source.nextRunAt.Some? && s.source.nextRunAt.value <= s.clock)
    case Contend(copy, x) =>
      && InOrder(s.clock, x) && x.trigger.Tick? && !LockThrows(copy, x)
      && copy.nextRunAt.Some? && s.source.nextRunAt != copy.nextRunAt
    case _ => true
  }

  function ResumeStep(s: State): State {
    var next := CalculateNextRunAt(s.source.schedule, Some(s.clock), s.clock);
    if s.source.status == Active || next.Err? then s
    else s.(source := s.source.(status := Active, isEnabled := true, nextRunAt := Some(next.value),
                                consecutiveErrors := 0, pausedAt := None))
  }

  function Next(s: State, step: Step): State
    requires Enabled(s, step)
  {
    match step
    case Advance(t) => s.(clock := t)
    case Execute(x) => Process(s, x)
    case Contend(copy, x) => ProcessCopy(s, copy, x)
    case Pause =>
      if s.source.status != Active then s
      else s.(source := s.source.(status := Disabled, pausedAt := Some(s.clock)))
    case Resume => ResumeStep(s)
    case Toggle(on) =>
      s.(source := s.source.(isEnabled := on, status := if on then Active else Disabled))
  }

  predicate ValidRun(s: State, steps: seq<Step>)
    decreases |steps|
  {
    steps == [] || (Enabled(s, steps[0]) && ValidRun(Next(s, steps[0]), steps[1..]))
  }

  function Run(s: State, steps: seq<Step>): State
    requires ValidRun(s, steps)
    decreases |steps|
  {
    if steps == [] then s else Run(Next(s, steps[0]), steps[1..])
  }

  /** The same steps, every overtaken tick replaced by the time it took. */
  function WithoutContention(steps: seq<Step>): seq<Step> {
    seq(|steps|, i requires 0 <= i < |steps| => if steps[i].Contend? then Advance(steps[i].x.endedAt) else steps[i])
  }

  /** Overtaken ticks are invisible: a run with any number of them in between is the run without them. */
  lemma {:induction false} ContentionIsInvisible(s: State, steps: seq<Step>)
    requires ValidRun(s, steps)
    ensures ValidRun(s, WithoutContention(steps)) && Run(s, WithoutContention(steps)) == Run(s, steps)
    decreases |steps|
  {
    if steps != [] {
      var quiet := WithoutContention(steps);
      assert quiet[1..] == WithoutContention(steps[1..]);
      assert Enabled(s, quiet[0]) && Next(s, quiet[0]) == Next(s, steps[0]);
      ContentionIsInvisible(Next(s, steps[0]), steps[1..]);
    }
  }

  /** A source as created: active, no failures, nothing recorded. */
  predicate Initial(s: State) {
    s.records == [] && s.source.status == Active && s.source.consecutiveErrors == 0
  }

  // ---------------------------------------------------------------- budget safety

  ghost predicate BudgetHolds(s: State) {
    forall w: Window, t: int :: LimitOf(s.source.budget, w).Some? && t >= s.clock ==>
      WindowCount(s.records, w, t, s.source.offset) <= Max(0, LimitOf(s.source.budget, w).value)
  }

  /** A call adds at most one executed record to any count, and that only after the check passed. */
  lemma AtMostOneExecuted(s: State, x: Execution, t: int)
    ensures CountSince(Process(s, x).records, t) <= CountSince(s.records, t) + if Throttles(s, s.source, x) then 0 else 1
  {
    TryAddsOneExecuted(s.(clock := x.endedAt), s.source, x, t);
    CountSnoc(Try(s.(clock := x.endedAt), s.source, x).records, Record(Failed, x.endedAt), t);
  }

  lemma TryAddsOneExecuted(s: State, copy: Source, x: Execution, t: int)
    ensures CountSince(Try(s, copy, x).records, t) <= CountSince(s.records, t) + if Throttles(s, copy, x) then 0 else 1
  {
    CountSnoc(s.records, Record(SkippedBudget, x.recordedAt), t);
    CountSnoc(s.records, Record(Failed, x.recordedAt), t);
    CountSnoc(s.records, Record(Executed, x.recordedAt), t);
  }

  /** One more after a passed check keeps the limit, even if the window rolled over in between. */
  lemma ExecutionKeepsLimit(s: State, x: Execution, w: Window, t: int)
    requires LimitOf(s.source.budget, w).Some? && x.checkedAt <= t
    requires WindowCount(s.records, w, t, s.source.offset) <= Max(0, LimitOf(s.source.budget, w).value)
    ensures WindowCount(Process(s, x).records, w, t, s.source.offset) <= Max(0, LimitOf(s.source.budget, w).value)
  {
    var o := s.source.offset;
    AtMostOneExecuted(s, x, CountStart(w, t, o));
    CountStartMonotone(w, x.checkedAt, t, o);
    CountSinceAntitone(s.records, CountStart(w, x.checkedAt, o), CountStart(w, t, o));
  }

  lemma ProcessKeepsConfiguration(s: State, x: Execution)
    ensures var s' := Process(s, x);
            s'.clock == x.endedAt && s'.source.budget == s.source.budget && s'.source.offset == s.source.offset
  {
  }

  lemma ExecutionKeepsBudget(s: State, x: Execution)
    requires BudgetHolds(s) && Enabled(s, Execute(x))
    ensures BudgetHolds(Process(s, x))
  {
    ProcessKeepsConfiguration(s, x);
    var s', o := Process(s, x), s.source.offset;
    forall w: Window, t: int | LimitOf(s'.source.budget, w).Some? && t >= s'.clock
      ensures WindowCount(s'.records, w, t, o) <= Max(0, LimitOf(s'.source.budget, w).value)
    {
      assert WindowCount(s.records, w, t, o) <= Max(0, LimitOf(s.source.budget, w).value);
      ExecutionKeepsLimit(s, x, w, t);
    }
  }

  lemma StepKeepsBudget(s: State, step: Step)
    requires BudgetHolds(s) && Enabled(s, step)
    ensures BudgetHolds(Next(s, step))
    ensures Next(s, step).source.budget == s.source.budget && Next(s, step).source.offset == s.source.offset
  {
    match step
    case Execute(x) =>
      ProcessKeepsConfiguration(s, x);
      ExecutionKeepsBudget(s, x);
    case _ => QuietStepKeepsBudget(s, Next(s, step));
  }

  lemma QuietStepKeepsBudget(s: State, s': State)
    requires BudgetHolds(s) && s'.records == s.records && s'.clock >= s.clock
    requires s'.source.budget == s.source.budget && s'.source.offset == s.source.offset
    ensures BudgetHolds(s')
  {
    forall w: Window, t: int | LimitOf(s'.source.budget, w).Some? && t >= s'.clock
      ensures WindowCount(s'.records, w, t, s'.source.offset) <= Max(0, LimitOf(s'.source.budget, w).value)
    {
      assert WindowCount(s.records, w, t, s.source.offset) <= Max(0, LimitOf(s.source.budget, w).value);
    }
  }

  lemma {:induction false} RunKeepsBudget(s: State, steps: seq<Step>)
    requires BudgetHolds(s) && ValidRun(s, steps)
    ensures BudgetHolds(Run(s, steps)) && Run(s, steps).source.budget == s.source.budget && Run(s, steps).source.offset == s.source.offset
    decreases |steps|
  {
    if steps != [] {
      StepKeepsBudget(s, steps[0]);
      RunKeepsBudget(Next(s, steps[0]), steps[1..]);
    }
  }

  /**
   * Budget safety. In every sequential run, at every later moment, the executions recorded in the current
   * hour, day and month stay within their limits; for the week this holds from the later of Monday and
   * the first of the month.
   */
  lemma {:induction false} BudgetIsNeverExceeded(s: State, steps: seq<Step>, w: Window, t: int)
    requires Initial(s) && ValidRun(s, steps) && t >= Run(s, steps).clock
    requires LimitOf(s.source.budget, w).Some? && LimitOf(s.source.budget, w).value >= 0
    ensures var records, limit, offset := Run(s, steps).records, LimitOf(s.source.budget, w).value, s.source.offset;
            && (w != Week ==> CountSince(records, WindowStart(w, t, offset)) <= limit)
            && (w == Week ==> CountSince(records, Max(WindowStart(Week, t, offset), WindowStart(Month, t, offset))) <= limit)
  {
    RunKeepsBudget(s, steps);
    CountStartIsWindowStart(w, t, s.source.offset);
    var s' := Run(s, steps);
    assert WindowCount(s'.records, w, t, s'.source.offset) <= Max(0, LimitOf(s'.source.budget, w).value);
  }

  // ---------------------------------------------------------------- error breaker

  /** The execution gets as far as the budget check. */
  predicate Locks(s: State, x: Execution) {
    !LockThrows(s.source, x) && (x.trigger.Tick? ==> s.source.nextRunAt.Some?)
  }

  /** It comes to work: nothing throws before, and the budget allows it. */
  predicate Works(s: State, x: Execution) {
    Locks(s, x) && !x.checkThrows && !Throttles(s, s.source, x)
  }

  /**
   * The step is a failure that counts: a failed pipeline, or an exception before the record, of which the catch
   * branch could take count. A skipped execution, a parse failure and a missing plugin do not count.
   */
  predicate Fails(s: State, step: Step) {
    step.Execute? &&
    var x := step.x;
    || (LockThrows(s.source, x) && x.counted)
    || (Locks(s, x) && x.checkThrows && x.counted)
    || (Works(s, x) && x.outcome.Throws? && x.counted)
    || (Works(s, x) && x.outcome.PipelineFails? && (!x.late || x.counted))
  }

  predicate Succeeded(s: State, x: Execution) {
    Works(s, x) && x.outcome.Succeeds? && !x.resetThrows
  }

  /** The step is a success that clears the counter, or a resume that takes effect. */
  predicate Clears(s: State, step: Step) {
    || (step.Execute? && Succeeded(s, step.x))
    || (step.Resume? && s.source.status != Active && CalculateNextRunAt(s.source.schedule, Some(s.clock), s.clock).Ok?)
  }

  function Tally(s: State, step: Step, n: nat): nat {
    if Clears(s, step) then 0 else if Fails(s, step) then n + 1 else n
  }

  /** The failures of a run since its last success or resume, `n` before it; the stored counter is not looked at. */
  function FailuresSince(s: State, steps: seq<Step>, n: nat): nat
    requires ValidRun(s, steps)
    decreases |steps|
  {
    if steps == [] then n else FailuresSince(Next(s, steps[0]), steps[1..], Tally(s, steps[0], n))
  }

  /** Since then, the source was switched on when five or more failures were counted. */
  predicate SwitchedOnPast(s: State, steps: seq<Step>, n: nat, past: bool)
    requires ValidRun(s, steps)
    decreases |steps|
  {
    if steps == [] then past
    else
      var past' := !Clears(s, steps[0]) && (past || (steps[0] == Toggle(true) && n >= MAX_CONSECUTIVE_ERRORS));
      SwitchedOnPast(Next(s, steps[0]), steps[1..], Tally(s, steps[0], n), past')
  }

  lemma CounterStep(s: State, step: Step)
    requires Enabled(s, step)
    ensures Next(s, step).source.consecutiveErrors == Tally(s, step, s.source.consecutiveErrors)
  {
  }

  /** The stored counter is the number of failures since the last success or resume. */
  lemma {:induction false} CounterCounts(s: State, steps: seq<Step>)
    requires ValidRun(s, steps)
    ensures Run(s, steps).source.consecutiveErrors == FailuresSince(s, steps, s.source.consecutiveErrors)
    decreases |steps|
  {
    if steps != [] {
      CounterStep(s, steps[0]);
      CounterCounts(Next(s, steps[0]), steps[1..]);
    }
  }

  /** How status and counter go together, given whether the source was switched on past the threshold. */
  ghost predicate Breaker(source: Source, past: bool) {
    && (source.status == Errored ==> source.consecutiveErrors >= MAX_CONSECUTIVE_ERRORS)
    && (past ==> source.consecutiveErrors >= MAX_CONSECUTIVE_ERRORS)
    && (source.status == Active ==> (source.consecutiveErrors < MAX_CONSECUTIVE_ERRORS <==> !past))
  }

  lemma BreakerStep(s: State, step: Step, past: bool)
    requires Breaker(s.source, past) && Enabled(s, step)
    ensures var past' := !Clears(s, step) && (past || (step == Toggle(true) && s.source.consecutiveErrors >= MAX_CONSECUTIVE_ERRORS));
            Breaker(Next(s, step).source, past')
    ensures Fails(s, step) && s.source.consecutiveErrors + 1 >= MAX_CONSECUTIVE_ERRORS ==> Next(s, step).source.status == Errored
  {
  }

  lemma {:induction false} BreakerRun(s: State, steps: seq<Step>, past: bool)
    requires Breaker(s.source, past) && ValidRun(s, steps)
    ensures Breaker(Run(s, steps).source, SwitchedOnPast(s, steps, s.source.consecutiveErrors, past))
    decreases |steps|
  {
    if steps != [] {
      BreakerStep(s, steps[0], past);
      CounterStep(s, steps[0]);
      var past' := !Clears(s, steps[0]) && (past || (steps[0] == Toggle(true) && s.source.consecutiveErrors >= MAX_CONSECUTIVE_ERRORS));
      BreakerRun(Next(s, steps[0]), steps[1..], past');
    }
  }

  /**
   * The breaker in every sequential run of executions, pauses, resumes and switch-ons: the stored counter is the
   * failures since the last success or resume, and an active source is below five of them exactly if it was not
   * switched on at five or more since then.
   */
  lemma {:induction false} BreakerCounts(s: State, steps: seq<Step>)
    requires Initial(s) && ValidRun(s, steps)
    ensures var source := Run(s, steps).source;
            && source.consecutiveErrors == FailuresSince(s, steps, 0)
            && (source.status == Active ==> (FailuresSince(s, steps, 0) < 5 <==> !SwitchedOnPast(s, steps, 0, false)))
            && (source.status == Errored ==> FailuresSince(s, steps, 0) >= 5)
  {
    CounterCounts(s, steps);
    BreakerRun(s, steps, false);
  }

  ghost predicate NoToggle(steps: seq<Step>) {
    forall step :: step in steps ==> !step.Toggle?
  }

  /** Without switch-ons the counter stops at five, and five is exactly the error status. */
  lemma {:induction false} FifthFailureTrips(s: State, steps: seq<Step>)
    requires s.source.consecutiveErrors <= 5 && (s.source.status == Errored <==> s.source.consecutiveErrors == 5)
    requires ValidRun(s, steps) && NoToggle(steps)
    ensures var source := Run(s, steps).source;
            source.consecutiveErrors <= 5 && (source.status == Errored <==> source.consecutiveErrors == 5)
    decreases |steps|
  {
    if steps != [] {
      FifthFailureTrips(Next(s, steps[0]), steps[1..]);
    }
  }

  /**
   * What raises the counter, and what trips the breaker, exactly: a failed pipeline or an exception before the
   * record that could be counted, and for the status the fifth of them. An execution whose work succeeds does
   * neither, whatever becomes of its record and its reset.
   */
  lemma RaisesIff(s: State, step: Step)
    requires Enabled(s, step)
    ensures Next(s, step).source.consecutiveErrors > s.source.consecutiveErrors <==> Fails(s, step)
    ensures Next(s, step).source.status == Errored && s.source.status != Errored
            <==> Fails(s, step) && s.source.consecutiveErrors + 1 >= MAX_CONSECUTIVE_ERRORS
    ensures step.Execute? && Works(s, step.x) && step.x.outcome.Succeeds? ==> !Fails(s, step)
  {
    CounterStep(s, step);
  }

  /** No execution of the run meets a failed pipeline or an exception before its record. */
  ghost predicate NothingFails(s: State, steps: seq<Step>)
    requires ValidRun(s, steps)
    decreases |steps|
  {
    steps == [] ||
    (&& (steps[0].Execute? ==>
           var x := steps[0].x;
           && !LockThrows(s.source, x) && !x.checkThrows
           && (Throttles(s, s.source, x) || x.outcome.Succeeds? || x.outcome.ParseFails? || x.outcome.NoPlugin?))
     && NothingFails(Next(s, steps[0]), steps[1..]))
  }

  /** Over every such run the counter never rises, and the source is not moved to the error status. */
  lemma {:induction false} OnlyFailuresCount(s: State, steps: seq<Step>)
    requires ValidRun(s, steps) && NothingFails(s, steps)
    ensures Run(s, steps).source.consecutiveErrors <= s.source.consecutiveErrors
    ensures Run(s, steps).source.status == Errored ==> s.source.status == Errored
    decreases |steps|
  {
    if steps != [] {
      RaisesIff(s, steps[0]);
      OnlyFailuresCount(Next(s, steps[0]), steps[1..]);
    }
  }

  /** A tripped source is not executed, by tick or by hand, until it is resumed or switched on. */
  lemma {:induction false} TrippedStaysDown(s: State, steps: seq<Step>)
    requires s.source.status == Errored && ValidRun(s, steps)
    requires forall step :: step in steps ==> !step.Resume? && !step.Toggle?
    ensures Run(s, steps).source == s.source && Run(s, steps).records == s.records
    ensures forall step :: step in steps ==> !step.Execute?
    decreases |steps|
  {
    if steps != [] {
      TrippedStaysDown(Next(s, steps[0]), steps[1..]);
      assert steps == [steps[0]] + steps[1..];
    }
  }

  /** Pausing and resuming a healthy source clears the failure count and leaves it due no earlier than now. */
  lemma PauseThenResume(s: State)
    requires s.source.status == Active && WellFormed(s.source.schedule)
    ensures var s' := Next(Next(s, Pause), Resume);
            && s'.source.status == Active && s'.source.pausedAt == None && s'.source.consecutiveErrors == 0
            && s'.source.nextRunAt.Some? && s'.source.nextRunAt.value >= s.clock
            && s'.source.lastRunAt == s.source.lastRunAt && s'.records == s.records
  {
    NextRunIsLeastAdmissible(s.source.schedule, Some(s.clock), s.clock);
  }
}
