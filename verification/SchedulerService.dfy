/** The scheduler's own code over its two tables, against the sequential model of one source. */
module SchedulerService {
  import opened Common
  import opened NextRun
  import opened Windows
  import opened Scheduler
  import opened ExecutionRecords

  type SourceId = string

  datatype PauseError = AlreadyPaused | AlreadyActive | BadSchedule | NotFound

  /** What a call answers. */
  datatype Answer = AnswerExecuted | AnswerSkippedBudget | AnswerSkippedLock | AnswerError

  datatype BudgetResult = WithinLimits | Exceeded(window: Window, count: nat)

  /** The two tables: source rows, and execution records by source. */
  datatype Tables = Tables(sources: map<SourceId, Source>, executions: map<SourceId, seq<Record>>)

  ghost predicate OnlyChanged<V>(before: map<SourceId, V>, after: map<SourceId, V>, id: SourceId) {
    before.Keys == after.Keys && forall k :: k in before && k != id ==> after[k] == before[k]
  }

  /** One source's rows after a sequential execution from the given rows. */
  ghost predicate ProcessedFrom(source: Source, records: seq<Record>, source': Source, records': seq<Record>, x: Execution) {
    var s' := Process(Scheduler.State(x.endedAt, source, records), x);
    source' == s'.source && records' == s'.records
  }

  ghost predicate SameKeys(t: Tables, t': Tables) {
    t.sources.Keys == t'.sources.Keys && t.executions.Keys == t'.executions.Keys == t.sources.Keys
  }

  ghost predicate Processed(t: Tables, t': Tables, id: SourceId, x: Execution)
    requires SameKeys(t, t')
  {
    id in t.sources && ProcessedFrom(t.sources[id], t.executions[id], t'.sources[id], t'.executions[id], x)
  }

  /** What the work answers when it does not throw. */
  function WorkAnswer(s: State, copy: Source, x: Execution): Answer {
    if Throttles(s, copy, x) then AnswerSkippedBudget
    else if x.outcome.Succeeds? then AnswerExecuted else AnswerError
  }

  function CallAnswer(s: State, copy: Source, x: Execution): Answer {
    if TryThrows(s, copy, x) then AnswerError
    else if NotLocked(s, copy, x) then AnswerSkippedLock
    else WorkAnswer(s, copy, x)
  }

  /** Nothing but failures was added. */
  ghost predicate OnlyFailures(before: seq<Record>, after: seq<Record>) {
    before <= after && forall i :: |before| <= i < |after| ==> after[i].status == Failed
  }

  /** When a call answers "executed", in full. */
  lemma AnswersExecutedIff(s: State, copy: Source, x: Execution)
    ensures CallAnswer(s, copy, x).AnswerExecuted? <==>
            && CalculateNextRunAt(copy.schedule, copy.lastRunAt, x.computedAt).Ok? && !x.lockThrows
            && (x.trigger.Tick? ==> copy.nextRunAt.Some? && s.source.nextRunAt == copy.nextRunAt)
            && !x.checkThrows && !Throttles(s, copy, x) && x.outcome.Succeeds?
  {
  }

  /** Each answer with the records that go with it. */
  lemma AnswerMeans(s: State, copy: Source, x: Execution)
    ensures var answer, s' := CallAnswer(s, copy, x), ProcessCopy(s, copy, x);
            && (answer.AnswerExecuted? ==> s'.records == s.records + if x.stored then [Record(Executed, x.recordedAt)] else [])
            && (answer.AnswerSkippedBudget? ==>
                  && Throttles(s, copy, x)
                  && s'.records == s.records + if x.stored then [Record(SkippedBudget, x.recordedAt)] else [])
            && (answer.AnswerSkippedLock? ==>
                  x.trigger.Tick? && s'.records == s.records && s'.source.lastRunAt == s.source.lastRunAt)
            && (answer.AnswerError? ==> OnlyFailures(s.records, s'.records))
  {
  }

  predicate Among(due: seq<SourceId>, n: nat, id: SourceId)
    requires n <= |due|
  {
    exists k :: 0 <= k < n && due[k] == id
  }

  ghost predicate FirstProcessed(due: seq<SourceId>, n: nat, t: Tables, t': Tables, xs: SourceId -> Execution)
    requires n <= |due| && SameKeys(t, t')
  {
    forall k :: 0 <= k < n ==> Processed(t, t', due[k], xs(due[k]))
  }

  ghost predicate RestUntouched(due: seq<SourceId>, n: nat, t: Tables, t': Tables)
    requires n <= |due| && SameKeys(t, t')
  {
    forall id :: id in t.sources && !Among(due, n, id) ==> t'.sources[id] == t.sources[id] && t'.executions[id] == t.executions[id]
  }

  /** The first `n` due sources have been processed once; every other source is as it was. */
  ghost predicate TickedUpTo(due: seq<SourceId>, n: nat, t: Tables, t': Tables, xs: SourceId -> Execution) {
    n <= |due| && SameKeys(t, t') && FirstProcessed(due, n, t, t', xs) && RestUntouched(due, n, t, t')
  }

  ghost predicate ProcessedOnly(t: Tables, t': Tables, id: SourceId, x: Execution) {
    && SameKeys(t, t') && OnlyChanged(t.sources, t'.sources, id) && OnlyChanged(t.executions, t'.executions, id)
    && Processed(t, t', id, x)
  }

  lemma EarlierStaysProcessed(t: Tables, t1: Tables, t2: Tables, id: SourceId, x: Execution, other: SourceId, y: Execution)
    requires SameKeys(t, t1) && Processed(t, t1, other, y) && ProcessedOnly(t1, t2, id, x) && other != id
    ensures SameKeys(t, t2) && Processed(t, t2, other, y)
  {
  }

  lemma CurrentIsProcessed(t: Tables, t1: Tables, t2: Tables, id: SourceId, x: Execution)
    requires SameKeys(t, t1) && ProcessedOnly(t1, t2, id, x)
    requires id in t.sources && t1.sources[id] == t.sources[id] && t1.executions[id] == t.executions[id]
    ensures SameKeys(t, t2) && Processed(t, t2, id, x)
  {
  }

  lemma NotYet(due: seq<SourceId>, n: nat)
    requires Distinct(due) && n < |due|
    ensures !Among(due, n, due[n])
  {
  }

  lemma OneMoreProcessed(due: seq<SourceId>, n: nat, t: Tables, t1: Tables, t2: Tables, xs: SourceId -> Execution)
    requires Distinct(due) && n < |due| && TickedUpTo(due, n, t, t1, xs) && ProcessedOnly(t1, t2, due[n], xs(due[n]))
    ensures SameKeys(t, t2) && FirstProcessed(due, n + 1, t, t2, xs)
  {
    NotYet(due, n);
    CurrentIsProcessed(t, t1, t2, due[n], xs(due[n]));
    forall k | 0 <= k < n ensures Processed(t, t2, due[k], xs(due[k])) {
      assert due[k] != due[n];
      EarlierStaysProcessed(t, t1, t2, due[n], xs(due[n]), due[k], xs(due[k]));
    }
  }

  lemma OthersStayUntouched(due: seq<SourceId>, n: nat, t: Tables, t1: Tables, t2: Tables, id: SourceId)
    requires n < |due| && SameKeys(t, t1) && SameKeys(t1, t2) && RestUntouched(due, n, t, t1)
    requires OnlyChanged(t1.sources, t2.sources, due[n]) && OnlyChanged(t1.executions, t2.executions, due[n])
    requires id in t.sources && !Among(due, n + 1, id)
    ensures t2.sources[id] == t.sources[id] && t2.executions[id] == t.executions[id]
  {
    assert due[n] != id && !Among(due, n, id);
  }

  lemma TickedOne(due: seq<SourceId>, n: nat, t: Tables, t1: Tables, t2: Tables, xs: SourceId -> Execution)
    requires Distinct(due) && n < |due| && TickedUpTo(due, n, t, t1, xs) && ProcessedOnly(t1, t2, due[n], xs(due[n]))
    ensures TickedUpTo(due, n + 1, t, t2, xs)
  {
    OneMoreProcessed(due, n, t, t1, t2, xs);
    forall id | id in t.sources && !Among(due, n + 1, id)
      ensures t2.sources[id] == t.sources[id] && t2.executions[id] == t.executions[id]
    {
      OthersStayUntouched(due, n, t, t1, t2, id);
    }
  }

  lemma SameAfterTick(due: seq<SourceId>, due': seq<SourceId>, t: Tables, t1: Tables, t2: Tables, xs: SourceId -> Execution, id: SourceId)
    requires TickedUpTo(due, |due|, t, t1, xs) && TickedUpTo(due', |due'|, t, t2, xs)
    requires id in t.sources && (id in due <==> id in due')
    ensures t1.sources[id] == t2.sources[id] && t1.executions[id] == t2.executions[id]
  {
    if id in due {
      var j :| 0 <= j < |due| && due[j] == id;
      var k :| 0 <= k < |due'| && due'[k] == id;
      assert Processed(t, t1, due[j], xs(id)) && Processed(t, t2, due'[k], xs(id));
    } else {
      assert !Among(due, |due|, id) && !Among(due', |due'|, id);
    }
  }

  /** In which order a tick works through the due sources, or how it is cut into slices, makes no difference. */
  lemma TickOrderIsIrrelevant(due: seq<SourceId>, due': seq<SourceId>, t: Tables, t1: Tables, t2: Tables, xs: SourceId -> Execution)
    requires TickedUpTo(due, |due|, t, t1, xs) && TickedUpTo(due', |due'|, t, t2, xs)
    requires forall id :: id in due <==> id in due'
    ensures t1 == t2
  {
    forall id | id in t.sources ensures t1.sources[id] == t2.sources[id] && t1.executions[id] == t2.executions[id] {
      SameAfterTick(due, due', t, t1, t2, xs, id);
    }
    assert t1.sources == t2.sources && t1.executions == t2.executions;
  }

  /** What the tick's query asks for. */
  predicate IsDue(source: Source, now: int) {
    source.status == Active && source.isEnabled && source.nextRunAt.Some? && source.nextRunAt.value <= now
  }

  /** Recovery touches sources that are switched on and active. */
  predicate Recoverable(source: Source) {
    source.status == Active && source.isEnabled
  }

  /** Nothing but `nextRunAt` moves, and only if it was missing or missed; then it is at or after `now`. */
  ghost predicate Recovered(before: Source, after: Source, now: int, writeFails: bool) {
    var next := CalculateNextRunAt(before.schedule, before.lastRunAt, now);
    && after == (if (before.nextRunAt.None? || before.nextRunAt.value <= now) && next.Ok? && !writeFails
                 then before.(nextRunAt := Some(next.value)) else before)
    && (WellFormed(before.schedule) && !writeFails ==> after.nextRunAt.Some? && after.nextRunAt.value >= now)
  }

  class SchedulerService {
    var sources: map<SourceId, Source>
    var executions: map<SourceId, seq<Record>>
    var activeExecutions: set<nat>

    ghost predicate Valid()
      reads this
    {
      sources.Keys == executions.Keys
    }

    /** The sequential state of one source. */
    ghost function StateOf(id: SourceId, clock: int): State
      reads this
      requires Valid() && id in sources
    {
      Scheduler.State(clock, sources[id], executions[id])
    }

    constructor ()
      ensures Valid() && sources == map[] && activeExecutions == {}
    {
      sources, executions, activeExecutions := map[], map[], {};
    }

    /**
     * Goes through the four windows in order and stops at the first exhausted one. Passes exactly when every
     * limited window has something remaining.
     */
    method CheckBudget(id: SourceId, source: Source, now: int) returns (r: BudgetResult)
      requires Valid() && id in sources
      ensures r.WithinLimits? <==> WithinBudget(source.budget, executions[id], now, source.offset)
      ensures r.Exceeded? ==>
                && LimitOf(source.budget, r.window).Some?
                && r.count == WindowCount(executions[id], r.window, now, source.offset)
                && r.count >= LimitOf(source.budget, r.window).value
      ensures r.Exceeded? && !r.window.Hour? ==>
                source.budget.perHour.Some? ==> CountSince(executions[id], WindowStart(Hour, now, source.offset)) < source.budget.perHour.value
      ensures r.Exceeded? && (r.window.Week? || r.window.Month?) ==>
                source.budget.perDay.Some? ==> CountSince(executions[id], WindowStart(Day, now, source.offset)) < source.budget.perDay.value
      ensures r.Exceeded? && r.window.Month? ==>
                source.budget.perWeek.Some? ==> WindowCount(executions[id], Week, now, source.offset) < source.budget.perWeek.value
    {
      CountStartIsWindowStart(Hour, now, source.offset);
      CountStartIsWindowStart(Day, now, source.offset);
      var records := executions[id];
      var checks := [Hour, Day, Week, Month];
      var i := 0;
      while i < |checks|
        invariant 0 <= i <= |checks|
        invariant forall j :: 0 <= j < i && LimitOf(source.budget, checks[j]).Some? ==>
                    Remaining(LimitOf(source.budget, checks[j]).value, WindowCount(records, checks[j], now, source.offset)) > 0
      {
        var limit, count := LimitOf(source.budget, checks[i]), WindowCount(records, checks[i], now, source.offset);
        if limit.Some? && count >= limit.value {
          assert checks[0] == Hour && checks[1] == Day && checks[2] == Week && checks[3] == Month;
          return Exceeded(checks[i], count);
        }
        i := i + 1;
      }
      forall w: Window | LimitOf(source.budget, w).Some?
        ensures Remaining(LimitOf(source.budget, w).value, WindowCount(records, w, now, source.offset)) > 0
      {
        var j := match w case Hour => 0 case Day => 1 case Week => 2 case Month => 3;
        assert checks[j] == w;
      }
      r := WithinLimits;
    }

    /** UPDATE … WHERE the stored value is still the expected one. */
    method AcquireLock(id: SourceId, expected: int, newNextRunAt: int, now: int) returns (locked: bool)
      requires Valid() && id in sources
      modifies this`sources
      ensures Valid() && executions == old(executions)
      ensures locked <==> old(sources[id].nextRunAt) == Some(expected)
      ensures sources == if locked then old(sources)[id := old(sources[id]).(nextRunAt := Some(newNextRunAt), lastRunAt := Some(now))]
                         else old(sources)
    {
      locked := sources[id].nextRunAt == Some(expected);
      if locked {
        sources := sources[id := sources[id].(nextRunAt := Some(newNextRunAt), lastRunAt := Some(now))];
      }
    }

    method RecordExecution(id: SourceId, record: Record, stored: bool)
      requires Valid() && id in sources
      modifies this`executions
      ensures Valid() && executions == if stored then old(executions)[id := old(executions[id]) + [record]] else old(executions)
    {
      if stored { executions := executions[id := executions[id] + [record]]; }
    }

    /** Counts one more failure than the copy the caller holds, and trips the breaker at the threshold. */
    method IncrementConsecutiveErrors(id: SourceId, copy: Source)
      requires Valid() && id in sources
      modifies this`sources
      ensures Valid()
      ensures sources == old(sources)[id := old(sources[id]).(
                consecutiveErrors := copy.consecutiveErrors + 1,
                status := if copy.consecutiveErrors + 1 >= MAX_CONSECUTIVE_ERRORS then Errored else old(sources[id]).status)]
    {
      var newCount := copy.consecutiveErrors + 1;
      sources := sources[id := sources[id].(consecutiveErrors := newCount)];
      if newCount >= MAX_CONSECUTIVE_ERRORS {
        sources := sources[id := sources[id].(status := Errored)];
      }
    }

    /** The catch branch. Neither of its two writes lets an exception out. */
    method Catch(id: SourceId, copy: Source, x: Execution)
      requires Valid() && id in sources
      modifies this`sources, this`executions
      ensures Valid() && OnlyChanged(old(sources), sources, id) && OnlyChanged(old(executions), executions, id)
      ensures var s' := Caught(old(StateOf(id, x.endedAt)), copy, x);
              sources[id] == s'.source && executions[id] == s'.records
    {
      RecordExecution(id, Record(Failed, x.endedAt), x.caughtStored);
      if x.counted { IncrementConsecutiveErrors(id, copy); }
    }

    /**
     * One execution with the copy of the row the caller read, up to date or not: the tables change as the
     * model says, other sources are untouched, and the execution is no longer listed as active. It answers
     * "executed" exactly if it took the lock, was within budget and its work succeeded; then, and only then, an
     * executed record is added, if it is stored. A skipped call leaves a record of that kind, or none without the lock.
     */
    method ProcessSource(id: SourceId, copy: Source, executionId: nat, x: Execution) returns (answer: Answer)
      requires Valid() && id in sources && executionId !in activeExecutions
      modifies this
      ensures Valid() && activeExecutions == old(activeExecutions)
      ensures var s' := ProcessCopy(old(StateOf(id, x.endedAt)), copy, x);
              && OnlyChanged(old(sources), sources, id) && OnlyChanged(old(executions), executions, id)
              && sources[id] == s'.source && executions[id] == s'.records
      ensures answer == CallAnswer(old(StateOf(id, x.endedAt)), copy, x)
      ensures answer.AnswerExecuted? <==>
                && CalculateNextRunAt(copy.schedule, copy.lastRunAt, x.computedAt).Ok? && !x.lockThrows
                && (x.trigger.Tick? ==> copy.nextRunAt.Some? && old(sources[id].nextRunAt) == copy.nextRunAt)
                && !x.checkThrows && !Throttles(old(StateOf(id, x.endedAt)), copy, x) && x.outcome.Succeeds?
      ensures answer.AnswerExecuted? ==> executions[id] == old(executions[id]) + if x.stored then [Record(Executed, x.recordedAt)] else []
      ensures answer.AnswerSkippedBudget? ==>
                && Throttles(old(StateOf(id, x.endedAt)), copy, x)
                && executions[id] == old(executions[id]) + if x.stored then [Record(SkippedBudget, x.recordedAt)] else []
      ensures answer.AnswerSkippedLock? ==>
                x.trigger.Tick? && executions[id] == old(executions[id]) && sources[id].lastRunAt == old(sources[id]).lastRunAt
      ensures answer.AnswerError? ==> OnlyFailures(old(executions[id]), executions[id])
    {
      AnswersExecutedIff(StateOf(id, x.endedAt), copy, x);
      AnswerMeans(StateOf(id, x.endedAt), copy, x);
      activeExecutions := activeExecutions + {executionId};
      answer := TryAndCatch(id, copy, x);
      activeExecutions := activeExecutions - {executionId};
      assert activeExecutions == old(activeExecutions);
    }

    /** The try block and its catch branch. */
    method TryAndCatch(id: SourceId, copy: Source, x: Execution) returns (answer: Answer)
      requires Valid() && id in sources
      modifies this`sources, this`executions
      ensures Valid() && OnlyChanged(old(sources), sources, id) && OnlyChanged(old(executions), executions, id)
      ensures var s' := ProcessCopy(old(StateOf(id, x.endedAt)), copy, x);
              sources[id] == s'.source && executions[id] == s'.records
      ensures answer == CallAnswer(old(StateOf(id, x.endedAt)), copy, x)
    {
      var threw;
      answer, threw := TryExecution(id, copy, x);
      if threw {
        Catch(id, copy, x);
        answer := AnswerError;
      }
    }

    /** The try block: next run, lock, then the work. */
    method TryExecution(id: SourceId, copy: Source, x: Execution) returns (answer: Answer, threw: bool)
      requires Valid() && id in sources
      modifies this`sources, this`executions
      ensures Valid()
      ensures var s := old(StateOf(id, x.endedAt));
              && OnlyChanged(old(sources), sources, id) && OnlyChanged(old(executions), executions, id)
              && sources[id] == Try(s, copy, x).source && executions[id] == Try(s, copy, x).records
              && threw == TryThrows(s, copy, x) && (!threw ==> answer == CallAnswer(s, copy, x))
    {
      answer, threw := AnswerSkippedLock, false;
      var next := CalculateNextRunAt(copy.schedule, copy.lastRunAt, x.computedAt);
      if next.Err? || x.lockThrows { return AnswerError, true; }
      if x.trigger.Tick? {
        if copy.nextRunAt.None? {
          sources := sources[id := sources[id].(nextRunAt := Some(next.value))];
          return;
        }
        var locked := AcquireLock(id, copy.nextRunAt.value, next.value, x.lockedAt);
        if !locked { return; }
      } else {
        sources := sources[id := sources[id].(nextRunAt := Some(next.value), lastRunAt := Some(x.lockedAt))];
      }
      answer, threw := DoWork(id, copy, x);
    }

    /** Budget, work and bookkeeping; configuration and failures are those of the copy read before the lock. */
    method DoWork(id: SourceId, copy: Source, x: Execution) returns (answer: Answer, threw: bool)
      requires Valid() && id in sources
      modifies this`sources, this`executions
      ensures Valid()
      ensures var s := old(StateOf(id, x.endedAt));
              && OnlyChanged(old(sources), sources, id) && OnlyChanged(old(executions), executions, id)
              && sources[id] == Work(s, copy, x).source && executions[id] == Work(s, copy, x).records
              && threw == WorkThrows(s, copy, x) && (!threw ==> answer == WorkAnswer(s, copy, x))
    {
      answer, threw := AnswerError, false;
      if x.checkThrows { return AnswerError, true; }
      var budget := CheckBudget(id, copy, x.checkedAt);
      if budget.Exceeded? {
        RecordExecution(id, Record(SkippedBudget, x.recordedAt), x.stored);
        return AnswerSkippedBudget, false;
      }
      match x.outcome {
        case NoPlugin =>
        case ParseFails =>
          RecordExecution(id, Record(Failed, x.recordedAt), x.stored);
        case PipelineFails =>
          RecordExecution(id, Record(Failed, x.recordedAt), x.stored);
          if x.late { return AnswerError, true; }
          IncrementConsecutiveErrors(id, copy);
        case Throws =>
          threw := true;
        case Succeeds =>
          RecordExecution(id, Record(Executed, x.recordedAt), x.stored);
          if !x.resetThrows { sources := sources[id := sources[id].(consecutiveErrors := 0)]; }
          answer := AnswerExecuted;
      }
    }

    ghost function Now(): Tables
      reads this
    {
      Tables(sources, executions)
    }

    /** The tick's query: the due sources, each once, in any order. */
    method SelectDue(now: int) returns (due: seq<SourceId>)
      ensures Distinct(due) && forall id :: id in due <==> id in sources && IsDue(sources[id], now)
      ensures forall id :: id in due <==>
                (id in sources && sources[id].status == Active && sources[id].isEnabled
                 && sources[id].nextRunAt.Some? && sources[id].nextRunAt.value <= now)
    {
      due := [];
      var left := sources.Keys;
      while left != {}
        invariant left <= sources.Keys && Distinct(due)
        invariant forall id :: id in due <==> id in sources && id !in left && IsDue(sources[id], now)
      {
        var id :| id in left;
        left := left - {id};
        if IsDue(sources[id], now) { due := due + [id]; }
      }
    }

    /** One of the due sources, with the row the query returned for it. */
    method TickOne(due: seq<SourceId>, n: nat, rows: map<SourceId, Source>, executionId: nat, xs: SourceId -> Execution, ghost before: Tables)
      requires Valid() && executionId !in activeExecutions && Distinct(due) && n < |due| && due[n] in before.sources
      requires TickedUpTo(due, n, before, Now(), xs) && before.sources == rows
      modifies this
      ensures Valid() && activeExecutions == old(activeExecutions)
      ensures TickedUpTo(due, n + 1, before, Now(), xs)
    {
      var id := due[n];
      ghost var t1 := Now();
      assert sources[id] == rows[id];
      var _ := ProcessSource(id, rows[id], executionId, xs(id));
      TickedOne(due, n, before, t1, Now(), xs);
    }

    /** One slice of the due sources. */
    method TickSlice(due: seq<SourceId>, start: nat, end: nat, rows: map<SourceId, Source>, executionId: nat, xs: SourceId -> Execution, ghost before: Tables)
      requires Valid() && executionId !in activeExecutions && Distinct(due) && start <= end <= |due|
      requires forall id :: id in due ==> id in before.sources
      requires TickedUpTo(due, start, before, Now(), xs) && before.sources == rows
      modifies this
      ensures Valid() && activeExecutions == old(activeExecutions)
      ensures TickedUpTo(due, end, before, Now(), xs)
    {
      for j := start to end
        invariant Valid() && activeExecutions == old(activeExecutions)
        invariant TickedUpTo(due, j, before, Now(), xs)
      {
        assert due[j] in due;
        TickOne(due, j, rows, executionId, xs, before);
      }
    }

    /**
     * One tick, in slices of the concurrency limit: exactly the sources due when it began are processed, each
     * once, from the state it had then, and no other source changes.
     */
    method RunTick(now: int, concurrencyLimit: nat, executionId: nat, xs: SourceId -> Execution) returns (due: seq<SourceId>)
      requires Valid() && concurrencyLimit > 0 && executionId !in activeExecutions
      modifies this
      ensures Valid() && activeExecutions == old(activeExecutions)
      ensures Distinct(due)
      ensures forall id :: id in due <==>
                (id in old(sources) && old(sources)[id].status == Active && old(sources)[id].isEnabled
                 && old(sources)[id].nextRunAt.Some? && old(sources)[id].nextRunAt.value <= now)
      ensures TickedUpTo(due, |due|, old(Now()), Now(), xs)
    {
      due := SelectDue(now);
      var rows := sources;
      var i := 0;
      while i < |due|
        invariant 0 <= i && Valid() && activeExecutions == old(activeExecutions)
        invariant TickedUpTo(due, Min(i, |due|), old(Now()), Now(), xs)
      {
        TickSlice(due, i, Min(i + concurrencyLimit, |due|), rows, executionId, xs, old(Now()));
        i := i + concurrencyLimit;
      }
    }

    /** Only an active source can be paused. */
    method PauseSource(id: SourceId, now: int) returns (r: Result<int, PauseError>)
      requires Valid()
      modifies this`sources
      ensures Valid()
      ensures r.Ok? <==> id in old(sources) && old(sources)[id].status == Active
      ensures r.Err? ==> sources == old(sources)
      ensures r.Ok? ==> sources == old(sources)[id := Next(old(StateOf(id, now)), Pause).source]
      ensures r.Ok? ==> sources == old(sources)[id := old(sources)[id].(status := Disabled, pausedAt := Some(now))]
    {
      if id !in sources { return Err(NotFound); }
      if sources[id].status != Active { return Err(AlreadyPaused); }
      sources := sources[id := sources[id].(status := Disabled, pausedAt := Some(now))];
      r := Ok(now);
    }

    /** Only an inactive source can be resumed; it becomes due no earlier than now. */
    method ResumeSource(id: SourceId, now: int) returns (r: Result<int, PauseError>)
      requires Valid()
      modifies this`sources
      ensures Valid()
      ensures r.Err? ==> sources == old(sources)
      ensures r.Ok? ==> id in old(sources) && old(sources)[id].status != Active
                        && sources == old(sources)[id := Next(old(StateOf(id, now)), Resume).source]
                        && sources[id] == old(sources)[id].(status := Active, isEnabled := true, nextRunAt := Some(r.value),
                                                            consecutiveErrors := 0, pausedAt := None)
                        && (WellFormed(sources[id].schedule) ==> r.value >= now)
      ensures id in old(sources) && old(sources)[id].status != Active && WellFormed(old(sources)[id].schedule) ==> r.Ok?
    {
      if id !in sources { return Err(NotFound); }
      var source := sources[id];
      if source.status == Active { return Err(AlreadyActive); }
      var next := CalculateNextRunAt(source.schedule, Some(now), now);
      assert WellFormed(source.schedule) ==> next.Ok? && next.value >= now by {
        if WellFormed(source.schedule) { NextRunIsLeastAdmissible(source.schedule, Some(now), now); }
      }
      if next.Err? { return Err(BadSchedule); }
      sources := sources[id := source.(status := Active, isEnabled := true, nextRunAt := Some(next.value),
                                       consecutiveErrors := 0, pausedAt := None)];
      r := Ok(next.value);
    }

    method RecoverOne(id: SourceId, now: int, writeFails: bool)
      requires Valid() && id in sources
      modifies this`sources
      ensures Valid() && OnlyChanged(old(sources), sources, id)
      ensures Recovered(old(sources[id]), sources[id], now, writeFails)
    {
      var source := sources[id];
      if source.nextRunAt.None? || source.nextRunAt.value <= now {
        var next := CalculateNextRunAt(source.schedule, source.lastRunAt, now);
        if WellFormed(source.schedule) {
          NextRunIsLeastAdmissible(source.schedule, source.lastRunAt, now);
        }
        if next.Ok? && !writeFails {
          sources := sources[id := source.(nextRunAt := Some(next.value))];
        }
      }
    }

    /**
     * Start-up recovery over the queried rows, one after another; a row whose schedule or write fails is
     * skipped and does not stop the others. Rows the query leaves out are untouched.
     */
    method RecoverSchedules(order: seq<SourceId>, now: int, writeFails: SourceId -> bool)
      requires Valid()
      requires forall id :: id in order <==> id in sources && Recoverable(sources[id])
      requires Distinct(order)
      modifies this`sources
      ensures Valid() && sources.Keys == old(sources).Keys
      ensures forall id :: id in old(sources) ==>
                if old(sources)[id].status == Active && old(sources)[id].isEnabled
                then Recovered(old(sources)[id], sources[id], now, writeFails(id))
                else sources[id] == old(sources)[id]
    {
      var i := 0;
      while i < |order|
        invariant 0 <= i <= |order| && Valid() && sources.Keys == old(sources).Keys
        invariant forall j :: 0 <= j < i ==> Recovered(old(sources)[order[j]], sources[order[j]], now, writeFails(order[j]))
        invariant forall id :: id in sources && (forall j :: 0 <= j < i ==> order[j] != id) ==> sources[id] == old(sources)[id]
      {
        assert order[i] in order;
        RecoverOne(order[i], now, writeFails(order[i]));
        i := i + 1;
      }
    }
  }
}
