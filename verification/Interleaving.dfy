/**
 * The calls of one tick run concurrently: each is a sequence of database statements on its own source, and the
 * statements of different calls interleave at will.
 */
module Interleaving {
  import opened Common
  import opened NextRun
  import opened Scheduler
  import opened SchedulerService

  /** The statement a call is about to execute. */
  datatype Point = Locking | Checking | Recording(status: RecordStatus) | Resetting | Catching | Counting | Tripping | Finished

  function Rank(p: Point): nat {
    match p
    case Locking => 6
    case Checking => 5
    case Recording(_) => 4
    case Catching => 3
    case Counting => 2
    case Resetting => 1
    case Tripping => 1
    case Finished => 0
  }

  function AfterLock(s: State, copy: Source, x: Execution): (State, Point) {
    if LockThrows(copy, x) then (s, Catching)
    else
      var next := CalculateNextRunAt(copy.schedule, copy.lastRunAt, x.computedAt).value;
      if x.trigger.Tick? && copy.nextRunAt.None? then (s.(source := s.source.(nextRunAt := Some(next))), Finished)
      else if NotLocked(s, copy, x) then (s, Finished)
      else (s.(source := s.source.(nextRunAt := Some(next), lastRunAt := Some(x.lockedAt))), Checking)
  }

  /** The budget query, and then the work, which touches neither table. */
  function AfterCheck(s: State, copy: Source, x: Execution): Point {
    if x.checkThrows then Catching
    else if Throttles(s, copy, x) then Recording(SkippedBudget)
    else match x.outcome
      case NoPlugin => Finished
      case ParseFails => Recording(Failed)
      case PipelineFails => Recording(Failed)
      case Throws => Catching
      case Succeeds => Recording(Executed)
  }

  function AfterRecord(status: RecordStatus, x: Execution): Point {
    match status
    case SkippedBudget => Finished
    case Executed => Resetting
    case Failed => if x.outcome.ParseFails? then Finished else if x.late then Catching else Counting
  }

  /** One statement of a call: what it does to its source's rows, and what comes next. */
  function Statement(s: State, copy: Source, x: Execution, p: Point): (r: (State, Point))
    requires p != Finished
    ensures Rank(r.1) < Rank(p) && r.0.clock == s.clock
  {
    match p
    case Locking => AfterLock(s, copy, x)
    case Checking => (s, AfterCheck(s, copy, x))
    case Recording(status) => (AddRecord(s, status, x), AfterRecord(status, x))
    case Resetting => (if x.resetThrows then s else s.(source := s.source.(consecutiveErrors := 0)), Finished)
    case Catching =>
      (if x.caughtStored then s.(records := s.records + [Record(Failed, x.endedAt)]) else s,
       if x.counted then Counting else Finished)
    case Counting =>
      (s.(source := s.source.(consecutiveErrors := copy.consecutiveErrors + 1)),
       if copy.consecutiveErrors + 1 >= MAX_CONSECUTIVE_ERRORS then Tripping else Finished)
    case Tripping => (s.(source := s.source.(status := Errored)), Finished)
  }

  /** The rest of the call, on its own. */
  function Complete(s: State, copy: Source, x: Execution, p: Point): State
    decreases Rank(p)
  {
    if p == Finished then s
    else
      var r := Statement(s, copy, x, p);
      Complete(r.0, copy, x, r.1)
  }

  // ---------------------------------------------------------------- one call alone

  lemma {:induction false} CountingCompletes(s: State, copy: Source, x: Execution)
    ensures Complete(s, copy, x, Counting) == CountFailure(s, copy)
  {
    var n := copy.consecutiveErrors + 1;
    var s' := s.(source := s.source.(consecutiveErrors := n));
    assert Complete(s', copy, x, Tripping) == s'.(source := s'.source.(status := Errored));
  }

  lemma {:induction false} CatchingCompletes(s: State, copy: Source, x: Execution)
    ensures Complete(s, copy, x, Catching) == Caught(s, copy, x)
  {
    var s' := if x.caughtStored then s.(records := s.records + [Record(Failed, x.endedAt)]) else s;
    CountingCompletes(s', copy, x);
    assert Complete(s', copy, x, Finished) == s';
  }

  lemma {:induction false} FailedRecordCompletes(s: State, copy: Source, x: Execution)
    requires !x.outcome.ParseFails?
    ensures var s' := AddRecord(s, Failed, x);
            Complete(s, copy, x, Recording(Failed)) == if x.late then Caught(s', copy, x) else CountFailure(s', copy)
  {
    CountingCompletes(AddRecord(s, Failed, x), copy, x);
    CatchingCompletes(AddRecord(s, Failed, x), copy, x);
  }

  lemma {:induction false} RecordCompletes(s: State, copy: Source, x: Execution, status: RecordStatus)
    requires status.SkippedBudget? || (status.Failed? && x.outcome.ParseFails?)
    ensures Complete(s, copy, x, Recording(status)) == AddRecord(s, status, x)
  {
    assert Complete(AddRecord(s, status, x), copy, x, Finished) == AddRecord(s, status, x);
  }

  lemma {:induction false} SuccessCompletes(s: State, copy: Source, x: Execution)
    ensures var s' := AddRecord(s, Executed, x);
            Complete(s, copy, x, Recording(Executed)) == if x.resetThrows then s' else s'.(source := s'.source.(consecutiveErrors := 0))
  {
    var s' := AddRecord(s, Executed, x);
    assert Complete(s', copy, x, Resetting) == if x.resetThrows then s' else s'.(source := s'.source.(consecutiveErrors := 0));
  }

  lemma {:induction false} CheckingCompletes(s: State, copy: Source, x: Execution)
    ensures Complete(s, copy, x, Checking)
            == if WorkThrows(s, copy, x) then Caught(Work(s, copy, x), copy, x) else Work(s, copy, x)
  {
    assert Complete(s, copy, x, Checking) == Complete(s, copy, x, AfterCheck(s, copy, x));
    if x.checkThrows {
      CatchingCompletes(s, copy, x);
    } else if Throttles(s, copy, x) {
      RecordCompletes(s, copy, x, SkippedBudget);
    } else {
      match x.outcome
      case NoPlugin =>
      case ParseFails => RecordCompletes(s, copy, x, Failed);
      case PipelineFails => FailedRecordCompletes(s, copy, x);
      case Throws => CatchingCompletes(s, copy, x);
      case Succeeds => SuccessCompletes(s, copy, x);
    }
  }

  /** Statement by statement, an undisturbed call does what the model's one step says. */
  lemma {:induction false} CallCompletes(s: State, copy: Source, x: Execution)
    requires s.clock == x.endedAt
    ensures Complete(s, copy, x, Locking) == ProcessCopy(s, copy, x)
  {
    var r := AfterLock(s, copy, x);
    assert Complete(s, copy, x, Locking) == Complete(r.0, copy, x, r.1);
    if LockThrows(copy, x) {
      CatchingCompletes(s, copy, x);
    } else if NotLocked(s, copy, x) {
      assert r.1 == Finished;
    } else {
      CheckingCompletes(r.0, copy, x);
    }
  }

  // ---------------------------------------------------------------- the calls of a tick, interleaved

  /** The tables, and how far each call has come. */
  datatype Slice = Slice(tables: Tables, points: map<SourceId, Point>)

  predicate Rows(t: Tables, id: SourceId) {
    id in t.sources && id in t.executions
  }

  /** The rows of one source; no statement looks at the clock here. */
  function RowsOf(t: Tables, id: SourceId, x: Execution): State
    requires Rows(t, id)
  {
    Scheduler.State(x.endedAt, t.sources[id], t.executions[id])
  }

  predicate CanMove(b: Slice, copies: map<SourceId, Source>, id: SourceId) {
    id in b.points && b.points[id] != Finished && Rows(b.tables, id) && id in copies
  }

  /** The call for this source executes its next statement. */
  function Move(b: Slice, copies: map<SourceId, Source>, xs: SourceId -> Execution, id: SourceId): Slice
    requires CanMove(b, copies, id)
  {
    var r := Statement(RowsOf(b.tables, id, xs(id)), copies[id], xs(id), b.points[id]);
    Slice(Tables(b.tables.sources[id := r.0.source], b.tables.executions[id := r.0.records]), b.points[id := r.1])
  }

  /** `order` says whose call moves next. */
  predicate ValidOrder(b: Slice, copies: map<SourceId, Source>, xs: SourceId -> Execution, order: seq<SourceId>)
    decreases |order|
  {
    order == [] || (CanMove(b, copies, order[0]) && ValidOrder(Move(b, copies, xs, order[0]), copies, xs, order[1..]))
  }

  function MoveAll(b: Slice, copies: map<SourceId, Source>, xs: SourceId -> Execution, order: seq<SourceId>): Slice
    requires ValidOrder(b, copies, xs, order)
    decreases |order|
  {
    if order == [] then b else MoveAll(Move(b, copies, xs, order[0]), copies, xs, order[1..])
  }

  function Started(t: Tables, due: seq<SourceId>): Slice {
    Slice(t, map id | id in due :: Locking)
  }

  /** What the source's rows come to if its call is completed alone. */
  ghost predicate OnTheWay(t: Tables, b: Slice, copies: map<SourceId, Source>, xs: SourceId -> Execution, id: SourceId)
    requires Rows(t, id) && Rows(b.tables, id) && id in copies
  {
    var x := xs(id);
    if id in b.points then Complete(RowsOf(b.tables, id, x), copies[id], x, b.points[id]) == ProcessCopy(RowsOf(t, id, x), copies[id], x)
    else RowsOf(b.tables, id, x) == RowsOf(t, id, x)
  }

  ghost predicate AllOnTheWay(t: Tables, b: Slice, copies: map<SourceId, Source>, xs: SourceId -> Execution) {
    && SameKeys(t, b.tables) && copies.Keys == t.sources.Keys
    && forall id :: id in t.sources ==> OnTheWay(t, b, copies, xs, id)
  }

  lemma MoveKeeps(t: Tables, b: Slice, copies: map<SourceId, Source>, xs: SourceId -> Execution, id: SourceId)
    requires AllOnTheWay(t, b, copies, xs) && CanMove(b, copies, id)
    ensures AllOnTheWay(t, Move(b, copies, xs, id), copies, xs)
  {
    var b', x := Move(b, copies, xs, id), xs(id);
    forall k | k in t.sources ensures OnTheWay(t, b', copies, xs, k) {
      assert OnTheWay(t, b, copies, xs, k);
      if k == id {
        var r := Statement(RowsOf(b.tables, id, x), copies[id], x, b.points[id]);
        assert RowsOf(b'.tables, id, x) == r.0;
      }
    }
  }

  lemma {:induction false} OrderKeeps(t: Tables, b: Slice, copies: map<SourceId, Source>, xs: SourceId -> Execution, order: seq<SourceId>)
    requires AllOnTheWay(t, b, copies, xs) && ValidOrder(b, copies, xs, order)
    ensures AllOnTheWay(t, MoveAll(b, copies, xs, order), copies, xs)
    ensures MoveAll(b, copies, xs, order).points.Keys == b.points.Keys
    decreases |order|
  {
    if order != [] {
      MoveKeeps(t, b, copies, xs, order[0]);
      OrderKeeps(t, Move(b, copies, xs, order[0]), copies, xs, order[1..]);
    }
  }

  lemma StartIsOnTheWay(t: Tables, due: seq<SourceId>, xs: SourceId -> Execution)
    requires t.executions.Keys == t.sources.Keys && forall id :: id in due ==> id in t.sources
    ensures AllOnTheWay(t, Started(t, due), t.sources, xs)
  {
    forall id | id in t.sources ensures OnTheWay(t, Started(t, due), t.sources, xs, id) {
      if id in due { CallCompletes(RowsOf(t, id, xs(id)), t.sources[id], xs(id)); }
    }
  }

  /**
   * However the statements of a tick's calls interleave, slice by slice or all at once, when all calls have
   * finished each due source has been processed once, as if alone, and no other source has changed.
   */
  lemma {:induction false} AnyInterleaving(t: Tables, due: seq<SourceId>, xs: SourceId -> Execution, order: seq<SourceId>)
    requires t.executions.Keys == t.sources.Keys && forall id :: id in due ==> id in t.sources
    requires ValidOrder(Started(t, due), t.sources, xs, order)
    requires var b := MoveAll(Started(t, due), t.sources, xs, order); forall id :: id in b.points ==> b.points[id] == Finished
    ensures TickedUpTo(due, |due|, t, MoveAll(Started(t, due), t.sources, xs, order).tables, xs)
  {
    var b := MoveAll(Started(t, due), t.sources, xs, order);
    StartIsOnTheWay(t, due, xs);
    OrderKeeps(t, Started(t, due), t.sources, xs, order);
    forall k | 0 <= k < |due| ensures Processed(t, b.tables, due[k], xs(due[k])) {
      assert due[k] in due && OnTheWay(t, b, t.sources, xs, due[k]);
    }
    forall id | id in t.sources && !Among(due, |due|, id)
      ensures b.tables.sources[id] == t.sources[id] && b.tables.executions[id] == t.executions[id]
    {
      assert OnTheWay(t, b, t.sources, xs, id);
    }
  }
}
