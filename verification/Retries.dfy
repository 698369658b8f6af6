/** Time and work bounds of the retry policy, over whole runs. */
module Retries {
  import opened SessionEvents
  import opened Outbox
  import opened Pipeline
  import opened NoLoss

  // ---------------------------------------------------------------- no early death

  ghost predicate TimedRow(s: State, r: OutboxRow) {
    if r.attempts == 0 then r.id !in s.firstFailure
    else
      && r.id in s.firstFailure && r.id in s.lastFailure
      && s.firstFailure[r.id] + TotalBackoff(r.attempts) <= s.lastFailure[r.id] <= s.clock
      && r.nextAttemptAt == s.lastFailure[r.id] + Backoff(r.attempts)
  }

  ghost predicate Timed(s: State) {
    && (forall id :: id in s.outbox ==> TimedRow(s, s.outbox[id]))
    && (forall id :: id in s.firstFailure ==> id in s.committed)
    && (forall r :: r in Rest(s) ==> r.nextAttemptAt <= s.clock)
  }

  /** The times a recorded failure writes down. */
  predicate TimesRecorded(s: State, s': State, id: Id) {
    && s'.firstFailure == (if id in s.firstFailure then s.firstFailure else s.firstFailure[id := s.clock])
    && s'.lastFailure == s.lastFailure[id := s.clock]
  }

  lemma RecordTimes(s: State)
    requires Enabled(s, Record)
    ensures var id := s.phase.rest[0].id; id in s.outbox ==> TimesRecorded(s, Next(s, Record), id)
  {
    assert s.phase.rest[0].id in s.outbox ==> RecordStep(s) == Failed(s, s.phase.rest[0]);
  }

  /** The failed row's own times move together. */
  lemma FailedRowTimed(s: State, s': State, row: OutboxRow)
    requires Inv(s) && Timed(s) && !s.phase.Idle? && s.phase.rest != [] && s.phase.rest[0] == row
    requires FailureRecorded(s, s', row) && TimesRecorded(s, s', row.id)
    ensures TimedRow(s', s'.outbox[row.id])
  {
    InHandCurrent(s);
    assert row in Rest(s);
    assert TimedRow(s, s.outbox[row.id]);
  }

  lemma FailureKeepsTimed(s: State, s': State, row: OutboxRow)
    requires Inv(s) && Timed(s) && !s.phase.Idle? && s.phase.rest != [] && s.phase.rest[0] == row
    requires FailureRecorded(s, s', row) && TimesRecorded(s, s', row.id) && s'.phase == Working(s.phase.rest[1..])
    ensures Timed(s')
  {
    InHandCurrent(s);
    FailedRowTimed(s, s', row);
    assert Rest(s') == Rest(s)[1..];
    forall id | id in s'.outbox && id != row.id ensures TimedRow(s', s'.outbox[id]) {
      assert TimedRow(s, s.outbox[id]) && s.outbox[id].id == id;
    }
  }

  lemma RecordKeepsTimed(s: State)
    requires Inv(s) && Timed(s) && Enabled(s, Record)
    ensures Timed(Next(s, Record)) && Timed(Next(s, RecordThrows(true)))
  {
    RecordEffect(s);
    RecordTimes(s);
    if s.phase.rest[0].id in s.outbox {
      FailureKeepsTimed(s, Next(s, Record), s.phase.rest[0]);
    } else {
      assert Rest(Next(s, Record)) == Rest(s)[1..];
      QuietStepKeepsTimed(s, Next(s, Record));
    }
    QuietStepKeepsTimed(Next(s, Record), Next(s, RecordThrows(true)));
  }

  /** Steps that neither fail nor add a row: settled rows may change or go, no row gets a new time. */
  lemma QuietStepKeepsTimed(s: State, s': State)
    requires Timed(s) && s.clock <= s'.clock
    requires s'.firstFailure == s.firstFailure && s'.lastFailure == s.lastFailure
    requires forall id :: id in s.committed ==> id in s'.committed
    requires forall id :: id in s'.outbox ==> id in s.outbox
    requires forall id :: id in s'.outbox ==>
               s'.outbox[id] == s.outbox[id] || s'.outbox[id] == s.outbox[id].(status := Published, publishedAt := s'.outbox[id].publishedAt)
    requires forall r :: r in Rest(s') ==> r in Rest(s) || r.nextAttemptAt <= s.clock
    ensures Timed(s')
  {
    forall id | id in s'.outbox ensures TimedRow(s', s'.outbox[id]) {
      assert TimedRow(s, s.outbox[id]);
    }
  }

  lemma InsertKeepsTimed(s: State, s': State, id: Id, e: Event)
    requires Inv(s) && Timed(s) && Inserted(s, s', id, e) && s'.firstFailure == s.firstFailure && s'.lastFailure == s.lastFailure
    ensures Timed(s')
  {
    assert Rest(s') == Rest(s);
    forall i | i in s'.outbox ensures TimedRow(s', s'.outbox[i]) {
      if i != id { assert TimedRow(s, s.outbox[i]); }
    }
  }

  lemma CommitKeepsTimed(s: State, req: Request)
    requires Inv(s) && Timed(s) && Enabled(s, Commit(req))
    ensures Timed(CommitStep(s, req))
  {
    CommitInserts(s, req);
    if CommitStep(s, req) != s { InsertKeepsTimed(s, CommitStep(s, req), req.outboxId, req.event); }
  }

  lemma FetchKeepsTimed(s: State, batch: seq<OutboxRow>)
    requires Timed(s) && Enabled(s, TickBegin(batch))
    ensures Timed(Next(s, TickBegin(batch)))
  {
    QuietStepKeepsTimed(s, Next(s, TickBegin(batch)));
  }

  lemma PublishKeepsTimed(s: State, outcome: PublishOutcome)
    requires Timed(s) && Enabled(s, Publish(outcome))
    ensures Timed(Next(s, Publish(outcome)))
  {
    QuietStepKeepsTimed(s, Next(s, Publish(outcome)));
  }

  lemma MarkKeepsTimed(s: State, step: Step)
    requires Timed(s) && Enabled(s, step) && (step.Mark? || step.MarkThrows?)
    ensures Timed(Next(s, step))
  {
    assert Rest(Next(s, step)) == if step.Mark? then Rest(s)[1..] else Rest(s);
    QuietStepKeepsTimed(s, Next(s, step));
  }

  lemma PersistOnlyKeepsTimed(s: State, e: Event, eventId: string, fault: Fault)
    requires Timed(s)
    ensures Timed(PersistOnlyStep(s, e, eventId, fault))
  {
    PersistOnlyFrame(s, e, eventId, fault);
    QuietStepKeepsTimed(s, PersistOnlyStep(s, e, eventId, fault));
  }

  lemma StepKeepsTimed(s: State, step: Step)
    requires Inv(s) && Timed(s) && Enabled(s, step)
    requires step.Advance? ==> s.clock <= step.t
    ensures Timed(Next(s, step))
  {
    match step
    case Record => RecordKeepsTimed(s);
    case RecordThrows(tookEffect) => if tookEffect { RecordKeepsTimed(s); } else { QuietStepKeepsTimed(s, Next(s, step)); }
    case Commit(req) => CommitKeepsTimed(s, req);
    case TickBegin(batch) => FetchKeepsTimed(s, batch);
    case Publish(outcome) => PublishKeepsTimed(s, outcome);
    case Mark => MarkKeepsTimed(s, step);
    case MarkThrows(_) => MarkKeepsTimed(s, step);
    case PersistOnly(e, eventId, fault) => PersistOnlyKeepsTimed(s, e, eventId, fault);
    case _ => QuietStepKeepsTimed(s, Next(s, step));
  }

  lemma {:induction false} RunKeepsTimed(s: State, steps: seq<Step>)
    requires Inv(s) && Timed(s) && ValidRun(s, steps) && Monotone(s, steps)
    ensures Timed(Run(s, steps))
    decreases |steps|
  {
    if steps != [] {
      StepKeepsTimed(s, steps[0]);
      StepKeeps(s, steps[0]);
      RunKeepsTimed(Next(s, steps[0]), steps[1..]);
    }
  }

  /** Under a clock that never goes back, a row is given up no sooner than 81 s after its first failure. */
  lemma {:induction false} NoEarlyDeath(t: int, steps: seq<Step>, id: Id)
    requires ValidRun(Init(t), steps) && Monotone(Init(t), steps)
    requires id in Run(Init(t), steps).outbox && Run(Init(t), steps).outbox[id].status == Dead
    ensures var s := Run(Init(t), steps);
            && id in s.firstFailure && id in s.lastFailure
            && s.firstFailure[id] + 81_000 <= s.lastFailure[id] <= s.clock
  {
    RunKeeps(Init(t), steps);
    RunKeepsTimed(Init(t), steps);
    TotalBackoffToDeath();
    var s := Run(Init(t), steps);
    assert LedgerOk(s, id);
    assert TimedRow(s, s.outbox[id]);
  }

  // ---------------------------------------------------------------- bounded work

  /** How many more recorded processings a row can absorb. */
  function Remaining(t: Table, id: Id): nat {
    if id in t && t[id].status == Pending && t[id].attempts < MAX_ATTEMPTS then MAX_ATTEMPTS - t[id].attempts else 0
  }

  ghost function Sum(t: Table, ids: set<Id>): nat {
    if ids == {} then 0 else var id :| id in ids; Remaining(t, id) + Sum(t, ids - {id})
  }

  ghost function Potential(t: Table): nat {
    Sum(t, t.Keys)
  }

  lemma {:induction false} SumSplit(t: Table, ids: set<Id>, id: Id)
    requires id in ids
    ensures Sum(t, ids) == Remaining(t, id) + Sum(t, ids - {id})
  {
    var x :| x in ids && Sum(t, ids) == Remaining(t, x) + Sum(t, ids - {x});
    if x != id {
      SumSplit(t, ids - {x}, id);
      SumSplit(t, ids - {id}, x);
      assert ids - {x} - {id} == ids - {id} - {x};
    }
  }

  lemma {:induction false} SumAgrees(t: Table, t': Table, ids: set<Id>)
    requires forall id :: id in ids ==> Remaining(t, id) == Remaining(t', id)
    ensures Sum(t, ids) == Sum(t', ids)
  {
    if ids != {} {
      var id :| id in ids;
      SumSplit(t, ids, id);
      SumSplit(t', ids, id);
      SumAgrees(t, t', ids - {id});
    }
  }

  ghost function PendingIn(t: Table, ids: set<Id>): set<Id> {
    set id | id in ids && id in t && t[id].status == Pending
  }

  lemma {:induction false} SumBound(t: Table, ids: set<Id>)
    ensures Sum(t, ids) <= 10 * |PendingIn(t, ids)|
  {
    if ids != {} {
      var id :| id in ids;
      SumSplit(t, ids, id);
      SumBound(t, ids - {id});
      var all, others := PendingIn(t, ids), PendingIn(t, ids - {id});
      if id in t && t[id].status == Pending {
        assert all == others + {id} && id !in others;
        assert |all| == |others| + 1;
      } else {
        assert all == others;
      }
    }
  }

  lemma {:induction false} SumZero(t: Table, ids: set<Id>, id: Id)
    requires Sum(t, ids) == 0 && id in ids
    ensures Remaining(t, id) == 0
  {
    SumSplit(t, ids, id);
  }

  /** Changing one row changes the sum by that row's share. */
  lemma PotentialUpdate(t: Table, t': Table, id: Id)
    requires t'.Keys == t.Keys + {id}
    requires forall i :: i in t && i != id ==> t'[i] == t[i]
    ensures Potential(t') + Remaining(t, id) == Potential(t) + Remaining(t', id)
  {
    SumSplit(t', t'.Keys, id);
    SumAgrees(t, t', t.Keys - {id});
    assert t'.Keys - {id} == t.Keys - {id};
    if id in t { SumSplit(t, t.Keys, id); } else { assert t.Keys - {id} == t.Keys; }
  }

  lemma {:induction false} PotentialTrim(t: Table, now: int, ids: set<Id>)
    requires ids <= t.Keys
    ensures Sum(Trim(t, now), ids * Trim(t, now).Keys) == Sum(t, ids)
  {
    var t' := Trim(t, now);
    if ids == {} {
      assert ids * t'.Keys == {};
    } else {
      var id :| id in ids;
      SumSplit(t, ids, id);
      PotentialTrim(t, now, ids - {id});
      if id in t' {
        SumSplit(t', ids * t'.Keys, id);
        assert ids * t'.Keys - {id} == (ids - {id}) * t'.Keys;
      } else {
        assert ids * t'.Keys == (ids - {id}) * t'.Keys;
      }
    }
  }

  /** What a lost mark owes: its row counts as published until the catch branch takes that back. */
  ghost function Owed(s: State): nat {
    if HeadMarked(s) && s.phase.rest[0].id in s.outbox && s.phase.rest[0].attempts < MAX_ATTEMPTS then
      MAX_ATTEMPTS - s.phase.rest[0].attempts
    else 0
  }

  ghost function Work(s: State): int {
    s.recorded + Potential(s.outbox) + Owed(s) - 10 * |s.committed|
  }

  /** A new row brings ten units, paid for by the committed event. */
  lemma EnqueueWork(t: Table, committed: map<Id, Event>, id: Id, e: Event, now: int)
    requires id !in t && id !in committed
    ensures Potential(t[id := Enqueued(id, e, now)]) == Potential(t) + 10
    ensures |committed[id := e]| == |committed| + 1
  {
    PotentialUpdate(t, t[id := Enqueued(id, e, now)], id);
    assert committed[id := e].Keys == committed.Keys + {id};
    assert |committed[id := e].Keys| == |committed[id := e]| && |committed.Keys| == |committed|;
  }

  lemma CommitWork(s: State, req: Request)
    requires Inv(s) && Enabled(s, Commit(req))
    ensures Work(CommitStep(s, req)) == Work(s)
  {
    CommitInserts(s, req);
    EnqueueWork(s.outbox, s.committed, req.outboxId, req.event, s.clock);
    if s.phase.Failing? { InHandCurrent(s); }
  }

  lemma MarkWork(s: State)
    requires Inv(s) && Enabled(s, Mark)
    ensures Work(Next(s, Mark)) <= Work(s)
  {
    InHandCurrent(s);
    PotentialUpdate(s.outbox, Next(s, Mark).outbox, s.phase.rest[0].id);
  }

  lemma MarkThrowsWork(s: State, tookEffect: bool)
    requires Inv(s) && Enabled(s, MarkThrows(tookEffect))
    ensures Work(Next(s, MarkThrows(tookEffect))) == Work(s)
  {
    InHandCurrent(s);
    PotentialUpdate(s.outbox, Next(s, MarkThrows(tookEffect)).outbox, s.phase.rest[0].id);
  }

  /** A recorded failure uses up one unit. */
  lemma FailureWork(s: State, s': State, row: OutboxRow)
    requires Inv(s) && s.phase.Failing? && s.phase.rest != [] && s.phase.rest[0] == row
    requires FailureRecorded(s, s', row) && s'.recorded == s.recorded + 1 && !s'.phase.Failing?
    ensures Work(s') <= Work(s)
  {
    InHandCurrent(s);
    PotentialUpdate(s.outbox, s'.outbox, row.id);
  }

  lemma RecordCounted(s: State)
    requires Enabled(s, Record) && s.phase.rest[0].id in s.outbox
    ensures Next(s, Record).recorded == s.recorded + 1
  {
    assert RecordStep(s) == Failed(s, s.phase.rest[0]);
  }

  lemma NothingRecordedWork(s: State, s': State)
    requires s' == s.(phase := s'.phase) && s'.phase.Working?
    ensures Work(s') <= Work(s)
  {
  }

  lemma RecordWork(s: State)
    requires Inv(s) && Enabled(s, Record)
    ensures Work(Next(s, Record)) <= Work(s)
  {
    RecordEffect(s);
    if s.phase.rest[0].id in s.outbox {
      RecordCounted(s);
      FailureWork(s, Next(s, Record), s.phase.rest[0]);
    } else {
      NothingRecordedWork(s, Next(s, Record));
    }
  }

  lemma RecordThrowsWork(s: State, tookEffect: bool)
    requires Inv(s) && Enabled(s, RecordThrows(tookEffect))
    ensures Work(Next(s, RecordThrows(tookEffect))) <= Work(s)
  {
    if tookEffect {
      RecordEffect(s);
      RecordWork(s);
    }
  }

  lemma TrimWork(s: State)
    requires Inv(s)
    ensures Work(Next(s, TrimPublished)) <= Work(s)
  {
    PotentialTrim(s.outbox, s.clock, s.outbox.Keys);
    assert s.outbox.Keys * Trim(s.outbox, s.clock).Keys == Trim(s.outbox, s.clock).Keys;
    if s.phase.Failing? { InHandCurrent(s); }
  }

  lemma PublishWork(s: State, outcome: PublishOutcome)
    requires Inv(s) && Enabled(s, Publish(outcome))
    ensures Work(Next(s, Publish(outcome))) == Work(s)
  {
    InHandCurrent(s);
  }

  lemma WorkStep(s: State, step: Step)
    requires Inv(s) && Enabled(s, step)
    ensures Work(Next(s, step)) <= Work(s)
  {
    match step
    case Commit(req) => CommitWork(s, req);
    case Publish(outcome) => PublishWork(s, outcome);
    case Mark => MarkWork(s);
    case MarkThrows(tookEffect) => MarkThrowsWork(s, tookEffect);
    case Record => RecordWork(s);
    case RecordThrows(tookEffect) => RecordThrowsWork(s, tookEffect);
    case TrimPublished => TrimWork(s);
    case PersistOnly(e, eventId, fault) => PersistOnlyFrame(s, e, eventId, fault);
    case _ =>
  }

  lemma {:induction false} WorkRun(s: State, steps: seq<Step>)
    requires Inv(s) && ValidRun(s, steps)
    ensures Work(Run(s, steps)) <= Work(s)
    decreases |steps|
  {
    if steps != [] {
      WorkStep(s, steps[0]);
      StepKeeps(s, steps[0]);
      WorkRun(Next(s, steps[0]), steps[1..]);
    }
  }

  ghost function PendingIds(t: Table): set<Id> {
    PendingIn(t, t.Keys)
  }

  /** The rows of which an outcome can still be recorded. */
  ghost function OpenIds(s: State): set<Id> {
    PendingIds(s.outbox) + if HeadMarked(s) && s.phase.rest[0].id in s.outbox then {s.phase.rest[0].id} else {}
  }

  lemma PotentialBound(s: State)
    requires Inv(s)
    ensures Potential(s.outbox) <= 10 * |PendingIds(s.outbox)|
    ensures Potential(s.outbox) == 0 ==> PendingIds(s.outbox) == {}
  {
    var t := s.outbox;
    SumBound(t, t.Keys);
    forall id | id in PendingIds(t) && Potential(t) == 0 ensures false {
      assert LedgerOk(s, id);
      SumZero(t, t.Keys, id);
    }
  }

  lemma OpenCount(s: State)
    requires Inv(s)
    ensures |OpenIds(s)| == |PendingIds(s.outbox)| + if HeadMarked(s) && s.phase.rest[0].id in s.outbox then 1 else 0
  {
    var pending := PendingIds(s.outbox);
    if HeadMarked(s) && s.phase.rest[0].id in s.outbox {
      assert OpenIds(s) == pending + {s.phase.rest[0].id} && s.phase.rest[0].id !in pending;
    } else {
      assert OpenIds(s) == pending;
    }
  }

  lemma OpenBound(s: State)
    requires Inv(s)
    ensures Potential(s.outbox) + Owed(s) <= 10 * |OpenIds(s)|
    ensures Potential(s.outbox) + Owed(s) == 0 ==> |OpenIds(s)| == 0
  {
    PotentialBound(s);
    OpenCount(s);
    if HeadMarked(s) { InHandCurrent(s); }
  }

  /**
   * The relay cannot retry for ever. From any reachable state, the outcomes recorded during a run are at most ten
   * for each row open at its start and for each event committed during it; once that many are recorded, no row is
   * open, and so none pending.
   */
  lemma {:induction false} RetriesAreBounded(t: int, before: seq<Step>, steps: seq<Step>)
    requires ValidRun(Init(t), before) && ValidRun(Run(Init(t), before), steps)
    ensures var s0, s := Run(Init(t), before), Run(Run(Init(t), before), steps);
            var allowed := 10 * (|OpenIds(s0)| + |s.committed| - |s0.committed|);
            && s.recorded - s0.recorded <= allowed
            && (s.recorded - s0.recorded == allowed ==> OpenIds(s) == {})
  {
    RunKeeps(Init(t), before);
    var s0 := Run(Init(t), before);
    WorkRun(s0, steps);
    RunKeeps(s0, steps);
    OpenBound(s0);
    OpenBound(Run(s0, steps));
  }
}
