/** No starvation: how many completed ticks a due row can wait. */
module Fairness {
  import opened SessionEvents
  import opened Outbox
  import opened Pipeline
  import opened NoLoss

  /** The other pending rows the ORDER BY may put at or before a row due at `due`. */
  ghost function Ahead(t: Table, id: Id, due: int): set<Id> {
    set i | i in t && i != id && t[i].status == Pending && t[i].nextAttemptAt <= due
  }

  /** The writes that take effect. */
  predicate Writes(step: Step) {
    step.Mark? || step == MarkThrows(true) || step.Record? || step == RecordThrows(true)
  }

  ghost predicate Handles(s: State, step: Step, id: Id) {
    Writes(step) && Enabled(s, step) && s.phase.rest[0].id == id
  }

  /** Some step of the run writes an outcome for the row: published, or one more failure. */
  ghost predicate HandledDuring(s: State, steps: seq<Step>, id: Id)
    requires ValidRun(s, steps)
    decreases |steps|
  {
    steps != [] && (Handles(s, steps[0], id) || HandledDuring(Next(s, steps[0]), steps[1..], id))
  }

  ghost predicate InBatch(s: State, id: Id) {
    exists r :: r in Rest(s) && r.id == id
  }

  /**
   * The row still waits, and at most `credit` rows can still be served before it. A tick whose batch leaves the
   * row out has paid a full batch in advance, or, if it began before we looked, does not count.
   */
  ghost predicate Waiting(s: State, id: Id, due: int, credit: int) {
    && id in s.outbox && s.outbox[id].status == Pending && s.outbox[id].nextAttemptAt == due <= s.clock
    && var ahead := Ahead(s.outbox, id, due);
       if s.phase.Idle? || InBatch(s, id) then |ahead| <= credit
       else |ahead| + BATCH_SIZE <= credit || PaidAhead(s, ahead, credit)
  }

  /** The fetched rows that still wait for an outcome in the table. */
  ghost function Left(s: State): seq<OutboxRow> {
    if HeadMarked(s) then Rest(s)[1..] else Rest(s)
  }

  ghost predicate PaidAhead(s: State, ahead: set<Id>, credit: int) {
    && |Left(s)| <= BATCH_SIZE
    && (forall r :: r in Left(s) ==> r.id in ahead)
    && |ahead| - |Left(s)| + BATCH_SIZE <= credit
  }

  /** A commit in the very millisecond the row is due: the query may list the new row first. */
  ghost predicate Joins(s: State, step: Step, due: int)
    requires Enabled(s, step)
  {
    step.Commit? && s.clock <= due && |Next(s, step).events| > |s.events|
  }

  ghost function Joiners(s: State, steps: seq<Step>, due: int): nat
    requires ValidRun(s, steps)
    decreases |steps|
  {
    if steps == [] then 0 else (if Joins(s, steps[0], due) then 1 else 0) + Joiners(Next(s, steps[0]), steps[1..], due)
  }

  lemma BeginWaits(s: State, batch: seq<OutboxRow>, id: Id, due: int, credit: int)
    requires Inv(s) && Enabled(s, TickBegin(batch)) && Waiting(s, id, due, credit)
    ensures Waiting(Next(s, TickBegin(batch)), id, due, credit)
  {
    var s' := Next(s, TickBegin(batch));
    assert Rest(s') == batch && Left(s') == batch;
    if s.outbox[id] in batch {
      assert InBatch(s', id);
    } else {
      assert Due(s.outbox[id], s.clock);
      assert forall r :: r in batch ==> r.nextAttemptAt <= due;
    }
  }

  /** A row that is published, given up or put off is no longer ahead; the others still are. */
  lemma RewrittenRowLeaves(t: Table, id: Id, due: int, row: OutboxRow)
    requires row.id in t && row.id != id && (row.status != Pending || row.nextAttemptAt > due)
    ensures Ahead(t[row.id := row], id, due) == Ahead(t, id, due) - {row.id}
    ensures |Ahead(t[row.id := row], id, due)| <= |Ahead(t, id, due)|
  {
    var ahead := Ahead(t, id, due);
    assert Ahead(t[row.id := row], id, due) == ahead - {row.id};
    assert |ahead - {row.id}| <= |ahead|;
  }

  lemma MarkedRowLeaves(s: State, step: Step, id: Id, due: int)
    requires Inv(s) && (step.Mark? || step == MarkThrows(true)) && Enabled(s, step) && s.phase.rest[0].id != id
    ensures Ahead(Next(s, step).outbox, id, due) == Ahead(s.outbox, id, due) - {s.phase.rest[0].id}
  {
    InHandCurrent(s);
    var row := s.phase.rest[0];
    RewrittenRowLeaves(s.outbox, id, due, Next(s, step).outbox[row.id]);
  }

  lemma FailedRowLeaves(s: State, s': State, id: Id, due: int)
    requires Inv(s) && s.phase.Failing? && s.phase.rest != [] && FailureRecorded(s, s', s.phase.rest[0])
    requires due <= s.clock && s.phase.rest[0].id != id
    ensures Ahead(s'.outbox, id, due) == Ahead(s.outbox, id, due) - {s.phase.rest[0].id}
  {
    InHandCurrent(s);
    var row := s.phase.rest[0];
    BackoffBounds(row.attempts + 1, row.attempts + 1);
    RewrittenRowLeaves(s.outbox, id, due, s'.outbox[row.id]);
  }

  /** A row whose mark was lost was not ahead any more. */
  lemma MarkedNotAhead(s: State, id: Id, due: int)
    requires HeadMarked(s)
    ensures s.phase.rest[0].id !in Ahead(s.outbox, id, due)
  {
  }

  lemma RestOfBatch(s: State, s': State, id: Id)
    requires !s.phase.Idle? && s.phase.rest != [] && s.phase.rest[0].id != id
    requires s'.phase == Working(s.phase.rest[1..])
    ensures Rest(s') == Rest(s)[1..] && Left(s') == Rest(s)[1..] && (InBatch(s, id) <==> InBatch(s', id))
  {
    if InBatch(s, id) {
      var r :| r in Rest(s) && r.id == id;
      assert r in Rest(s');
    }
  }

  /** The head of the batch leaves the rows ahead, and the rows left, together. */
  lemma PaidAheadMovesOn(s: State, s': State, ahead: set<Id>, credit: int)
    requires !s.phase.Idle? && s.phase.rest != [] && DistinctIds(Rest(s)) && !HeadMarked(s) && PaidAhead(s, ahead, credit)
    requires Left(s') == Rest(s)[1..]
    ensures PaidAhead(s', ahead - {s.phase.rest[0].id}, credit)
  {
    var row, ahead' := s.phase.rest[0], ahead - {s.phase.rest[0].id};
    assert Left(s) == Rest(s) && row in Rest(s);
    assert |ahead'| == |ahead| - 1;
    forall r | r in Left(s') ensures r.id in ahead' {
      var i :| 0 <= i < |Left(s')| && Left(s')[i] == r;
      assert r == Rest(s)[i + 1] && r.id != row.id && r in Rest(s);
    }
  }

  /** The row in hand is published, given up or put off: it is out of the way, in the table and in the batch. */
  lemma RowWrittenWaits(s: State, s': State, id: Id, due: int, credit: int)
    requires BatchCurrent(s) && Waiting(s, id, due, credit) && s'.clock == s.clock
    requires !s.phase.Idle? && s.phase.rest != [] && !HeadMarked(s)
    requires id in s'.outbox && s'.outbox[id] == s.outbox[id]
    requires Ahead(s'.outbox, id, due) == Ahead(s.outbox, id, due) - {s.phase.rest[0].id}
    requires s'.phase.Idle? || (Left(s') == Rest(s)[1..] && (InBatch(s, id) <==> InBatch(s', id)))
    ensures Waiting(s', id, due, credit)
  {
    var ahead := Ahead(s.outbox, id, due);
    assert |ahead - {s.phase.rest[0].id}| <= |ahead|;
    if !s'.phase.Idle? && !InBatch(s, id) && PaidAhead(s, ahead, credit) {
      PaidAheadMovesOn(s, s', ahead, credit);
    }
  }

  lemma MarkWaits(s: State, id: Id, due: int, credit: int)
    requires Inv(s) && Enabled(s, Mark) && Waiting(s, id, due, credit) && s.phase.rest[0].id != id
    ensures Waiting(Next(s, Mark), id, due, credit)
  {
    MarkedRowLeaves(s, Mark, id, due);
    RestOfBatch(s, Next(s, Mark), id);
    RowWrittenWaits(s, Next(s, Mark), id, due, credit);
  }

  lemma LostMarkWaits(s: State, id: Id, due: int, credit: int)
    requires Inv(s) && Enabled(s, MarkThrows(true)) && Waiting(s, id, due, credit) && s.phase.rest[0].id != id
    ensures Waiting(Next(s, MarkThrows(true)), id, due, credit)
  {
    var s' := Next(s, MarkThrows(true));
    InHandCurrent(s);
    MarkedRowLeaves(s, MarkThrows(true), id, due);
    assert Rest(s') == Rest(s) && HeadMarked(s') && (InBatch(s', id) <==> InBatch(s, id));
    RowWrittenWaits(s, s', id, due, credit);
  }

  lemma RecordWaits(s: State, s': State, id: Id, due: int, credit: int)
    requires Inv(s) && Enabled(s, Record) && Waiting(s, id, due, credit) && s.phase.rest[0].id != id
    requires s'.phase == Working(s.phase.rest[1..]) || s'.phase.Idle?
    requires FailureRecorded(s, s', s.phase.rest[0])
    ensures Waiting(s', id, due, credit)
  {
    FailedRowLeaves(s, s', id, due);
    if !s'.phase.Idle? { RestOfBatch(s, s', id); }
    if HeadMarked(s) {
      MarkedNotAhead(s, id, due);
      assert Ahead(s'.outbox, id, due) == Ahead(s.outbox, id, due);
      QuietStepWaits(s, s', id, due, credit);
    } else {
      RowWrittenWaits(s, s', id, due, credit);
    }
  }

  lemma RecordNothingWaits(s: State, s': State, id: Id, due: int, credit: int)
    requires Inv(s) && Enabled(s, Record) && Waiting(s, id, due, credit) && s.phase.rest[0].id !in s.outbox
    requires s'.phase == Working(s.phase.rest[1..]) || s'.phase.Idle?
    requires s' == s.(phase := s'.phase)
    ensures Waiting(s', id, due, credit)
  {
    if !s'.phase.Idle? { RestOfBatch(s, s', id); }
    QuietStepWaits(s, s', id, due, credit);
  }

  lemma FailureWaits(s: State, step: Step, id: Id, due: int, credit: int)
    requires Inv(s) && (step.Record? || step == RecordThrows(true)) && Enabled(s, step)
    requires Waiting(s, id, due, credit) && s.phase.rest[0].id != id
    ensures Waiting(Next(s, step), id, due, credit)
  {
    RecordEffect(s);
    if s.phase.rest[0].id in s.outbox {
      RecordWaits(s, Next(s, step), id, due, credit);
    } else {
      RecordNothingWaits(s, Next(s, step), id, due, credit);
    }
  }

  /** Writing an outcome for another row takes that row out of the way for good. */
  lemma WriteWaits(s: State, step: Step, id: Id, due: int, credit: int)
    requires Inv(s) && Writes(step) && Enabled(s, step)
    requires Waiting(s, id, due, credit) && s.phase.rest[0].id != id
    ensures Waiting(Next(s, step), id, due, credit)
  {
    if step.Mark? {
      MarkWaits(s, id, due, credit);
    } else if step.MarkThrows? {
      LostMarkWaits(s, id, due, credit);
    } else {
      FailureWaits(s, step, id, due, credit);
    }
  }

  /** Steps that leave every pending row as it was, or add one that is due later. */
  lemma QuietStepWaits(s: State, s': State, id: Id, due: int, credit: int)
    requires Waiting(s, id, due, credit) && s.clock <= s'.clock
    requires id in s'.outbox && s'.outbox[id] == s.outbox[id]
    requires Ahead(s'.outbox, id, due) == Ahead(s.outbox, id, due)
    requires s'.phase.Idle? || (!s.phase.Idle? && Left(s') == Left(s) && (InBatch(s', id) <==> InBatch(s, id)))
    ensures Waiting(s', id, due, credit)
  {
  }

  lemma TrimWaits(s: State, id: Id, due: int, credit: int)
    requires Inv(s) && Waiting(s, id, due, credit)
    ensures Waiting(Next(s, TrimPublished), id, due, credit)
  {
    var s' := Next(s, TrimPublished);
    assert Ahead(Trim(s.outbox, s.clock), id, due) == Ahead(s.outbox, id, due);
    if s.phase.Failing? { InHandCurrent(s); }
    assert Rest(s') == Rest(s) && Left(s') == Left(s) && (InBatch(s', id) <==> InBatch(s, id));
    QuietStepWaits(s, s', id, due, credit);
  }

  /** A row more at the same instant costs one more. */
  lemma JoinerWaits(s: State, s': State, id: Id, due: int, credit: int, new': Id)
    requires Waiting(s, id, due, credit) && s'.clock == s.clock && s'.phase == s.phase && Left(s') == Left(s)
    requires id in s'.outbox && s'.outbox[id] == s.outbox[id]
    requires new' !in Ahead(s.outbox, id, due) && Ahead(s'.outbox, id, due) == Ahead(s.outbox, id, due) + {new'}
    ensures Waiting(s', id, due, credit + 1)
  {
    assert |Ahead(s'.outbox, id, due)| == |Ahead(s.outbox, id, due)| + 1;
    assert Rest(s') == Rest(s) && (InBatch(s', id) <==> InBatch(s, id));
  }

  /** A commit that adds an event row adds its outbox row. */
  lemma CommitTables(s: State, req: Request)
    requires Enabled(s, Commit(req))
    ensures var s' := CommitStep(s, req);
            if |s'.events| > |s.events| then Inserted(s, s', req.outboxId, req.event) else s' == s
  {
  }

  lemma AheadWithNewRow(t: Table, id: Id, due: int, row: OutboxRow)
    requires row.id !in t && row.id != id && row.status == Pending
    ensures Ahead(t[row.id := row], id, due) == Ahead(t, id, due) + if row.nextAttemptAt <= due then {row.id} else {}
  {
  }

  lemma InsertWaits(s: State, s': State, new': Id, e: Event, id: Id, due: int, credit: int)
    requires Inv(s) && Inserted(s, s', new', e) && Waiting(s, id, due, credit)
    ensures Waiting(s', id, due, if s.clock <= due then credit + 1 else credit)
  {
    AheadWithNewRow(s.outbox, id, due, Enqueued(new', e, s.clock));
    if s.phase.Failing? { InHandCurrent(s); }
    assert Rest(s') == Rest(s) && Left(s') == Left(s) && (InBatch(s', id) <==> InBatch(s, id));
    if s.clock <= due {
      JoinerWaits(s, s', id, due, credit, new');
    } else {
      QuietStepWaits(s, s', id, due, credit);
    }
  }

  lemma CommitWaits(s: State, req: Request, id: Id, due: int, credit: int)
    requires Inv(s) && Enabled(s, Commit(req)) && Waiting(s, id, due, credit)
    ensures Waiting(CommitStep(s, req), id, due, if Joins(s, Commit(req), due) then credit + 1 else credit)
  {
    CommitTables(s, req);
    if CommitStep(s, req) != s {
      InsertWaits(s, CommitStep(s, req), req.outboxId, req.event, id, due, credit);
    }
  }

  lemma EndWaits(s: State, id: Id, due: int, credit: int)
    requires Enabled(s, TickEnd) && Waiting(s, id, due, credit)
    ensures Waiting(Next(s, TickEnd), id, due, credit - BATCH_SIZE)
  {
    assert Rest(s) == [] && !InBatch(s, id);
  }

  /** What a step costs: a completed tick a batch, a joiner nothing but its own place. */
  ghost function Charge(s: State, step: Step, due: int): int
    requires Enabled(s, step)
  {
    if step.TickEnd? then BATCH_SIZE else if Joins(s, step, due) then -1 else 0
  }

  /** A call that changes no row keeps the batch as it is. */
  lemma CallWaits(s: State, step: Step, id: Id, due: int, credit: int)
    requires Inv(s) && Enabled(s, step) && Waiting(s, id, due, credit) && (step.Publish? || step == MarkThrows(false))
    ensures Waiting(Next(s, step), id, due, credit)
  {
    var s' := Next(s, step);
    InHandCurrent(s);
    assert Rest(s') == Rest(s) && Left(s') == Left(s) && (InBatch(s', id) <==> InBatch(s, id));
    QuietStepWaits(s, s', id, due, credit);
  }

  /** The other steps do not touch the outbox, and keep the batch or drop it. */
  lemma IdleStepWaits(s: State, step: Step, id: Id, due: int, credit: int)
    requires Enabled(s, step) && Waiting(s, id, due, credit) && !step.TickEnd?
    requires Idles(step) || step.PublishDirect? || step == RecordThrows(false)
    requires step.Advance? ==> s.clock <= step.t
    ensures Waiting(Next(s, step), id, due, credit)
  {
    var s' := Next(s, step);
    assert s'.outbox == s.outbox && s.clock <= s'.clock;
    assert s'.phase.Idle? || (Rest(s') == Rest(s) && Left(s') == Left(s) && (InBatch(s', id) <==> InBatch(s, id)));
    QuietStepWaits(s, s', id, due, credit);
  }

  /** The relay's calls and writes for a row in hand. */
  lemma RowStepWaits(s: State, step: Step, id: Id, due: int, credit: int)
    requires Inv(s) && Enabled(s, step) && Waiting(s, id, due, credit) && !Handles(s, step, id)
    requires step.Publish? || step.Mark? || step.MarkThrows? || step.Record? || step.RecordThrows?
    ensures Waiting(Next(s, step), id, due, credit)
  {
    if Writes(step) {
      WriteWaits(s, step, id, due, credit);
    } else if step.RecordThrows? {
      IdleStepWaits(s, step, id, due, credit);
    } else {
      CallWaits(s, step, id, due, credit);
    }
  }

  lemma NoCharge(s: State, step: Step, due: int)
    requires Enabled(s, step) && !step.TickEnd? && !step.Commit?
    ensures Charge(s, step, due) == 0
  {
  }

  lemma StepWaits(s: State, step: Step, id: Id, due: int, credit: int)
    requires Inv(s) && Enabled(s, step) && Waiting(s, id, due, credit) && !Handles(s, step, id)
    requires step.Advance? ==> s.clock <= step.t
    ensures Waiting(Next(s, step), id, due, credit - Charge(s, step, due))
  {
    if step.Commit? {
      CommitWaits(s, step.req, id, due, credit);
    } else if step.TickEnd? {
      EndWaits(s, id, due, credit);
    } else {
      NoCharge(s, step, due);
      OtherStepWaits(s, step, id, due, credit);
    }
  }

  lemma RowsAsideWaits(s: State, e: Event, eventId: string, fault: Fault, id: Id, due: int, credit: int)
    requires Waiting(s, id, due, credit)
    ensures Waiting(PersistOnlyStep(s, e, eventId, fault), id, due, credit)
  {
    var s' := PersistOnlyStep(s, e, eventId, fault);
    PersistOnlyFrame(s, e, eventId, fault);
    assert s'.phase.Idle? || (Rest(s') == Rest(s) && Left(s') == Left(s) && (InBatch(s', id) <==> InBatch(s, id)));
    QuietStepWaits(s, s', id, due, credit);
  }

  lemma OtherStepWaits(s: State, step: Step, id: Id, due: int, credit: int)
    requires Inv(s) && Enabled(s, step) && Waiting(s, id, due, credit) && !Handles(s, step, id)
    requires (step.Advance? ==> s.clock <= step.t) && !step.TickEnd? && !step.Commit?
    ensures Waiting(Next(s, step), id, due, credit)
  {
    if step.TickBegin? {
      BeginWaits(s, step.batch, id, due, credit);
    } else if step.TrimPublished? {
      TrimWaits(s, id, due, credit);
    } else if step.PersistOnly? {
      RowsAsideWaits(s, step.event, step.eventId, step.fault, id, due, credit);
    } else if Idles(step) || step.PublishDirect? {
      IdleStepWaits(s, step, id, due, credit);
    } else {
      RowStepWaits(s, step, id, due, credit);
    }
  }

  lemma StepTicks(s: State, step: Step)
    requires Enabled(s, step)
    ensures Next(s, step).ticks == s.ticks + if step.TickEnd? then 1 else 0
  {
    match step
    case Commit(req) => CommitInserts(s, req);
    case Record => RecordEffect(s);
    case RecordThrows(_) => RecordEffect(s);
    case PersistOnly(e, eventId, fault) => PersistOnlyFrame(s, e, eventId, fault);
    case _ => PlainStep(s, step);
  }

  lemma {:induction false} RunWaits(s: State, steps: seq<Step>, id: Id, due: int, credit: int)
    requires Inv(s) && ValidRun(s, steps) && Monotone(s, steps) && !HandledDuring(s, steps, id)
    requires Waiting(s, id, due, credit)
    ensures Waiting(Run(s, steps), id, due, credit + Joiners(s, steps, due) - BATCH_SIZE * (Run(s, steps).ticks - s.ticks))
    decreases |steps|
  {
    if steps != [] {
      StepWaits(s, steps[0], id, due, credit);
      StepKeeps(s, steps[0]);
      StepTicks(s, steps[0]);
      RunWaits(Next(s, steps[0]), steps[1..], id, due, credit - Charge(s, steps[0], due));
    }
  }

  /** The pending rows the query may list up to and including the row, plus a batch if a tick without it is under way. */
  ghost function InFront(s: State, id: Id): int
    requires id in s.outbox
  {
    |Ahead(s.outbox, id, s.outbox[id].nextAttemptAt)| + 1 + if s.phase.Idle? || InBatch(s, id) then 0 else BATCH_SIZE
  }

  lemma {:induction false} HandledInTime(s: State, steps: seq<Step>, id: Id)
    requires Inv(s) && ValidRun(s, steps) && Monotone(s, steps) && id in s.outbox && Due(s.outbox[id], s.clock)
    requires BATCH_SIZE * (Run(s, steps).ticks - s.ticks) >= InFront(s, id) + Joiners(s, steps, s.outbox[id].nextAttemptAt)
    ensures HandledDuring(s, steps, id)
  {
    if !HandledDuring(s, steps, id) {
      RunWaits(s, steps, id, s.outbox[id].nextAttemptAt, InFront(s, id) - 1);
    }
  }

  /**
   * No starvation. Take any moment at which a pending row is due, and let `k` be the number of pending rows the
   * query may list up to and including it, counting a batch for a tick under way without it and one for every
   * event committed in the very millisecond the row is due. However producers, failures, trims, stops and crashes
   * interleave afterwards, once enough ticks have completed to fetch `k` rows, the row was handled.
   */
  lemma {:induction false} NoStarvation(t: int, before: seq<Step>, steps: seq<Step>, id: Id)
    requires ValidRun(Init(t), before)
    requires var s0 := Run(Init(t), before);
             && ValidRun(s0, steps) && Monotone(s0, steps)
             && id in s0.outbox && Due(s0.outbox[id], s0.clock)
    requires var s0, s := Run(Init(t), before), Run(Run(Init(t), before), steps);
             var k := InFront(s0, id) + Joiners(s0, steps, s0.outbox[id].nextAttemptAt);
             BATCH_SIZE * (s.ticks - s0.ticks) >= k
    ensures HandledDuring(Run(Init(t), before), steps, id)
  {
    RunKeeps(Init(t), before);
    HandledInTime(Run(Init(t), before), steps, id);
  }
}
