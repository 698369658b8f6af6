/** What every interleaving of producers, relay actions, crashes, restarts and trims keeps. */
module NoLoss {
  import opened Common
  import opened SessionEvents
  import opened Outbox
  import opened Pipeline

  ghost predicate Delivered(s: State, id: Id) {
    id in s.committed && Delivery(id, s.committed[id]) in s.server
  }

  /** The event still has a row that says it is not delivered yet, or that the relay gave it up. */
  ghost predicate Held(s: State, id: Id) {
    id in s.outbox && s.outbox[id].status != Published
  }

  ghost function Rest(s: State): seq<OutboxRow> {
    if s.phase.Idle? then [] else s.phase.rest
  }

  function FailuresOf(s: State, id: Id): nat {
    if id in s.failures then s.failures[id] else 0
  }

  ghost predicate RowsCommitted(s: State) {
    forall id :: id in s.outbox ==> s.outbox[id].id == id && id in s.committed && s.committed[id] == s.outbox[id].event
  }

  /** Nothing committed is lost. */
  ghost predicate AllKept(s: State) {
    forall id :: id in s.committed ==> Held(s, id) || Delivered(s, id)
  }

  /** Nothing is invented: what was relayed to the server are committed events. */
  ghost predicate OnlyCommitted(s: State) {
    forall d :: d in s.server && d.Delivery? ==> d.id in s.committed && s.committed[d.id] == d.event
  }

  /** The copy agrees with the table, but for a mark that took effect and threw. */
  ghost predicate CurrentCopy(s: State, r: OutboxRow) {
    && r.status == Pending
    && if HeadMarked(s) && r.id == s.phase.rest[0].id then
         && Delivered(s, r.id)
         && (r.id in s.outbox ==> s.outbox[r.id] == r.(status := Published, publishedAt := s.outbox[r.id].publishedAt))
       else r.id in s.outbox && s.outbox[r.id] == r
  }

  /** The fetched copies the relay still holds are current. */
  ghost predicate BatchCurrent(s: State) {
    && DistinctIds(Rest(s))
    && (forall r :: r in Rest(s) ==> CurrentCopy(s, r))
    && (s.phase.Marking? || s.phase.Failing? ==> s.phase.rest != [])
    && (s.phase.Marking? ==> Delivered(s, s.phase.rest[0].id))
  }

  /** The attempt counter is the number of recorded failures, and it decides the status. */
  ghost predicate LedgerOk(s: State, id: Id) {
    && (id in s.outbox ==>
      var r := s.outbox[id];
      && r.attempts == FailuresOf(s, id)
      && (r.status == Pending ==> r.attempts <= 9)
      && (r.status == Dead ==> r.attempts == 10)
      && (r.status == Published ==> r.attempts <= 9 && r.publishedAt.Some?))
    && (id in s.committed && id !in s.outbox ==> FailuresOf(s, id) <= 9)
    && (id !in s.committed ==> FailuresOf(s, id) == 0)
  }

  ghost predicate Ledger(s: State) {
    forall id: Id :: LedgerOk(s, id)
  }

  ghost predicate Inv(s: State) {
    RowsCommitted(s) && AllKept(s) && OnlyCommitted(s) && BatchCurrent(s) && Ledger(s)
  }

  // ---------------------------------------------------------------- preservation: a step that writes one row

  ghost predicate SameRow(s: State, s': State, id: Id) {
    && (id in s'.outbox <==> id in s.outbox) && (id in s.outbox ==> s'.outbox[id] == s.outbox[id])
    && FailuresOf(s', id) == FailuresOf(s, id)
  }

  /** The step wrote at most this row; commits and log are as before. */
  ghost predicate OnlyRow(s: State, s': State, id: Id) {
    s'.committed == s.committed && s'.server == s.server && forall i: Id :: i != id ==> SameRow(s, s', i)
  }

  /** What the step owes for the row it wrote. */
  ghost predicate RowOk(s: State, id: Id) {
    && (id in s.outbox ==> s.outbox[id].id == id && id in s.committed && s.committed[id] == s.outbox[id].event)
    && (id in s.committed ==> Held(s, id) || Delivered(s, id))
    && LedgerOk(s, id)
  }

  lemma WriteKeepsRows(s: State, s': State, id: Id)
    requires RowsCommitted(s) && OnlyRow(s, s', id) && RowOk(s', id)
    ensures RowsCommitted(s')
  {
    forall i | i in s'.outbox && i != id ensures s'.outbox[i].id == i && i in s'.committed && s'.committed[i] == s'.outbox[i].event {
      assert SameRow(s, s', i);
    }
  }

  lemma WriteKeepsAll(s: State, s': State, id: Id)
    requires AllKept(s) && OnlyRow(s, s', id) && RowOk(s', id)
    ensures AllKept(s')
  {
    forall i | i in s'.committed && i != id ensures Held(s', i) || Delivered(s', i) {
      assert SameRow(s, s', i) && (Held(s, i) || Delivered(s, i));
    }
  }

  lemma WriteKeepsLedger(s: State, s': State, id: Id)
    requires Ledger(s) && OnlyRow(s, s', id) && RowOk(s', id)
    ensures Ledger(s')
  {
    forall i: Id | i != id ensures LedgerOk(s', i) {
      assert SameRow(s, s', i) && LedgerOk(s, i);
    }
  }

  lemma WriteKeeps(s: State, s': State, id: Id)
    requires Inv(s) && OnlyRow(s, s', id) && RowOk(s', id) && BatchCurrent(s')
    ensures Inv(s')
  {
    WriteKeepsRows(s, s', id);
    WriteKeepsAll(s, s', id);
    WriteKeepsLedger(s, s', id);
  }

  /** The relay goes on to the next fetched row; only the row just handled may have changed. */
  lemma RestMovesOn(s: State, s': State)
    requires BatchCurrent(s) && !s.phase.Idle? && s.phase.rest != [] && s'.phase == Working(s.phase.rest[1..])
    requires OnlyRow(s, s', s.phase.rest[0].id)
    ensures BatchCurrent(s')
  {
    assert Rest(s') == Rest(s)[1..];
    forall r | r in Rest(s') ensures CurrentCopy(s', r) {
      var i :| 0 <= i < |Rest(s')| && Rest(s')[i] == r;
      assert Rest(s)[i + 1] == r && r in Rest(s) && CurrentCopy(s, r);
      assert SameRow(s, s', r.id);
    }
  }

  /** The row in hand and its copy. */
  lemma InHandCurrent(s: State)
    requires Inv(s) && !s.phase.Idle? && s.phase.rest != []
    ensures var row := s.phase.rest[0];
            && CurrentCopy(s, row) && row.id in s.committed && LedgerOk(s, row.id)
            && (row.id in s.outbox ==> s.outbox[row.id].id == row.id && s.outbox[row.id].attempts == row.attempts <= 9
                                       && s.committed[row.id] == s.outbox[row.id].event)
  {
    assert s.phase.rest[0] in Rest(s);
    assert LedgerOk(s, s.phase.rest[0].id);
  }

  lemma MarkKeeps(s: State)
    requires Inv(s) && Enabled(s, Mark)
    ensures Inv(Next(s, Mark))
  {
    var s', id := Next(s, Mark), s.phase.rest[0].id;
    InHandCurrent(s);
    assert OnlyRow(s, s', id);
    RestMovesOn(s, s');
    assert RowOk(s', id);
    WriteKeeps(s, s', id);
  }

  lemma MarkThrowsBatch(s: State, tookEffect: bool)
    requires Inv(s) && Enabled(s, MarkThrows(tookEffect))
    ensures BatchCurrent(Next(s, MarkThrows(tookEffect)))
  {
    var s', id := Next(s, MarkThrows(tookEffect)), s.phase.rest[0].id;
    InHandCurrent(s);
    assert Rest(s') == Rest(s) && HeadMarked(s') == tookEffect;
    forall r | r in Rest(s') ensures CurrentCopy(s', r) {
      assert CurrentCopy(s, r);
      if r.id == id { assert r == s.phase.rest[0]; }
    }
  }

  lemma MarkThrowsKeeps(s: State, tookEffect: bool)
    requires Inv(s) && Enabled(s, MarkThrows(tookEffect))
    ensures Inv(Next(s, MarkThrows(tookEffect)))
  {
    var s', id := Next(s, MarkThrows(tookEffect)), s.phase.rest[0].id;
    InHandCurrent(s);
    MarkThrowsBatch(s, tookEffect);
    assert OnlyRow(s, s', id) && RowOk(s', id);
    WriteKeeps(s, s', id);
  }

  /** The row in hand counts one more failure; nothing else in the tables or the log changes. */
  predicate FailureRecorded(s: State, s': State, row: OutboxRow) {
    && row.id in s.outbox
    && s'.outbox == s.outbox[row.id := s.outbox[row.id].(status := if row.attempts + 1 >= MAX_ATTEMPTS then Dead else Pending,
                                                         attempts := row.attempts + 1,
                                                         nextAttemptAt := s.clock + Backoff(row.attempts + 1))]
    && s'.failures == s.failures[row.id := 1 + FailuresOf(s, row.id)]
    && s'.committed == s.committed && s'.server == s.server && s'.clock == s.clock && s'.interruptions == s.interruptions
    && s'.events == s.events && s'.running == s.running && s'.ticks == s.ticks
  }

  lemma FailedRecords(s: State, row: OutboxRow)
    requires s.phase.Failing? && s.phase.rest != [] && row.id in s.outbox
    ensures FailureRecorded(s, Failed(s, row), row)
  {
  }

  lemma RecordEffect(s: State)
    requires Enabled(s, Record)
    ensures var s', row := Next(s, Record), s.phase.rest[0];
            && s'.phase == Working(s.phase.rest[1..])
            && if row.id in s.outbox then FailureRecorded(s, s', row) else s' == s.(phase := s'.phase)
    ensures Next(s, RecordThrows(true)) == Next(s, Record).(phase := Idle)
  {
    var row := s.phase.rest[0];
    if row.id in s.outbox {
      FailedRecords(s, row);
      assert RecordStep(s) == Failed(s, row);
    }
  }

  lemma FailureWritesOneRow(s: State, s': State, row: OutboxRow)
    requires FailureRecorded(s, s', row)
    ensures OnlyRow(s, s', row.id)
  {
  }

  lemma FailureRowOk(s: State, s': State, row: OutboxRow)
    requires Inv(s) && !s.phase.Idle? && s.phase.rest != [] && s.phase.rest[0] == row && FailureRecorded(s, s', row)
    ensures RowOk(s', row.id)
  {
    InHandCurrent(s);
  }

  lemma RecordWritesOneRow(s: State)
    requires Enabled(s, Record)
    ensures OnlyRow(s, Next(s, Record), s.phase.rest[0].id)
  {
    RecordEffect(s);
    if s.phase.rest[0].id in s.outbox { FailureWritesOneRow(s, Next(s, Record), s.phase.rest[0]); }
  }

  /** What recording a failure does to the row in hand. */
  lemma RecordedRow(s: State)
    requires Inv(s) && Enabled(s, Record)
    ensures RowOk(Next(s, Record), s.phase.rest[0].id)
  {
    RecordEffect(s);
    InHandCurrent(s);
    if s.phase.rest[0].id in s.outbox { FailureRowOk(s, Next(s, Record), s.phase.rest[0]); }
  }

  lemma RecordKeeps(s: State)
    requires Inv(s) && Enabled(s, Record)
    ensures Inv(Next(s, Record))
  {
    var s', id := Next(s, Record), s.phase.rest[0].id;
    RecordWritesOneRow(s);
    RecordedRow(s);
    RestMovesOn(s, s');
    WriteKeeps(s, s', id);
  }

  // ---------------------------------------------------------------- the other steps

  /** A new event with its outbox row. */
  predicate Inserted(s: State, s': State, id: Id, e: Event) {
    && id !in s.committed && s'.committed == s.committed[id := e]
    && s'.outbox == s.outbox[id := Enqueued(id, e, s.clock)]
    && s'.phase == s.phase && s'.server == s.server && s'.clock == s.clock
    && s'.failures == s.failures && s'.interruptions == s.interruptions && s'.ticks == s.ticks
  }

  /** What a commit does to outbox, log and relay: it inserts one row or changes nothing. */
  lemma CommitInserts(s: State, req: Request)
    requires Enabled(s, Commit(req))
    ensures CommitStep(s, req) == s || Inserted(s, CommitStep(s, req), req.outboxId, req.event)
  {
  }

  lemma InsertKeepsLedger(s: State, s': State, id: Id, e: Event)
    requires Inv(s) && Inserted(s, s', id, e)
    ensures Ledger(s')
  {
    forall i: Id ensures LedgerOk(s', i) { assert LedgerOk(s, i); }
  }

  lemma InsertKeepsBatch(s: State, s': State, id: Id, e: Event)
    requires Inv(s) && Inserted(s, s', id, e)
    ensures BatchCurrent(s')
  {
    assert Rest(s') == Rest(s);
    if s.phase.Failing? { InHandCurrent(s); }
    forall r | r in Rest(s') ensures CurrentCopy(s', r) { assert CurrentCopy(s, r); }
  }

  lemma InsertKeepsAll(s: State, s': State, id: Id, e: Event)
    requires AllKept(s) && Inserted(s, s', id, e)
    ensures AllKept(s')
  {
    forall i | i in s'.committed ensures Held(s', i) || Delivered(s', i) {
      if i != id { assert Held(s, i) || Delivered(s, i); }
    }
  }

  lemma CommitKeeps(s: State, req: Request)
    requires Inv(s) && Enabled(s, Commit(req))
    ensures Inv(CommitStep(s, req))
  {
    var s' := CommitStep(s, req);
    CommitInserts(s, req);
    if s' != s {
      InsertKeepsLedger(s, s', req.outboxId, req.event);
      InsertKeepsBatch(s, s', req.outboxId, req.event);
      InsertKeepsAll(s, s', req.outboxId, req.event);
    }
  }

  /** A delivery leaves the table alone. */
  lemma PublishKeeps(s: State, outcome: PublishOutcome)
    requires Inv(s) && Enabled(s, Publish(outcome))
    ensures Inv(Next(s, Publish(outcome)))
  {
    var s' := Next(s, Publish(outcome));
    var row := s.phase.rest[0];
    InHandCurrent(s);
    assert Rest(s') == Rest(s) && !HeadMarked(s');
    assert outcome.Accepted? ==> s'.server[|s.server|] == Delivery(row.id, row.event);
    forall r | r in Rest(s') ensures CurrentCopy(s', r) { assert CurrentCopy(s, r); }
    forall id | id in s'.committed ensures Held(s', id) || Delivered(s', id) {
      assert Held(s, id) || Delivered(s, id);
    }
    forall id: Id ensures LedgerOk(s', id) { assert LedgerOk(s, id); }
  }

  lemma TrimKeepsBatch(s: State)
    requires Inv(s)
    ensures BatchCurrent(Next(s, TrimPublished))
  {
    var s' := Next(s, TrimPublished);
    assert Rest(s') == Rest(s) && HeadMarked(s') == HeadMarked(s);
    forall r | r in Rest(s') ensures CurrentCopy(s', r) {
      assert CurrentCopy(s, r);
    }
  }

  lemma TrimKeepsLedger(s: State)
    requires Inv(s)
    ensures Ledger(Next(s, TrimPublished))
  {
    var s' := Next(s, TrimPublished);
    forall id: Id ensures LedgerOk(s', id) {
      assert LedgerOk(s, id);
    }
  }

  lemma TrimKeeps(s: State)
    requires Inv(s)
    ensures Inv(Next(s, TrimPublished))
  {
    var s' := Next(s, TrimPublished);
    TrimKeepsBatch(s);
    TrimKeepsLedger(s);
    forall id | id in s'.committed ensures Held(s', id) || Delivered(s', id) {
      assert Held(s, id) || Delivered(s, id);
    }
  }

  /** The remaining steps touch neither table nor log. */
  lemma QuietStepKeeps(s: State, s': State)
    requires Inv(s) && s'.outbox == s.outbox && s'.server == s.server && s'.committed == s.committed && s'.failures == s.failures
    requires BatchCurrent(s')
    ensures Inv(s')
  {
    forall id | id in s'.committed ensures Held(s', id) || Delivered(s', id) {
      assert Held(s, id) || Delivered(s, id);
    }
    forall id: Id ensures LedgerOk(s', id) { assert LedgerOk(s, id); }
  }

  /** A relay that holds nothing, or still the same rows, has only current copies. */
  lemma BatchStaysCurrent(s: State, s': State)
    requires BatchCurrent(s) && s'.outbox == s.outbox && s'.server == s.server && s'.committed == s.committed
    requires s'.phase.Idle? || s'.phase == s.phase
    ensures BatchCurrent(s')
  {
    forall r | r in Rest(s') ensures CurrentCopy(s', r) { assert CurrentCopy(s, r); }
  }

  lemma BeginKeeps(s: State, batch: seq<OutboxRow>)
    requires Inv(s) && Enabled(s, TickBegin(batch))
    ensures Inv(Next(s, TickBegin(batch)))
  {
    QuietStepKeeps(s, Next(s, TickBegin(batch)));
  }

  /** A recorded failure whose write still threw: the same as recording it, and giving up the tick. */
  lemma RecordThrowsKeeps(s: State, tookEffect: bool)
    requires Inv(s) && Enabled(s, RecordThrows(tookEffect))
    ensures Inv(Next(s, RecordThrows(tookEffect)))
  {
    var s' := Next(s, RecordThrows(tookEffect));
    if tookEffect {
      RecordKeeps(s);
      BatchStaysCurrent(Next(s, Record), s');
      QuietStepKeeps(Next(s, Record), s');
    } else {
      BatchStaysCurrent(s, s');
      QuietStepKeeps(s, s');
    }
  }

  /** Only what is known of event rows differs. */
  predicate RowsAside(s: State, s': State) {
    s' == s.(events := s'.events, issued := s'.issued, origin := s'.origin)
  }

  lemma PersistOnlyFrame(s: State, e: Event, eventId: string, fault: Fault)
    ensures RowsAside(s, PersistOnlyStep(s, e, eventId, fault))
  {
  }

  lemma RowsAsideKeeps(s: State, s': State)
    requires Inv(s) && RowsAside(s, s')
    ensures Inv(s')
  {
    BatchStaysCurrent(s, s');
    QuietStepKeeps(s, s');
  }

  lemma PersistOnlyKeeps(s: State, e: Event, eventId: string, fault: Fault)
    requires Inv(s)
    ensures Inv(PersistOnlyStep(s, e, eventId, fault))
  {
    PersistOnlyFrame(s, e, eventId, fault);
    RowsAsideKeeps(s, PersistOnlyStep(s, e, eventId, fault));
  }

  /** Clock, start, stop, crash, the end of a tick, and the deletion of event rows. */
  predicate Idles(step: Step) {
    step.Advance? || step.Start? || step.Stop? || step.Crash? || step.TickEnd? || Deletes(step)
  }

  lemma IdleStepKeeps(s: State, step: Step)
    requires Inv(s) && Enabled(s, step) && Idles(step)
    ensures Inv(Next(s, step))
  {
    BatchStaysCurrent(s, Next(s, step));
    QuietStepKeeps(s, Next(s, step));
  }

  /** A direct publication adds an entry of its own kind to the log. */
  lemma DirectKeeps(s: State, e: Event, outcome: PublishOutcome)
    requires Inv(s)
    ensures Inv(Next(s, PublishDirect(e, outcome)))
  {
    var s' := Next(s, PublishDirect(e, outcome));
    assert Rest(s') == Rest(s) && HeadMarked(s') == HeadMarked(s);
    forall r | r in Rest(s') ensures CurrentCopy(s', r) { assert CurrentCopy(s, r); }
    forall id | id in s'.committed ensures Held(s', id) || Delivered(s', id) {
      assert Held(s, id) || Delivered(s, id);
    }
    forall id: Id ensures LedgerOk(s', id) { assert LedgerOk(s, id); }
  }

  lemma StepKeeps(s: State, step: Step)
    requires Inv(s) && Enabled(s, step)
    ensures Inv(Next(s, step))
  {
    match step
    case Commit(req) => CommitKeeps(s, req);
    case TickBegin(batch) => BeginKeeps(s, batch);
    case Publish(outcome) => PublishKeeps(s, outcome);
    case Mark => MarkKeeps(s);
    case MarkThrows(tookEffect) => MarkThrowsKeeps(s, tookEffect);
    case Record => RecordKeeps(s);
    case RecordThrows(tookEffect) => RecordThrowsKeeps(s, tookEffect);
    case TrimPublished => TrimKeeps(s);
    case PublishDirect(e, outcome) => DirectKeeps(s, e, outcome);
    case PersistOnly(e, eventId, fault) => PersistOnlyKeeps(s, e, eventId, fault);
    case _ => IdleStepKeeps(s, step);
  }

  lemma {:induction false} RunKeeps(s: State, steps: seq<Step>)
    requires Inv(s) && ValidRun(s, steps)
    ensures Inv(Run(s, steps))
    decreases |steps|
  {
    if steps != [] {
      StepKeeps(s, steps[0]);
      RunKeeps(Next(s, steps[0]), steps[1..]);
    }
  }

  // ---------------------------------------------------------------- over whole runs

  /** What all steps but insertions and recorded failures leave alone. */
  lemma PlainStep(s: State, step: Step)
    requires Enabled(s, step) && !step.Commit? && !step.PersistOnly? && !step.Record? && !step.RecordThrows?
    ensures var s' := Next(s, step);
            && s'.committed == s.committed && s'.failures == s.failures
            && s'.ticks == s.ticks + (if step.TickEnd? then 1 else 0)
            && (!step.Publish? && !step.PublishDirect? ==> s'.server == s.server)
  {
  }

  /** A record, however it ends, leaves history and log alone. */
  lemma RecordFrame(s: State)
    requires Enabled(s, Record)
    ensures Next(s, Record).committed == s.committed && Next(s, Record).server == s.server
    ensures forall tookEffect ::
              Next(s, RecordThrows(tookEffect)).committed == s.committed && Next(s, RecordThrows(tookEffect)).server == s.server
  {
    RecordEffect(s);
    assert Next(s, RecordThrows(false)) == s.(phase := Idle, interruptions := Interrupted(s));
  }

  lemma CommittedStays(s: State, step: Step)
    requires Enabled(s, step)
    ensures forall id :: id in s.committed ==> id in Next(s, step).committed && Next(s, step).committed[id] == s.committed[id]
  {
    match step
    case Commit(req) => CommitInserts(s, req);
    case Record => RecordFrame(s);
    case RecordThrows(_) => RecordFrame(s);
    case PersistOnly(e, eventId, fault) => PersistOnlyFrame(s, e, eventId, fault);
    case _ => PlainStep(s, step);
  }

  lemma LogUnchanged(s: State, step: Step)
    requires Enabled(s, step) && !step.Publish? && !step.PublishDirect?
    ensures Next(s, step).server == s.server
  {
    match step
    case Commit(req) => CommitInserts(s, req);
    case Record => RecordFrame(s);
    case RecordThrows(_) => RecordFrame(s);
    case PersistOnly(e, eventId, fault) => PersistOnlyFrame(s, e, eventId, fault);
    case _ => PlainStep(s, step);
  }

  lemma LogGrows(s: State, step: Step)
    requires Enabled(s, step)
    ensures s.server <= Next(s, step).server
  {
    if !step.Publish? && !step.PublishDirect? { LogUnchanged(s, step); }
  }

  /** History only grows, and an event keeps its content. */
  lemma {:induction false} CommittedGrows(s: State, steps: seq<Step>)
    requires ValidRun(s, steps)
    ensures forall id :: id in s.committed ==> id in Run(s, steps).committed && Run(s, steps).committed[id] == s.committed[id]
    ensures s.server <= Run(s, steps).server
    decreases |steps|
  {
    if steps != [] {
      CommittedStays(s, steps[0]);
      LogGrows(s, steps[0]);
      CommittedGrows(Next(s, steps[0]), steps[1..]);
    }
  }

  /**
   * At-least-once delivery. Whatever happens after an event was committed, the event is either still
   * pending or dead in the outbox or already in the server's log; and what the log holds as relayed are committed events only.
   */
  lemma {:induction false} NoCommittedEventIsLost(t: int, before: seq<Step>, after: seq<Step>, id: Id)
    requires ValidRun(Init(t), before) && ValidRun(Run(Init(t), before), after)
    requires id in Run(Init(t), before).committed
    ensures var s0, s := Run(Init(t), before), Run(Run(Init(t), before), after);
            || (id in s.outbox && s.outbox[id].status != Published && s.outbox[id].event == s0.committed[id])
            || Delivery(id, s0.committed[id]) in s.server
    ensures var s := Run(Run(Init(t), before), after);
            forall d :: d in s.server && d.Delivery? ==> d.id in s.committed && s.committed[d.id] == d.event
  {
    RunKeeps(Init(t), before);
    var s0 := Run(Init(t), before);
    RunKeeps(s0, after);
    CommittedGrows(s0, after);
    var s := Run(s0, after);
    assert Held(s, id) || Delivered(s, id);
  }

  function IsDirect(): Delivery -> bool {
    (d: Delivery) => d.Direct?
  }

  function DirectOf(step: Step): seq<Delivery> {
    if step.PublishDirect? && !step.outcome.Refused? then [Direct(step.event)] else []
  }

  /** What the steps of a run publish directly, in order. */
  function Directly(steps: seq<Step>): seq<Delivery> {
    if steps == [] then [] else DirectOf(steps[0]) + Directly(steps[1..])
  }

  lemma DirectStep(s: State, step: Step)
    requires Enabled(s, step)
    ensures Filter(Next(s, step).server, IsDirect()) == Filter(s.server, IsDirect()) + DirectOf(step)
  {
    match step
    case PublishDirect(e, _) => FilterSnoc(s.server, Direct(e), IsDirect());
    case Publish(_) => FilterSnoc(s.server, Delivery(s.phase.rest[0].id, s.phase.rest[0].event), IsDirect());
    case _ => LogUnchanged(s, step);
  }

  /** A run of one step more: what it added to the direct part of the log goes in front. */
  lemma {:induction false} DirectSplice(before: seq<Delivery>, after: seq<Delivery>, end: seq<Delivery>, steps: seq<Step>)
    requires steps != [] && after == before + DirectOf(steps[0]) && end == after + Directly(steps[1..])
    ensures end == before + Directly(steps)
  {
  }

  /** The rest of the log is exactly what was published directly, in order: nothing lost, doubled or invented. */
  lemma {:induction false} DirectlyPublishedInOrder(s: State, steps: seq<Step>)
    requires ValidRun(s, steps)
    ensures Filter(Run(s, steps).server, IsDirect()) == Filter(s.server, IsDirect()) + Directly(steps)
    decreases |steps|
  {
    if steps != [] {
      var s', end, rest := Next(s, steps[0]), Run(s, steps), steps[1..];
      assert end == Run(s', rest);
      DirectStep(s, steps[0]);
      DirectlyPublishedInOrder(s', rest);
      DirectSplice(Filter(s.server, IsDirect()), Filter(s'.server, IsDirect()), Filter(end.server, IsDirect()), steps);
    }
  }

  /** The retry ledger, in every reachable state. */
  lemma {:induction false} RetryLedger(t: int, steps: seq<Step>, id: Id)
    requires ValidRun(Init(t), steps) && id in Run(Init(t), steps).outbox
    ensures var s := Run(Init(t), steps);
            var r := s.outbox[id];
            && r.attempts == FailuresOf(s, id)
            && (r.status == Pending ==> r.attempts <= 9)
            && (r.status == Dead <==> r.attempts == 10)
            && (r.status == Published ==> Delivery(id, r.event) in s.server)
  {
    RunKeeps(Init(t), steps);
    var s := Run(Init(t), steps);
    assert LedgerOk(s, id);
    assert Held(s, id) || Delivered(s, id);
  }

  ghost predicate Settled(s: State, id: Id) {
    id in s.committed && (id !in s.outbox || s.outbox[id].status != Pending)
  }

  /** Nothing but removal of a published row happens to a settled row. */
  ghost predicate StaysSettled(s: State, s': State, id: Id) {
    && Settled(s', id)
    && (id in s'.outbox ==> id in s.outbox && s'.outbox[id] == s.outbox[id])
    && (id in s.outbox && s.outbox[id].status == Dead ==> id in s'.outbox)
  }

  /** The catch branch records a failure for a row whose mark took effect: the published row is rewritten. */
  ghost predicate Reopens(s: State, step: Step, id: Id) {
    && (step.Record? || step == RecordThrows(true)) && HeadMarked(s)
    && s.phase.rest[0].id == id && id in s.outbox
  }

  /** A recorded failure of the settled row itself: its counter moves. */
  lemma FailureReopens(s: State, s': State, row: OutboxRow)
    requires Inv(s) && !s.phase.Idle? && s.phase.rest != [] && s.phase.rest[0] == row && FailureRecorded(s, s', row)
    ensures !StaysSettled(s, s', row.id)
  {
    InHandCurrent(s);
  }

  lemma SameRowStaysSettled(s: State, s': State, id: Id)
    requires Settled(s, id) && SameRow(s, s', id) && s'.committed == s.committed
    ensures StaysSettled(s, s', id)
  {
  }

  /** If the row in hand is settled, its mark was lost. */
  lemma SettledHeadIsMarked(s: State)
    requires Inv(s) && s.phase.Failing? && s.phase.rest != [] && Settled(s, s.phase.rest[0].id)
    ensures HeadMarked(s)
  {
    InHandCurrent(s);
  }

  lemma SettledRecord(s: State, id: Id)
    requires Inv(s) && Enabled(s, Record) && Settled(s, id)
    ensures StaysSettled(s, Next(s, Record), id) <==> !Reopens(s, Record, id)
  {
    var s', row := Next(s, Record), s.phase.rest[0];
    RecordEffect(s);
    RecordWritesOneRow(s);
    if row.id != id {
      assert SameRow(s, s', id);
      SameRowStaysSettled(s, s', id);
    } else if row.id in s.outbox {
      SettledHeadIsMarked(s);
      FailureReopens(s, s', row);
    } else {
      SameRowStaysSettled(s, s', id);
    }
  }

  lemma SettledRecordThrows(s: State, tookEffect: bool, id: Id)
    requires Inv(s) && Enabled(s, RecordThrows(tookEffect)) && Settled(s, id)
    ensures StaysSettled(s, Next(s, RecordThrows(tookEffect)), id) <==> !Reopens(s, RecordThrows(tookEffect), id)
  {
    if tookEffect {
      SettledRecord(s, id);
      assert Next(s, RecordThrows(true)) == Next(s, Record).(phase := Idle);
    }
  }

  lemma SettledMark(s: State, step: Step, id: Id)
    requires Inv(s) && Enabled(s, step) && Settled(s, id) && (step.Mark? || step.MarkThrows?)
    ensures StaysSettled(s, Next(s, step), id)
  {
    InHandCurrent(s);
  }

  lemma SettledCommit(s: State, req: Request, id: Id)
    requires Enabled(s, Commit(req)) && Settled(s, id)
    ensures StaysSettled(s, CommitStep(s, req), id)
  {
    CommitInserts(s, req);
  }

  lemma SettledTrim(s: State, id: Id)
    requires Settled(s, id)
    ensures StaysSettled(s, Next(s, TrimPublished), id)
  {
  }

  /** The steps that write no outbox row. */
  lemma SettledOtherwise(s: State, step: Step, id: Id)
    requires Enabled(s, step) && Settled(s, id)
    requires step.TickBegin? || step.Publish? || step.PublishDirect? || Idles(step)
    ensures StaysSettled(s, Next(s, step), id)
  {
  }

  lemma SettledAside(s: State, e: Event, eventId: string, fault: Fault, id: Id)
    requires Settled(s, id)
    ensures StaysSettled(s, PersistOnlyStep(s, e, eventId, fault), id)
  {
    PersistOnlyFrame(s, e, eventId, fault);
  }

  /** A step changes a settled row exactly if it reopens it. */
  lemma SettledStep(s: State, step: Step, id: Id)
    requires Inv(s) && Enabled(s, step) && Settled(s, id)
    ensures StaysSettled(s, Next(s, step), id) <==> !Reopens(s, step, id)
  {
    match step
    case Record => SettledRecord(s, id);
    case RecordThrows(tookEffect) => SettledRecordThrows(s, tookEffect, id);
    case Mark => SettledMark(s, step, id);
    case MarkThrows(_) => SettledMark(s, step, id);
    case Commit(req) => SettledCommit(s, req, id);
    case PersistOnly(e, eventId, fault) => SettledAside(s, e, eventId, fault, id);
    case TrimPublished => SettledTrim(s, id);
    case _ => SettledOtherwise(s, step, id);
  }

  /** Some step of the run is a mark of this row that takes effect and throws. */
  ghost predicate MarkLost(s: State, steps: seq<Step>, id: Id)
    requires ValidRun(s, steps)
    decreases |steps|
  {
    steps != [] &&
    ((steps[0] == MarkThrows(true) && s.phase.rest[0].id == id) || MarkLost(Next(s, steps[0]), steps[1..], id))
  }

  /** The relay is about to record a failure for this row although its mark took effect. */
  ghost predicate InLimbo(s: State, id: Id) {
    HeadMarked(s) && s.phase.rest[0].id == id
  }

  lemma LimboNeedsLostMark(s: State, step: Step, id: Id)
    requires Inv(s) && Enabled(s, step) && !InLimbo(s, id) && !(step == MarkThrows(true) && s.phase.rest[0].id == id)
    ensures !InLimbo(Next(s, step), id)
  {
    match step
    case Commit(req) => CommitInserts(s, req);
    case Publish(_) => InHandCurrent(s);
    case MarkThrows(_) => InHandCurrent(s);
    case Record => RecordEffect(s);
    case RecordThrows(_) => RecordEffect(s);
    case TrimPublished => LimboThroughTrim(s, id);
    case PersistOnly(e, eventId, fault) => PersistOnlyFrame(s, e, eventId, fault);
    case _ =>
  }

  lemma LimboThroughTrim(s: State, id: Id)
    requires Inv(s) && !InLimbo(s, id)
    ensures !InLimbo(Next(s, TrimPublished), id)
  {
    if s.phase.Failing? { InHandCurrent(s); }
  }

  /**
   * Published and dead are absorbing: such a row is never rewritten, and a dead row is never removed, unless a
   * mark of the row took effect and still threw; then the catch branch rewrites a published row.
   */
  lemma {:induction false} SettledForever(s: State, steps: seq<Step>, id: Id)
    requires Inv(s) && ValidRun(s, steps) && Settled(s, id) && !InLimbo(s, id) && !MarkLost(s, steps, id)
    ensures StaysSettled(s, Run(s, steps), id)
    decreases |steps|
  {
    if steps != [] {
      SettledStep(s, steps[0], id);
      StepKeeps(s, steps[0]);
      LimboNeedsLostMark(s, steps[0], id);
      SettledForever(Next(s, steps[0]), steps[1..], id);
    }
  }

  lemma CommitRemovesNothing(s: State, req: Request, id: Id)
    requires Enabled(s, Commit(req)) && id in s.outbox
    ensures id in CommitStep(s, req).outbox
  {
    CommitInserts(s, req);
  }

  lemma RecordRemovesNothing(s: State, id: Id)
    requires Enabled(s, Record) && id in s.outbox
    ensures id in Next(s, Record).outbox && id in Next(s, RecordThrows(true)).outbox && id in Next(s, RecordThrows(false)).outbox
  {
    RecordEffect(s);
  }

  /** Rows leave the outbox by trimming only: those published more than half an hour ago go, and no others. */
  lemma LeavesByTrimIff(s: State, step: Step, id: Id)
    requires Enabled(s, step) && id in s.outbox
    ensures var row := s.outbox[id];
            id !in Next(s, step).outbox
            <==> (step.TrimPublished? && row.status == Published && row.publishedAt.Some? && row.publishedAt.value < s.clock - 1_800_000)
  {
    match step
    case Commit(req) => CommitRemovesNothing(s, req, id);
    case PersistOnly(e, eventId, fault) => PersistOnlyFrame(s, e, eventId, fault);
    case Record => RecordRemovesNothing(s, id);
    case RecordThrows(tookEffect) =>
      RecordRemovesNothing(s, id);
      if tookEffect { assert step == RecordThrows(true); } else { assert step == RecordThrows(false); }
    case _ =>
  }

  /** The clock does not pass `t` before the run's last step. */
  ghost predicate Until(s: State, steps: seq<Step>, t: int)
    requires ValidRun(s, steps)
    decreases |steps|
  {
    steps == [] || (s.clock <= t && Until(Next(s, steps[0]), steps[1..], t))
  }

  /** A published row stays, unchanged, for half an hour after its mark, whatever the run does but lose a mark of it. */
  lemma {:induction false} PublishedStaysHalfAnHour(s: State, steps: seq<Step>, id: Id, at: int)
    requires Inv(s) && ValidRun(s, steps) && !InLimbo(s, id) && !MarkLost(s, steps, id)
    requires id in s.outbox && s.outbox[id].status == Published && s.outbox[id].publishedAt == Some(at)
    requires Until(s, steps, at + 1_800_000)
    ensures id in Run(s, steps).outbox && Run(s, steps).outbox[id] == s.outbox[id]
    decreases |steps|
  {
    if steps != [] {
      assert RowOk(s, id);
      SettledStep(s, steps[0], id);
      LeavesByTrimIff(s, steps[0], id);
      StepKeeps(s, steps[0]);
      LimboNeedsLostMark(s, steps[0], id);
      PublishedStaysHalfAnHour(Next(s, steps[0]), steps[1..], id, at);
    }
  }

  /** The boundary: a row published at 0 is still there after a trim at 1 800 000 ms, and gone after one a millisecond later. */
  lemma {:induction false} TrimBoundary(s: State, row: OutboxRow)
    requires row.status == Published && row.publishedAt == Some(0) && s.outbox == map[row.id := row]
    ensures Run(s, [Advance(1_800_000), TrimPublished]).outbox == map[row.id := row]
    ensures Run(s, [Advance(1_800_001), TrimPublished]).outbox == map[]
  {
    RunTwo(s, Advance(1_800_000), TrimPublished);
    RunTwo(s, Advance(1_800_001), TrimPublished);
    LeavesByTrimIff(Next(s, Advance(1_800_000)), TrimPublished, row.id);
    LeavesByTrimIff(Next(s, Advance(1_800_001)), TrimPublished, row.id);
  }

  /**
   * What a lost mark does, wherever the relay stands: delivered and published first, the row is then pending again,
   * or dead, with one more failure.
   */
  lemma {:induction false} LostMarkReopens(s: State, row: OutboxRow)
    requires s.phase.Working? && s.phase.rest != [] && s.phase.rest[0] == row && row.id in s.outbox && s.outbox[row.id] == row
    ensures var lost := [Publish(Accepted), MarkThrows(true)];
            && ValidRun(s, lost + [Record])
            && row.id in Run(s, lost).outbox && Run(s, lost).outbox[row.id].status == Published
            && row.id in Run(s, lost + [Record]).outbox
            && Run(s, lost + [Record]).outbox[row.id].status == (if row.attempts + 1 >= MAX_ATTEMPTS then Dead else Pending)
            && Run(s, lost + [Record]).outbox[row.id].attempts == row.attempts + 1
            && Delivery(row.id, row.event) in Run(s, lost + [Record]).server
  {
    RunTwo(s, Publish(Accepted), MarkThrows(true));
    var s' := Run(s, [Publish(Accepted), MarkThrows(true)]);
    RunOne(s', Record);
    RecordEffect(s');
    RunConcat(s, [Publish(Accepted), MarkThrows(true)], [Record]);
    assert s'.server[|s.server|] == Delivery(row.id, row.event);
  }

  /** Dead is absorbing whatever the writes do. */
  lemma {:induction false} DeadForever(s: State, steps: seq<Step>, id: Id)
    requires Inv(s) && ValidRun(s, steps) && id in s.outbox && s.outbox[id].status == Dead
    ensures id in Run(s, steps).outbox && Run(s, steps).outbox[id] == s.outbox[id]
    decreases |steps|
  {
    if steps != [] {
      SettledStep(s, steps[0], id);
      StepKeeps(s, steps[0]);
      assert LedgerOk(s, id);
      DeadForever(Next(s, steps[0]), steps[1..], id);
    }
  }

  // ---------------------------------------------------------------- how often an event is delivered

  function Of(id: Id): Delivery -> bool {
    (d: Delivery) => d.Delivery? && d.id == id
  }

  function Deliveries(s: State, id: Id): nat {
    Count(s.server, Of(id))
  }

  /** One for the publish call whose outcome is not written yet. */
  ghost function InHand(s: State, id: Id): nat {
    if (s.phase.Marking? || s.phase.Failing?) && s.phase.rest != [] && s.phase.rest[0].id == id && !HeadMarked(s) then 1 else 0
  }

  ghost function Success(s: State, id: Id): nat {
    if id in s.committed && (id !in s.outbox || s.outbox[id].status == Published) then 1 else 0
  }

  /** How often the row was in hand when a crash or an escaped write cut the relay off. */
  function InterruptionsOf(s: State, id: Id): nat {
    if id in s.interruptions then s.interruptions[id] else 0
  }

  ghost function Budget(s: State, id: Id): nat {
    FailuresOf(s, id) + Success(s, id) + InHand(s, id) + InterruptionsOf(s, id)
  }

  ghost predicate DeliveryBudget(s: State, id: Id) {
    Deliveries(s, id) <= Budget(s, id)
  }

  lemma PublishWithinBudget(s: State, outcome: PublishOutcome, id: Id)
    requires Inv(s) && Enabled(s, Publish(outcome)) && DeliveryBudget(s, id)
    ensures DeliveryBudget(Next(s, Publish(outcome)), id)
  {
    InHandCurrent(s);
    DeliveryInHand(s, Next(s, Publish(outcome)), Delivery(s.phase.rest[0].id, s.phase.rest[0].event), id);
  }

  lemma DeliveryInHand(s: State, s': State, d: Delivery, id: Id)
    requires DeliveryBudget(s, id) && InHand(s, id) == 0 && InHand(s', id) == if Of(id)(d) then 1 else 0
    requires s'.server == s.server || s'.server == s.server + [d]
    requires s'.failures == s.failures && s'.interruptions == s.interruptions
    requires s'.committed == s.committed && s'.outbox == s.outbox
    ensures DeliveryBudget(s', id)
  {
    FilterSnoc(s.server, d, Of(id));
  }

  lemma NoneBeforeCommit(s: State, id: Id)
    requires OnlyCommitted(s) && id !in s.committed
    ensures Deliveries(s, id) == 0
  {
    if Filter(s.server, Of(id)) != [] {
      FilterMembers(s.server, Of(id), Filter(s.server, Of(id))[0]);
    }
  }

  lemma MarkWithinBudget(s: State, id: Id)
    requires Inv(s) && Enabled(s, Mark)
    ensures Budget(s, id) <= Budget(Next(s, Mark), id)
  {
    InHandCurrent(s);
  }

  lemma MarkThrowsWithinBudget(s: State, tookEffect: bool, id: Id)
    requires Inv(s) && Enabled(s, MarkThrows(tookEffect))
    ensures Budget(s, id) <= Budget(Next(s, MarkThrows(tookEffect)), id)
  {
    InHandCurrent(s);
  }

  lemma FailureWithinBudget(s: State, s': State, id: Id)
    requires Inv(s) && s.phase.Failing? && s.phase.rest != [] && FailureRecorded(s, s', s.phase.rest[0])
    requires s'.phase.Working? || s'.phase.Idle?
    ensures Budget(s, id) <= Budget(s', id)
  {
    InHandCurrent(s);
  }

  /** The row in hand was published and then trimmed: nothing is left to be done for it. */
  lemma GoneWithinBudget(s: State, s': State, id: Id)
    requires HeadMarked(s) && s' == s.(phase := s'.phase) && (s'.phase.Working? || s'.phase.Idle?)
    ensures Budget(s, id) <= Budget(s', id)
  {
  }

  lemma RecordWithinBudget(s: State, id: Id)
    requires Inv(s) && Enabled(s, Record)
    ensures Budget(s, id) <= Budget(Next(s, Record), id)
    ensures Budget(s, id) <= Budget(Next(s, RecordThrows(true)), id)
  {
    RecordEffect(s);
    if s.phase.rest[0].id in s.outbox {
      FailureWithinBudget(s, Next(s, Record), id);
      FailureWithinBudget(s, Next(s, RecordThrows(true)), id);
    } else {
      GoneWithinBudget(s, Next(s, Record), id);
      GoneWithinBudget(s, Next(s, RecordThrows(true)), id);
    }
  }

  lemma CommitWithinBudget(s: State, req: Request, id: Id)
    requires Inv(s) && Enabled(s, Commit(req)) && id in s.committed
    ensures Budget(s, id) <= Budget(CommitStep(s, req), id)
  {
    CommitInserts(s, req);
    if s.phase.Failing? { InHandCurrent(s); }
  }

  lemma TrimWithinBudget(s: State, id: Id)
    requires Inv(s)
    ensures Budget(s, id) <= Budget(Next(s, TrimPublished), id)
  {
  }

  /** Giving up a tick turns the delivery in hand into an interruption; everything else stays. */
  lemma QuietWithinBudget(s: State, s': State, id: Id)
    requires s'.outbox == s.outbox && s'.committed == s.committed && s'.failures == s.failures
    requires || (s'.phase == s.phase && s'.interruptions == s.interruptions)
             || (s'.phase.Idle? && s'.interruptions == Interrupted(s))
             || (s.phase.Idle? && s'.phase.Working? && s'.interruptions == s.interruptions)
    ensures Budget(s, id) <= Budget(s', id)
  {
  }

  lemma RowsAsideWithinBudget(s: State, e: Event, eventId: string, fault: Fault, id: Id)
    ensures Budget(s, id) <= Budget(PersistOnlyStep(s, e, eventId, fault), id)
  {
    PersistOnlyFrame(s, e, eventId, fault);
    QuietWithinBudget(s, PersistOnlyStep(s, e, eventId, fault), id);
  }

  lemma IdleWithinBudget(s: State, step: Step, id: Id)
    requires Enabled(s, step) && (step.TickBegin? || step.PublishDirect? || Idles(step) || step == RecordThrows(false))
    ensures Budget(s, id) <= Budget(Next(s, step), id)
  {
    QuietWithinBudget(s, Next(s, step), id);
  }

  /** What a step other than Publish takes from the right-hand side it puts back. */
  lemma OtherStepsWithinBudget(s: State, step: Step, id: Id)
    requires Inv(s) && Enabled(s, step) && !step.Publish? && id in s.committed
    ensures Budget(s, id) <= Budget(Next(s, step), id)
  {
    match step
    case Commit(req) => CommitWithinBudget(s, req, id);
    case Publish(_) =>
    case TrimPublished => TrimWithinBudget(s, id);
    case Mark => MarkWithinBudget(s, id);
    case MarkThrows(tookEffect) => MarkThrowsWithinBudget(s, tookEffect, id);
    case Record => RecordWithinBudget(s, id);
    case RecordThrows(tookEffect) => if tookEffect { RecordWithinBudget(s, id); } else { IdleWithinBudget(s, step, id); }
    case PersistOnly(e, eventId, fault) => RowsAsideWithinBudget(s, e, eventId, fault, id);
    case _ => IdleWithinBudget(s, step, id);
  }

  lemma DeliveryBudgetStep(s: State, step: Step, id: Id)
    requires Inv(s) && Enabled(s, step) && DeliveryBudget(s, id)
    ensures DeliveryBudget(Next(s, step), id)
  {
    if step.Publish? {
      PublishWithinBudget(s, step.outcome, id);
    } else if step.PublishDirect? {
      FilterSnoc(s.server, Direct(step.event), Of(id));
      IdleWithinBudget(s, step, id);
    } else {
      LogUnchanged(s, step);
      if id in s.committed {
        OtherStepsWithinBudget(s, step, id);
      } else {
        NoneBeforeCommit(s, id);
      }
    }
  }

  lemma {:induction false} DeliveryBudgetRun(s: State, steps: seq<Step>, id: Id)
    requires Inv(s) && ValidRun(s, steps) && DeliveryBudget(s, id)
    ensures DeliveryBudget(Run(s, steps), id)
    decreases |steps|
  {
    if steps != [] {
      DeliveryBudgetStep(s, steps[0], id);
      StepKeeps(s, steps[0]);
      DeliveryBudgetRun(Next(s, steps[0]), steps[1..], id);
    }
  }

  /** Duplicates are bounded: ten deliveries of one row, plus one for each time it was in hand when the relay was cut off. */
  lemma {:induction false} AtMostTenDeliveries(t: int, steps: seq<Step>, id: Id)
    requires ValidRun(Init(t), steps)
    ensures var s := Run(Init(t), steps); Deliveries(s, id) <= 10 + InterruptionsOf(s, id)
  {
    DeliveryBudgetRun(Init(t), steps, id);
    RunKeeps(Init(t), steps);
    var s := Run(Init(t), steps);
    assert LedgerOk(s, id);
    if InHand(s, id) == 1 {
      assert s.phase.rest[0] in Rest(s);
    }
  }
}
