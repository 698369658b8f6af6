/** The history fields of the pipeline count steps: what the theorems say of them they say of the steps of a run. */
module History {
  import opened Common
  import opened SessionEvents
  import opened Outbox
  import opened Pipeline
  import opened NoLoss

  /** The row the relay has in hand. */
  predicate HasInHand(s: State, id: Id) {
    (s.phase.Working? || s.phase.Marking? || s.phase.Failing?) && s.phase.rest != [] && s.phase.rest[0].id == id
  }

  /** The step writes a failure of this row to the table. */
  predicate CountsFailure(id: Id, s: State, step: Step) {
    (step.Record? || step == RecordThrows(true)) && HasInHand(s, id) && id in s.outbox
  }

  /** The step marks the row in hand, or writes a failure of it. */
  predicate WritesOutcome(s: State, step: Step) {
    || step.Mark?
    || ((step.Record? || step == RecordThrows(true))
        && (s.phase.Working? || s.phase.Marking? || s.phase.Failing?) && s.phase.rest != [] && s.phase.rest[0].id in s.outbox)
  }

  /**
   * The step cuts the relay off while this row is in hand, its publish call made and no outcome written: a crash, or
   * a record that throws without effect; unless its mark took effect before.
   */
  predicate CutsOff(id: Id, s: State, step: Step) {
    && (step.Crash? || step == RecordThrows(false))
    && (s.phase.Marking? || s.phase.Failing?) && HasInHand(s, id)
    && !(s.phase.Failing? && (id !in s.outbox || s.outbox[id].status == Published))
  }

  /** How many steps of the run satisfy `p` in the state they are taken in. */
  function Times(s: State, steps: seq<Step>, p: (State, Step) -> bool): nat
    requires ValidRun(s, steps)
    decreases |steps|
  {
    if steps == [] then 0 else (if p(s, steps[0]) then 1 else 0) + Times(Next(s, steps[0]), steps[1..], p)
  }

  /** All steps but insertions and recorded failures. */
  lemma PlainHistory(s: State, step: Step)
    requires Enabled(s, step) && !step.Commit? && !step.PersistOnly? && !step.Record? && !step.RecordThrows?
    ensures var s' := Next(s, step);
            && s'.recorded == s.recorded + (if step.Mark? then 1 else 0)
            && s'.interruptions == if step.Crash? then Interrupted(s) else s.interruptions
  {
  }

  lemma CommitHistory(s: State, req: Request)
    requires |req.faults| == MAX_RETRIES
    ensures CommitStep(s, req).recorded == s.recorded && CommitStep(s, req).interruptions == s.interruptions
    ensures CommitStep(s, req).ticks == s.ticks
  {
  }

  lemma RecordHistory(s: State)
    requires s.phase.Failing? && s.phase.rest != []
    ensures RecordStep(s).recorded == s.recorded + (if s.phase.rest[0].id in s.outbox then 1 else 0)
    ensures RecordStep(s).interruptions == s.interruptions && RecordStep(s).ticks == s.ticks
  {
    assert s.phase.rest[0].id in s.outbox ==> RecordStep(s) == Failed(s, s.phase.rest[0]);
  }

  lemma RecordWrites(s: State)
    requires s.phase.Failing? && s.phase.rest != []
    ensures Next(s, Record).recorded == s.recorded + (if WritesOutcome(s, Record) then 1 else 0) && Next(s, Record).ticks == s.ticks
  {
    RecordHistory(s);
  }

  lemma RecordThrowsWrites(s: State, tookEffect: bool)
    requires s.phase.Failing? && s.phase.rest != []
    ensures var step := RecordThrows(tookEffect);
            Next(s, step).recorded == s.recorded + (if WritesOutcome(s, step) then 1 else 0) && Next(s, step).ticks == s.ticks
  {
    RecordHistory(s);
  }

  lemma RecordedStep(s: State, step: Step)
    requires Enabled(s, step)
    ensures Next(s, step).recorded == s.recorded + (if WritesOutcome(s, step) then 1 else 0)
    ensures Next(s, step).ticks == s.ticks + (if step.TickEnd? then 1 else 0)
  {
    match step
    case Commit(req) => CommitHistory(s, req);
    case PersistOnly(e, eventId, fault) => PersistOnlyFrame(s, e, eventId, fault);
    case Record => RecordWrites(s);
    case RecordThrows(tookEffect) => RecordThrowsWrites(s, tookEffect);
    case _ =>
      PlainHistory(s, step);
      PlainStep(s, step);
  }

  lemma RecordStepFailures(s: State, id: Id)
    requires s.phase.Failing? && s.phase.rest != []
    ensures FailuresOf(RecordStep(s), id) == FailuresOf(s, id) + (if s.phase.rest[0].id == id && id in s.outbox then 1 else 0)
  {
    var row := s.phase.rest[0];
    if row.id in s.outbox { assert RecordStep(s) == Failed(s, row) && FailureRecorded(s, Failed(s, row), row); }
  }

  lemma RecordFailures(s: State, id: Id)
    requires s.phase.Failing? && s.phase.rest != []
    ensures FailuresOf(Next(s, Record), id) == FailuresOf(s, id) + (if CountsFailure(id, s, Record) then 1 else 0)
  {
    RecordStepFailures(s, id);
  }

  lemma RecordThrowsFailures(s: State, tookEffect: bool, id: Id)
    requires s.phase.Failing? && s.phase.rest != []
    ensures var step := RecordThrows(tookEffect);
            FailuresOf(Next(s, step), id) == FailuresOf(s, id) + (if CountsFailure(id, s, step) then 1 else 0)
  {
    RecordStepFailures(s, id);
  }

  lemma FailuresStep(s: State, step: Step, id: Id)
    requires Enabled(s, step)
    ensures FailuresOf(Next(s, step), id) == FailuresOf(s, id) + (if CountsFailure(id, s, step) then 1 else 0)
  {
    match step
    case Commit(req) => CommitInserts(s, req);
    case PersistOnly(e, eventId, fault) => PersistOnlyFrame(s, e, eventId, fault);
    case Record => RecordFailures(s, id);
    case RecordThrows(tookEffect) => RecordThrowsFailures(s, tookEffect, id);
    case _ => PlainStep(s, step);
  }

  lemma InterruptedAdds(s: State, step: Step, id: Id)
    requires step.Crash? || step == RecordThrows(false)
    ensures (if id in Interrupted(s) then Interrupted(s)[id] else 0) == InterruptionsOf(s, id) + if CutsOff(id, s, step) then 1 else 0
  {
  }

  lemma InterruptionsStep(s: State, step: Step, id: Id)
    requires Enabled(s, step)
    ensures InterruptionsOf(Next(s, step), id) == InterruptionsOf(s, id) + if CutsOff(id, s, step) then 1 else 0
  {
    match step
    case Commit(req) => CommitHistory(s, req);
    case PersistOnly(e, eventId, fault) => PersistOnlyFrame(s, e, eventId, fault);
    case Record => RecordHistory(s);
    case RecordThrows(tookEffect) => if tookEffect { RecordHistory(s); } else { InterruptedAdds(s, step, id); }
    case _ =>
      PlainHistory(s, step);
      if step.Crash? { InterruptedAdds(s, step, id); }
  }

  /** Over every run: completed ticks, written outcomes, recorded failures and interruptions are numbers of its steps. */
  lemma {:induction false} HistoryCounts(s: State, steps: seq<Step>, id: Id)
    requires ValidRun(s, steps)
    ensures var s' := Run(s, steps);
            && s'.ticks == s.ticks + Times(s, steps, (t: State, step: Step) => step.TickEnd?)
            && s'.recorded == s.recorded + Times(s, steps, WritesOutcome)
            && FailuresOf(s', id) == FailuresOf(s, id) + Times(s, steps, (t: State, step: Step) => CountsFailure(id, t, step))
            && InterruptionsOf(s', id) == InterruptionsOf(s, id) + Times(s, steps, (t: State, step: Step) => CutsOff(id, t, step))
    decreases |steps|
  {
    if steps != [] {
      RecordedStep(s, steps[0]);
      FailuresStep(s, steps[0], id);
      InterruptionsStep(s, steps[0], id);
      HistoryCounts(Next(s, steps[0]), steps[1..], id);
    }
  }

  /**
   * The bound on duplicates in terms of the run: an event is delivered at most ten times, plus once for each step that
   * cut the relay off between its publish call and the writing of its outcome.
   */
  lemma {:induction false} DeliveriesAreBounded(t: int, steps: seq<Step>, id: Id)
    requires ValidRun(Init(t), steps)
    ensures Deliveries(Run(Init(t), steps), id) <= 10 + Times(Init(t), steps, (s: State, step: Step) => CutsOff(id, s, step))
  {
    AtMostTenDeliveries(t, steps, id);
    HistoryCounts(Init(t), steps, id);
  }

  /** From the beginning on, the fields are those numbers. */
  lemma {:induction false} HistoryFromTheStart(t: int, steps: seq<Step>, id: Id)
    requires ValidRun(Init(t), steps)
    ensures var s := Run(Init(t), steps);
            && s.ticks == Times(Init(t), steps, (u: State, step: Step) => step.TickEnd?)
            && s.recorded == Times(Init(t), steps, WritesOutcome)
            && FailuresOf(s, id) == Times(Init(t), steps, (u: State, step: Step) => CountsFailure(id, u, step))
  {
    HistoryCounts(Init(t), steps, id);
  }

  // ---------------------------------------------------------------- the log

  ghost predicate Unstarted(s: State) {
    !s.running && s.phase.Idle? && forall d :: d in s.server ==> d.Direct?
  }

  lemma UnstartedStep(s: State, step: Step)
    requires Unstarted(s) && Enabled(s, step) && !step.Start?
    ensures Unstarted(Next(s, step))
  {
    match step
    case Commit(req) => UnstartedCommit(s, req);
    case PersistOnly(e, eventId, fault) => PersistOnlyFrame(s, e, eventId, fault);
    case _ =>
  }

  lemma UnstartedCommit(s: State, req: Request)
    requires |req.faults| == MAX_RETRIES
    ensures CommitStep(s, req).running == s.running && CommitStep(s, req).phase == s.phase && CommitStep(s, req).server == s.server
  {
  }

  /** Until it is started the relay is idle and delivers nothing, however much is committed. */
  lemma {:induction false} NothingBeforeStart(t: int, steps: seq<Step>)
    requires ValidRun(Init(t), steps) && forall step :: step in steps ==> !step.Start?
    ensures var s := Run(Init(t), steps);
            !s.running && s.phase.Idle? && forall d :: d in s.server ==> d.Direct?
  {
    StaysUnstarted(Init(t), steps);
  }

  lemma {:induction false} StaysUnstarted(s: State, steps: seq<Step>)
    requires Unstarted(s) && ValidRun(s, steps) && forall step :: step in steps ==> !step.Start?
    ensures Unstarted(Run(s, steps))
    decreases |steps|
  {
    if steps != [] {
      UnstartedStep(s, steps[0]);
      StaysUnstarted(Next(s, steps[0]), steps[1..]);
    }
  }

  function DeliveryOf(id: Id, s: State, step: Step): bool {
    step.Publish? && !step.outcome.Refused? && HasInHand(s, id)
  }

  /** The deliveries of a row are the publish calls made with it in hand and not refused. */
  lemma {:induction false} DeliveriesArePublishCalls(s: State, steps: seq<Step>, id: Id)
    requires ValidRun(s, steps)
    ensures Deliveries(Run(s, steps), id) == Deliveries(s, id) + Times(s, steps, (t: State, step: Step) => DeliveryOf(id, t, step))
    decreases |steps|
  {
    if steps != [] {
      DeliveriesStep(s, steps[0], id);
      DeliveriesArePublishCalls(Next(s, steps[0]), steps[1..], id);
    }
  }

  lemma DeliveriesStep(s: State, step: Step, id: Id)
    requires Enabled(s, step)
    ensures Deliveries(Next(s, step), id) == Deliveries(s, id) + if DeliveryOf(id, s, step) then 1 else 0
  {
    match step
    case Publish(outcome) => FilterSnoc(s.server, Delivery(s.phase.rest[0].id, s.phase.rest[0].event), Of(id));
    case PublishDirect(e, _) => FilterSnoc(s.server, Direct(e), Of(id));
    case _ => LogUnchanged(s, step);
  }
}
