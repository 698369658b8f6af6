/** Fairness and the retry limit together: what a relay that keeps ticking achieves for every event. */
module Progress {
  import opened SessionEvents
  import opened Outbox
  import opened Pipeline
  import opened NoLoss
  import opened Fairness

  /** Any steps at all, for instance until a backoff is over, and then steps that serve a row that is due. */
  datatype Round = Round(wait: seq<Step>, serve: seq<Step>)

  /** If the row is pending, it is due, and enough ticks complete to reach it. */
  ghost predicate Serves(s: State, steps: seq<Step>, id: Id) {
    && ValidRun(s, steps) && Monotone(s, steps)
    && (id in s.outbox && s.outbox[id].status == Pending ==>
          && Due(s.outbox[id], s.clock)
          && BATCH_SIZE * (Run(s, steps).ticks - s.ticks) >= InFront(s, id) + Joiners(s, steps, s.outbox[id].nextAttemptAt))
  }

  ghost predicate RoundServes(s: State, round: Round, id: Id) {
    ValidRun(s, round.wait) && Serves(Run(s, round.wait), round.serve, id)
  }

  ghost function AfterRound(s: State, round: Round, id: Id): State
    requires RoundServes(s, round, id)
  {
    Run(Run(s, round.wait), round.serve)
  }

  ghost predicate RoundsServe(s: State, rounds: seq<Round>, id: Id)
    decreases |rounds|
  {
    rounds == [] || (RoundServes(s, rounds[0], id) && RoundsServe(AfterRound(s, rounds[0], id), rounds[1..], id))
  }

  ghost function AfterRounds(s: State, rounds: seq<Round>, id: Id): State
    requires RoundsServe(s, rounds, id)
    decreases |rounds|
  {
    if rounds == [] then s else AfterRounds(AfterRound(s, rounds[0], id), rounds[1..], id)
  }

  // ---------------------------------------------------------------- failures are only ever counted

  lemma FailureCounts(s: State, s': State, row: OutboxRow, id: Id)
    requires FailureRecorded(s, s', row)
    ensures FailuresOf(s', id) == FailuresOf(s, id) + if id == row.id then 1 else 0
  {
  }

  lemma RecordFailures(s: State, id: Id)
    requires Enabled(s, Record)
    ensures FailuresOf(s, id) <= FailuresOf(Next(s, Record), id) == FailuresOf(Next(s, RecordThrows(true)), id)
  {
    RecordEffect(s);
    if s.phase.rest[0].id in s.outbox { FailureCounts(s, Next(s, Record), s.phase.rest[0], id); }
  }

  lemma FailuresStep(s: State, step: Step, id: Id)
    requires Enabled(s, step)
    ensures FailuresOf(s, id) <= FailuresOf(Next(s, step), id)
  {
    match step
    case Commit(req) => CommitInserts(s, req);
    case Record => RecordFailures(s, id);
    case RecordThrows(tookEffect) => if tookEffect { RecordFailures(s, id); }
    case PersistOnly(e, eventId, fault) => PersistOnlyFrame(s, e, eventId, fault);
    case _ => PlainStep(s, step);
  }

  lemma {:induction false} FailuresRun(s: State, steps: seq<Step>, id: Id)
    requires ValidRun(s, steps)
    ensures FailuresOf(s, id) <= FailuresOf(Run(s, steps), id)
    decreases |steps|
  {
    if steps != [] {
      FailuresStep(s, steps[0], id);
      FailuresRun(Next(s, steps[0]), steps[1..], id);
    }
  }

  /** Ten recorded failures are the end of a row. */
  lemma TenFailuresAreDeath(s: State, id: Id)
    requires Inv(s) && id in s.committed && FailuresOf(s, id) >= MAX_ATTEMPTS
    ensures id in s.outbox && s.outbox[id].status == Dead
  {
    assert LedgerOk(s, id);
  }

  // ---------------------------------------------------------------- arrival

  /** The event has reached the server's log, or the relay has given it up for good. */
  ghost predicate Done(s: State, id: Id) {
    Delivered(s, id) || (id in s.outbox && s.outbox[id].status == Dead)
  }

  lemma SettledIsDone(s: State, id: Id)
    requires Inv(s) && Settled(s, id)
    ensures Done(s, id)
  {
    assert Held(s, id) || Delivered(s, id);
  }

  lemma {:induction false} DoneForever(s: State, steps: seq<Step>, id: Id)
    requires Inv(s) && ValidRun(s, steps) && Done(s, id)
    ensures Done(Run(s, steps), id)
  {
    CommittedGrows(s, steps);
    if !Delivered(s, id) { DeadForever(s, steps, id); }
  }

  lemma MarkSettles(s: State, step: Step, id: Id)
    requires Inv(s) && Handles(s, step, id) && (step.Mark? || step.MarkThrows?)
    ensures Settled(Next(s, step), id)
  {
    InHandCurrent(s);
  }

  lemma RecordCounts(s: State, step: Step, id: Id)
    requires Inv(s) && Handles(s, step, id) && !step.Mark? && !step.MarkThrows? && id in s.outbox
    ensures FailuresOf(Next(s, step), id) == FailuresOf(s, id) + 1
  {
    RecordEffect(s);
  }

  /** A write for a pending row settles it or counts a failure. */
  lemma WriteSettlesOrCounts(s: State, step: Step, id: Id)
    requires Inv(s) && Handles(s, step, id) && id in s.outbox && s.outbox[id].status == Pending
    ensures Settled(Next(s, step), id) || FailuresOf(Next(s, step), id) == FailuresOf(s, id) + 1
  {
    if step.Mark? || step.MarkThrows? {
      MarkSettles(s, step, id);
    } else {
      RecordCounts(s, step, id);
    }
  }

  lemma {:induction false} HandledArrives(s: State, steps: seq<Step>, id: Id)
    requires Inv(s) && id in s.committed && ValidRun(s, steps) && HandledDuring(s, steps, id)
    ensures Done(Run(s, steps), id) || FailuresOf(Run(s, steps), id) > FailuresOf(s, id)
    decreases |steps|
  {
    var s', rest := Next(s, steps[0]), steps[1..];
    StepKeeps(s, steps[0]);
    CommittedStays(s, steps[0]);
    FailuresStep(s, steps[0], id);
    if Settled(s, id) {
      SettledIsDone(s, id);
      DoneForever(s, steps, id);
    } else if Handles(s, steps[0], id) {
      WriteSettlesOrCounts(s, steps[0], id);
      FailuresRun(s', rest, id);
      if Settled(s', id) {
        SettledIsDone(s', id);
        DoneForever(s', rest, id);
      }
    } else {
      HandledArrives(s', rest, id);
    }
  }

  lemma RoundArrives(s: State, round: Round, id: Id)
    requires Inv(s) && id in s.committed && RoundServes(s, round, id)
    ensures var s' := AfterRound(s, round, id);
            Inv(s') && id in s'.committed && (Done(s', id) || FailuresOf(s', id) > FailuresOf(s, id))
  {
    var s1 := Run(s, round.wait);
    RunKeeps(s, round.wait);
    CommittedGrows(s, round.wait);
    FailuresRun(s, round.wait, id);
    RunKeeps(s1, round.serve);
    CommittedGrows(s1, round.serve);
    if Settled(s1, id) {
      SettledIsDone(s1, id);
      DoneForever(s1, round.serve, id);
    } else {
      HandledInTime(s1, round.serve, id);
      HandledArrives(s1, round.serve, id);
    }
  }

  lemma {:induction false} RoundsArrive(s: State, rounds: seq<Round>, id: Id)
    requires Inv(s) && id in s.committed && RoundsServe(s, rounds, id)
    ensures var s' := AfterRounds(s, rounds, id);
            Inv(s') && id in s'.committed && (Done(s', id) || FailuresOf(s', id) >= FailuresOf(s, id) + |rounds|)
    decreases |rounds|
  {
    if rounds != [] {
      var s1 := AfterRound(s, rounds[0], id);
      RoundArrives(s, rounds[0], id);
      RoundsArrive(s1, rounds[1..], id);
      if Done(s1, id) { DoneForeverInRounds(s1, rounds[1..], id); }
    }
  }

  lemma {:induction false} DoneForeverInRounds(s: State, rounds: seq<Round>, id: Id)
    requires Inv(s) && RoundsServe(s, rounds, id) && Done(s, id)
    ensures Done(AfterRounds(s, rounds, id), id)
    decreases |rounds|
  {
    if rounds != [] {
      var s1 := Run(s, rounds[0].wait);
      DoneForever(s, rounds[0].wait, id);
      RunKeeps(s, rounds[0].wait);
      DoneForever(s1, rounds[0].serve, id);
      RunKeeps(s1, rounds[0].serve);
      DoneForeverInRounds(Run(s1, rounds[0].serve), rounds[1..], id);
    }
  }

  /**
   * Every event arrives or is given up. From any reachable state, let the relay be interrupted, crash, fail and be
   * restarted at will, as long as as many times as the row has attempts left there comes a moment at which the row,
   * if still pending, is due and enough ticks complete to reach it. Then the event is in the log or its row is dead.
   */
  lemma {:induction false} EveryEventArrivesOrDies(t: int, before: seq<Step>, rounds: seq<Round>, id: Id)
    requires ValidRun(Init(t), before) && id in Run(Init(t), before).committed
    requires var s0 := Run(Init(t), before);
             RoundsServe(s0, rounds, id) && FailuresOf(s0, id) + |rounds| >= MAX_ATTEMPTS
    ensures Done(AfterRounds(Run(Init(t), before), rounds, id), id)
  {
    RunKeeps(Init(t), before);
    var s0 := Run(Init(t), before);
    RoundsArrive(s0, rounds, id);
    var s := AfterRounds(s0, rounds, id);
    if !Done(s, id) { TenFailuresAreDeath(s, id); }
  }

  // ---------------------------------------------------------------- settlement

  ghost predicate RoundsLoseNoMark(s: State, rounds: seq<Round>, id: Id)
    requires RoundsServe(s, rounds, id)
    decreases |rounds|
  {
    rounds == [] ||
    (&& !MarkLost(s, rounds[0].wait, id) && !MarkLost(Run(s, rounds[0].wait), rounds[0].serve, id)
     && RoundsLoseNoMark(AfterRound(s, rounds[0], id), rounds[1..], id))
  }

  lemma {:induction false} NoLimboWithoutLostMark(s: State, steps: seq<Step>, id: Id)
    requires Inv(s) && ValidRun(s, steps) && !InLimbo(s, id) && !MarkLost(s, steps, id)
    ensures !InLimbo(Run(s, steps), id)
    decreases |steps|
  {
    if steps != [] {
      LimboNeedsLostMark(s, steps[0], id);
      StepKeeps(s, steps[0]);
      NoLimboWithoutLostMark(Next(s, steps[0]), steps[1..], id);
    }
  }

  lemma {:induction false} HandledSettles(s: State, steps: seq<Step>, id: Id)
    requires Inv(s) && id in s.committed && ValidRun(s, steps) && HandledDuring(s, steps, id)
    requires !InLimbo(s, id) && !MarkLost(s, steps, id)
    ensures Settled(Run(s, steps), id) || FailuresOf(Run(s, steps), id) > FailuresOf(s, id)
    decreases |steps|
  {
    var s', rest := Next(s, steps[0]), steps[1..];
    StepKeeps(s, steps[0]);
    CommittedStays(s, steps[0]);
    FailuresStep(s, steps[0], id);
    LimboNeedsLostMark(s, steps[0], id);
    if Settled(s, id) {
      SettledForever(s, steps, id);
    } else if Handles(s, steps[0], id) {
      WriteSettlesOrCounts(s, steps[0], id);
      FailuresRun(s', rest, id);
      if Settled(s', id) { SettledForever(s', rest, id); }
    } else {
      HandledSettles(s', rest, id);
    }
  }

  lemma {:induction false} RoundSettles(s: State, round: Round, id: Id)
    requires Inv(s) && id in s.committed && RoundServes(s, round, id)
    requires !InLimbo(s, id) && !MarkLost(s, round.wait, id) && !MarkLost(Run(s, round.wait), round.serve, id)
    ensures var s' := AfterRound(s, round, id);
            && Inv(s') && id in s'.committed && !InLimbo(s', id)
            && (Settled(s', id) || FailuresOf(s', id) > FailuresOf(s, id)) && (Settled(s, id) ==> Settled(s', id))
  {
    var s1 := Run(s, round.wait);
    RunKeeps(s, round.wait);
    CommittedGrows(s, round.wait);
    FailuresRun(s, round.wait, id);
    NoLimboWithoutLostMark(s, round.wait, id);
    RunKeeps(s1, round.serve);
    CommittedGrows(s1, round.serve);
    NoLimboWithoutLostMark(s1, round.serve, id);
    if Settled(s, id) { SettledForever(s, round.wait, id); }
    if Settled(s1, id) {
      SettledForever(s1, round.serve, id);
    } else {
      HandledInTime(s1, round.serve, id);
      HandledSettles(s1, round.serve, id);
    }
  }

  lemma {:induction false} RoundsSettle(s: State, rounds: seq<Round>, id: Id)
    requires Inv(s) && id in s.committed && RoundsServe(s, rounds, id)
    requires !InLimbo(s, id) && RoundsLoseNoMark(s, rounds, id)
    ensures var s' := AfterRounds(s, rounds, id);
            && Inv(s') && id in s'.committed && (Settled(s, id) ==> Settled(s', id))
            && (Settled(s', id) || FailuresOf(s', id) >= FailuresOf(s, id) + |rounds|)
    decreases |rounds|
  {
    if rounds != [] {
      RoundSettles(s, rounds[0], id);
      RoundsSettle(AfterRound(s, rounds[0], id), rounds[1..], id);
    }
  }

  /** Under the same conditions, and if no mark of the row is lost, the row ends published or dead: nothing stays pending. */
  lemma {:induction false} EveryRowSettles(t: int, before: seq<Step>, rounds: seq<Round>, id: Id)
    requires ValidRun(Init(t), before) && id in Run(Init(t), before).committed
    requires var s0 := Run(Init(t), before);
             && RoundsServe(s0, rounds, id) && FailuresOf(s0, id) + |rounds| >= MAX_ATTEMPTS
             && !InLimbo(s0, id) && RoundsLoseNoMark(s0, rounds, id)
    ensures var s := AfterRounds(Run(Init(t), before), rounds, id);
            id in s.outbox ==> s.outbox[id].status == Published || s.outbox[id].status == Dead
  {
    RunKeeps(Init(t), before);
    var s0 := Run(Init(t), before);
    RoundsSettle(s0, rounds, id);
    var s := AfterRounds(s0, rounds, id);
    if !Settled(s, id) { TenFailuresAreDeath(s, id); }
  }
}
