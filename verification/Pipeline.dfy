/**
 * The durable event pipeline as a step system: producers commit events together with an outbox row,
 * the relay delivers rows one atomic action at a time, and the process may crash between any two actions.
 * The last fields of the state are history: nothing reads them but the theorems.
 */
module Pipeline {
  import opened Common
  import opened SessionEvents
  import opened Outbox

  /**
   * One entry of the stream server's log: a relayed event, with the outbox row that was being delivered, or one that
   * was published directly and not persisted.
   */
  datatype Delivery = Delivery(id: Id, event: Event) | Direct(event: Event)

  /**
   * Where the relay is in its tick. `rest` holds the fetched rows still to be handled.
   * Marking: the publish call for the first row returned. Failing: it, or the mark, threw.
   */
  datatype Phase =
    | Idle
    | Working(rest: seq<OutboxRow>)
    | Marking(rest: seq<OutboxRow>)
    | Failing(rest: seq<OutboxRow>)

  datatype PublishOutcome = Accepted | Refused | AcceptedThenThrew

  datatype Request = Request(event: Event, eventId: string, faults: seq<Fault>, format: Format, outboxId: Id, enqueueFails: bool)

  datatype Issue = Issue(stream: string, offset: nat)

  datatype State = State(
    clock: int,
    events: seq<EventRow>,
    outbox: Table,
    server: seq<Delivery>,
    running: bool,
    phase: Phase,
    // history
    committed: map<Id, Event>,
    issued: seq<Issue>,
    failures: map<Id, nat>,
    firstFailure: map<Id, int>,
    lastFailure: map<Id, int>,
    recorded: nat,
    interruptions: map<Id, nat>,
    origin: map<string, Option<Id>>,
    ticks: nat)

  datatype Step =
    | Advance(t: int)
    | Start
    | Stop
    | Crash
    | Commit(req: Request)
    | PersistOnly(event: Event, eventId: string, fault: Fault)
    | PublishDirect(event: Event, outcome: PublishOutcome)
    | TickBegin(batch: seq<OutboxRow>)
    | Publish(outcome: PublishOutcome)
    | Mark
    | MarkThrows(tookEffect: bool)
    | Record
    | RecordThrows(tookEffect: bool)
    | TickEnd
    | TrimPublished
    | Cleanup(dialect: Dialect, cutoff: int, victims: set<string>)
    | DeleteStreams(streams: set<string>)

  function Init(clock: int): State {
    State(clock, [], map[], [], false, Idle, map[], [], map[], map[], map[], 0, map[], map[], 0)
  }

  predicate Enabled(s: State, step: Step) {
    match step
    case Commit(req) => req.outboxId !in s.committed && |req.faults| == MAX_RETRIES
    case TickBegin(batch) => s.running && s.phase.Idle? && IsDueBatch(s.outbox, s.clock, batch)
    case Publish(_) => s.phase.Working? && s.phase.rest != []
    case Mark => s.phase.Marking? && s.phase.rest != []
    case MarkThrows(_) => s.phase.Marking? && s.phase.rest != []
    case Record => s.phase.Failing? && s.phase.rest != []
    case RecordThrows(_) => s.phase.Failing? && s.phase.rest != []
    case TickEnd => s.phase == Working([])
    case Cleanup(dialect, cutoff, victims) =>
      cutoff < s.clock && forall r :: r in s.events && r.id in victims ==> SortsBefore(dialect, r.createdAt, cutoff)
    case _ => true
  }

  /** The steps that remove event rows: retention, and the deletion of whole streams. */
  predicate Deletes(step: Step) {
    step.Cleanup? || step.DeleteStreams?
  }

  /** The rows a deleting step leaves. */
  function Remains(step: Step): EventRow -> bool
    requires Deletes(step)
  {
    if step.Cleanup? then Surviving(step.victims) else OffStreams(step.streams)
  }

  /** The producer's transaction: both rows are inserted, or neither. */
  function CommitStep(s: State, req: Request): State
    requires |req.faults| == MAX_RETRIES
  {
    var row := Persist(s.events, req.event, req.eventId, req.faults, Stamp(s.clock, req.format), 0);
    if row.None? || req.enqueueFails then s
    else
      s.(events := s.events + [row.value],
         outbox := s.outbox[req.outboxId := Enqueued(req.outboxId, req.event, s.clock)],
         committed := s.committed[req.outboxId := req.event],
         issued := s.issued + [Issue(req.event.streamId, row.value.offset)],
         origin := s.origin[row.value.id := Some(req.outboxId)])
  }

  /** The session stream service's insert without live delivery: one attempt, and no outbox row. */
  function PersistOnlyStep(s: State, e: Event, eventId: string, fault: Fault): State {
    if fault != NoFault || HasId(s.events, eventId) then s
    else
      s.(events := s.events + [NewRow(s.events, e, eventId, Stamp(s.clock, Iso))],
         issued := s.issued + [Issue(e.streamId, NextOffset(s.events, e.streamId))],
         origin := s.origin[eventId := None])
  }

  /** The mark of the failing row took effect and still threw: the table says published, or the row is trimmed since. */
  predicate HeadMarked(s: State) {
    s.phase.Failing? && s.phase.rest != [] &&
    var id := s.phase.rest[0].id;
    id !in s.outbox || s.outbox[id].status == Published
  }

  function CountUp(counts: map<Id, nat>, id: Id): map<Id, nat> {
    counts[id := 1 + if id in counts then counts[id] else 0]
  }

  /** Being cut off after its publish call and before its outcome is written costs the row in hand one count. */
  function Interrupted(s: State): map<Id, nat> {
    if (s.phase.Marking? || s.phase.Failing?) && s.phase.rest != [] && !HeadMarked(s) then
      CountUp(s.interruptions, s.phase.rest[0].id)
    else s.interruptions
  }

  /** The catch branch's update; it finds no row if the row was marked, and trimmed since. */
  function RecordStep(s: State): State
    requires s.phase.Failing? && s.phase.rest != []
  {
    var row := s.phase.rest[0];
    if row.id !in s.outbox then s.(phase := Working(s.phase.rest[1..])) else Failed(s, row)
  }

  function Failed(s: State, row: OutboxRow): State
    requires s.phase.Failing? && s.phase.rest != []
  {
    s.(outbox := RecordFailure(s.outbox, row, s.clock),
       phase := Working(s.phase.rest[1..]),
       failures := CountUp(s.failures, row.id),
       firstFailure := if row.id in s.firstFailure then s.firstFailure else s.firstFailure[row.id := s.clock],
       lastFailure := s.lastFailure[row.id := s.clock],
       recorded := s.recorded + 1)
  }

  function Next(s: State, step: Step): State
    requires Enabled(s, step)
  {
    match step
    case Advance(t) => s.(clock := t)
    case Start => s.(running := true)
    case Stop => s.(running := false)
    case Crash => s.(running := false, phase := Idle, interruptions := Interrupted(s))
    case Commit(req) => CommitStep(s, req)
    case PersistOnly(e, eventId, fault) => PersistOnlyStep(s, e, eventId, fault)
    case PublishDirect(e, outcome) => s.(server := if outcome.Refused? then s.server else s.server + [Direct(e)])
    case TickBegin(batch) => s.(phase := Working(batch))
    case Publish(outcome) =>
      var row := s.phase.rest[0];
      var s' := s.(server := if outcome.Refused? then s.server else s.server + [Delivery(row.id, row.event)]);
      s'.(phase := if outcome.Accepted? then Marking(s.phase.rest) else Failing(s.phase.rest))
    case Mark =>
      s.(outbox := MarkPublished(s.outbox, s.phase.rest[0].id, s.clock),
         phase := Working(s.phase.rest[1..]), recorded := s.recorded + 1)
    case MarkThrows(tookEffect) =>
      s.(outbox := if tookEffect then MarkPublished(s.outbox, s.phase.rest[0].id, s.clock) else s.outbox,
         phase := Failing(s.phase.rest))
    case Record => RecordStep(s)
    case RecordThrows(tookEffect) =>
      if tookEffect then RecordStep(s).(phase := Idle) else s.(phase := Idle, interruptions := Interrupted(s))
    case TickEnd => s.(phase := Idle, ticks := s.ticks + 1)
    case TrimPublished => s.(outbox := Trim(s.outbox, s.clock))
    case Cleanup(_, _, victims) => s.(events := Filter(s.events, Surviving(victims)))
    case DeleteStreams(streams) => s.(events := Filter(s.events, OffStreams(streams)))
  }

  // ---------------------------------------------------------------- runs

  predicate ValidRun(s: State, steps: seq<Step>)
    decreases |steps|
  {
    steps == [] || (Enabled(s, steps[0]) && ValidRun(Next(s, steps[0]), steps[1..]))
  }

  function Run(s: State, steps: seq<Step>): State
    requires ValidRun(s, steps)
    decreases |steps|
  {
    if steps == [] then s else Run(Next(s, steps[0]), steps[1..])
  }

  /** The clock never goes back during the run. */
  predicate Monotone(s: State, steps: seq<Step>)
    requires ValidRun(s, steps)
    decreases |steps|
  {
    steps == [] || ((steps[0].Advance? ==> s.clock <= steps[0].t) && Monotone(Next(s, steps[0]), steps[1..]))
  }

  lemma {:induction false} RunOne(s: State, step: Step)
    requires Enabled(s, step)
    ensures ValidRun(s, [step]) && Run(s, [step]) == Next(s, step)
  {
    var s' := Next(s, step);
    assert [step][1..] == [] && ValidRun(s', []) && Run(s', []) == s';
  }

  lemma {:induction false} RunCons(s: State, step: Step, rest: seq<Step>)
    requires Enabled(s, step) && ValidRun(Next(s, step), rest)
    ensures ValidRun(s, [step] + rest) && Run(s, [step] + rest) == Run(Next(s, step), rest)
  {
    assert ([step] + rest)[1..] == rest;
  }

  lemma {:induction false} RunTwo(s: State, a: Step, b: Step)
    requires Enabled(s, a) && Enabled(Next(s, a), b)
    ensures ValidRun(s, [a, b]) && Run(s, [a, b]) == Next(Next(s, a), b)
  {
    RunOne(Next(s, a), b);
    RunCons(s, a, [b]);
    assert [a] + [b] == [a, b];
  }

  lemma {:induction false} RunConcat(s: State, a: seq<Step>, b: seq<Step>)
    requires ValidRun(s, a) && ValidRun(Run(s, a), b)
    ensures ValidRun(s, a + b) && Run(s, a + b) == Run(Run(s, a), b)
    decreases |a|
  {
    if a == [] {
      assert a + b == b;
    } else {
      assert (a + b)[0] == a[0] && (a + b)[1..] == a[1..] + b;
      RunConcat(Next(s, a[0]), a[1..], b);
    }
  }
}
