/** The relay's own code, run against the step system. */
module Relay {
  import opened Common
  import opened Outbox
  import opened Pipeline
  import opened NoLoss
  import opened Storage

  /** A write works, throws without effect, or takes effect and still throws. */
  datatype WriteOutcome = Works | Throws | WorksThenThrows

  /** What happens to one row: the publish call, the clock at the write, and the two writes. */
  datatype RowEnv = RowEnv(publish: PublishOutcome, now: int, mark: WriteOutcome, record: WriteOutcome)

  predicate Succeeds(env: RowEnv) {
    env.publish.Accepted? && env.mark.Works?
  }

  predicate Escapes(env: RowEnv) {
    !Succeeds(env) && !env.record.Works?
  }

  /** The publish call, then the clock reading, then the writes. */
  function RowSteps(env: RowEnv): seq<Step> {
    [Publish(env.publish), Advance(env.now)] + WriteSteps(env)
  }

  function RecordStepOf(env: RowEnv): Step {
    if env.record.Works? then Record else RecordThrows(env.record.WorksThenThrows?)
  }

  function WriteSteps(env: RowEnv): seq<Step> {
    if Succeeds(env) then [Mark]
    else if env.publish.Accepted? then [MarkThrows(env.mark.WorksThenThrows?), RecordStepOf(env)]
    else [RecordStepOf(env)]
  }

  function Marked(row: OutboxRow, now: int): OutboxRow {
    row.(status := Published, publishedAt := Some(now))
  }

  /** The row in the table when the catch branch is reached. */
  function WhenCaught(row: OutboxRow, env: RowEnv): OutboxRow {
    if env.publish.Accepted? && env.mark.WorksThenThrows? then Marked(row, env.now) else row
  }

  /** The row after one handling, escaped or not. */
  function Handled(row: OutboxRow, env: RowEnv): OutboxRow {
    if Succeeds(env) then Marked(row, env.now)
    else if env.record.Throws? then WhenCaught(row, env)
    else WhenCaught(row, env).(status := if row.attempts + 1 >= MAX_ATTEMPTS then Dead else Pending,
                               attempts := row.attempts + 1,
                               nextAttemptAt := env.now + Backoff(row.attempts + 1))
  }

  /** One handling in full: published by a mark that works, one more failure if that is recorded, or as far as the writes took effect. */
  lemma HandledMeans(row: OutboxRow, env: RowEnv)
    ensures var row', works := Handled(row, env), env.publish.Accepted? && env.mark.Works?;
            var published := row.(status := Published, publishedAt := Some(env.now));
            var caught := if env.publish.Accepted? && env.mark.WorksThenThrows? then published else row;
            && (works ==> row' == published)
            && (!works && env.record.Throws? ==> row' == caught)
            && (!works && !env.record.Throws? ==>
                  && row' == caught.(status := row'.status, attempts := row.attempts + 1, nextAttemptAt := row'.nextAttemptAt)
                  && row'.status == (if row.attempts >= 9 then Dead else Pending)
                  && (row.attempts == 0 ==> row'.nextAttemptAt == env.now + 200)
                  && (row.attempts == 1 ==> row'.nextAttemptAt == env.now + 400)
                  && (row.attempts == 2 ==> row'.nextAttemptAt == env.now + 800)
                  && (row.attempts == 3 ==> row'.nextAttemptAt == env.now + 1_600)
                  && (row.attempts == 4 ==> row'.nextAttemptAt == env.now + 3_200)
                  && (row.attempts == 5 ==> row'.nextAttemptAt == env.now + 6_400)
                  && (row.attempts == 6 ==> row'.nextAttemptAt == env.now + 12_800)
                  && (row.attempts == 7 ==> row'.nextAttemptAt == env.now + 25_600)
                  && (row.attempts >= 8 ==> row'.nextAttemptAt == env.now + 30_000))
            && (Escapes(env) <==> !works && !env.record.Works?)
  {
    BackoffDelays(row.attempts + 1);
  }

  /** What the catch branch's update does to the row, its failed count included. */
  lemma CaughtRow(s: State, s': State, row: OutboxRow, env: RowEnv)
    requires s.clock == env.now && !Succeeds(env) && !env.record.Throws?
    requires row.id in s.outbox && s.outbox[row.id] == WhenCaught(row, env) && FailureRecorded(s, s', row)
    ensures s'.outbox == s.outbox[row.id := Handled(row, env)]
  {
  }

  /** The last write of a row, from the catch branch on. */
  lemma RecordNext(s: State, row: OutboxRow, env: RowEnv)
    requires s.clock == env.now && !Succeeds(env) && s.phase.Failing? && s.phase.rest != [] && s.phase.rest[0] == row
    requires row.id in s.outbox && s.outbox[row.id] == WhenCaught(row, env)
    ensures var s' := Next(s, RecordStepOf(env));
            && s'.events == s.events && s'.running == s.running && s'.ticks == s.ticks && s'.server == s.server
            && s'.outbox == s.outbox[row.id := Handled(row, env)]
            && s'.phase == if Escapes(env) then Idle else Working(s.phase.rest[1..])
  {
    if env.record.Throws? {
      assert s.outbox[row.id := s.outbox[row.id]] == s.outbox;
    } else {
      RecordEffect(s);
      CaughtRow(s, Next(s, Record), row, env);
    }
  }

  lemma {:induction false} RecordRun(s: State, row: OutboxRow, env: RowEnv)
    requires s.clock == env.now && !Succeeds(env) && s.phase.Failing? && s.phase.rest != [] && s.phase.rest[0] == row
    requires row.id in s.outbox && s.outbox[row.id] == WhenCaught(row, env)
    ensures ValidRun(s, [RecordStepOf(env)])
    ensures var s' := Run(s, [RecordStepOf(env)]);
            && s'.events == s.events && s'.running == s.running && s'.ticks == s.ticks && s'.server == s.server
            && s'.outbox == s.outbox[row.id := Handled(row, env)]
            && s'.phase == if Escapes(env) then Idle else Working(s.phase.rest[1..])
  {
    RunOne(s, RecordStepOf(env));
    RecordNext(s, row, env);
  }

  lemma {:induction false} WriteRun(s: State, row: OutboxRow, env: RowEnv)
    requires s.clock == env.now && row.id in s.outbox && s.outbox[row.id] == row
    requires if env.publish.Accepted? then s.phase.Marking? else s.phase.Failing?
    requires s.phase.rest != [] && s.phase.rest[0] == row
    ensures ValidRun(s, WriteSteps(env))
    ensures var s' := Run(s, WriteSteps(env));
            && s'.events == s.events && s'.running == s.running && s'.ticks == s.ticks && s'.server == s.server
            && s'.outbox == s.outbox[row.id := Handled(row, env)]
            && s'.phase == if Escapes(env) then Idle else Working(s.phase.rest[1..])
  {
    if Succeeds(env) {
      RunOne(s, Mark);
    } else if env.publish.Accepted? {
      var lost := MarkThrows(env.mark.WorksThenThrows?);
      var s1 := Next(s, lost);
      assert s1.outbox == s.outbox[row.id := WhenCaught(row, env)];
      RecordRun(s1, row, env);
      RunCons(s, lost, [RecordStepOf(env)]);
      assert WriteSteps(env) == [lost] + [RecordStepOf(env)];
    } else {
      RecordRun(s, row, env);
    }
  }

  /** The steps one row takes, and where they lead. */
  lemma {:induction false} RowRun(s: State, row: OutboxRow, env: RowEnv)
    requires s.phase.Working? && s.phase.rest != [] && s.phase.rest[0] == row
    requires row.id in s.outbox && s.outbox[row.id] == row
    ensures ValidRun(s, RowSteps(env))
    ensures var s' := Run(s, RowSteps(env));
            && s'.events == s.events && s'.running == s.running && s'.ticks == s.ticks
            && s'.outbox == s.outbox[row.id := Handled(row, env)]
            && s'.server == (if env.publish.Refused? then s.server else s.server + [Delivery(row.id, row.event)])
            && s'.phase == if Escapes(env) then Idle else Working(s.phase.rest[1..])
  {
    var calls := [Publish(env.publish), Advance(env.now)];
    RunTwo(s, Publish(env.publish), Advance(env.now));
    WriteRun(Run(s, calls), row, env);
    RunConcat(s, calls, WriteSteps(env));
  }

  /** The first `reached` rows were taken in hand; only the last of them can have let a write escape. */
  predicate StoppedAt(rows: seq<OutboxRow>, envs: nat -> RowEnv, reached: nat, threw: bool) {
    && reached <= |rows|
    && (if threw then reached > 0 && Escapes(envs(reached - 1)) else reached == |rows|)
    && (forall j :: 0 <= j < (if threw then reached - 1 else reached) ==> !Escapes(envs(j)))
  }

  /** The table after the first `i` rows of a batch were handled in turn. */
  function After(t: Table, rows: seq<OutboxRow>, envs: nat -> RowEnv, i: nat): Table
    requires i <= |rows|
  {
    if i == 0 then t else After(t, rows, envs, i - 1)[rows[i - 1].id := Handled(rows[i - 1], envs(i - 1))]
  }

  /** The first `i` rows of the batch are handled; every other row of the table is untouched. */
  ghost predicate AfterRows(t0: Table, t: Table, rows: seq<OutboxRow>, envs: nat -> RowEnv, i: nat) {
    && i <= |rows|
    && t.Keys == t0.Keys
    && (forall j :: 0 <= j < |rows| ==> rows[j].id in t && t[rows[j].id] == if j < i then Handled(rows[j], envs(j)) else rows[j])
    && (forall id :: id in t && (forall r :: r in rows ==> r.id != id) ==> t[id] == t0[id])
  }

  lemma {:induction false} AfterAt(t: Table, rows: seq<OutboxRow>, envs: nat -> RowEnv, i: nat, j: nat)
    requires i <= |rows| && j < |rows| && DistinctIds(rows) && rows[j].id in t && t[rows[j].id] == rows[j]
    ensures rows[j].id in After(t, rows, envs, i)
    ensures After(t, rows, envs, i)[rows[j].id] == if j < i then Handled(rows[j], envs(j)) else rows[j]
  {
    if i > 0 {
      AfterAt(t, rows, envs, i - 1, j);
      assert i - 1 != j ==> rows[i - 1].id != rows[j].id;
    }
  }

  lemma {:induction false} AfterElsewhere(t: Table, rows: seq<OutboxRow>, envs: nat -> RowEnv, i: nat, id: Id)
    requires i <= |rows| && forall r :: r in rows ==> r.id != id
    ensures id in After(t, rows, envs, i) <==> id in t
    ensures id in t ==> After(t, rows, envs, i)[id] == t[id]
  {
    if i > 0 {
      AfterElsewhere(t, rows, envs, i - 1, id);
      assert rows[i - 1] in rows;
    }
  }

  /** Handling the rows of a due batch in turn changes each of them once and nothing else. */
  lemma {:induction false} AfterIsPointwise(t: Table, now: int, rows: seq<OutboxRow>, envs: nat -> RowEnv, i: nat)
    requires IsDueBatch(t, now, rows) && i <= |rows|
    ensures AfterRows(t, After(t, rows, envs, i), rows, envs, i)
  {
    var t' := After(t, rows, envs, i);
    forall j | 0 <= j < |rows|
      ensures rows[j].id in t && rows[j].id in t' && t'[rows[j].id] == if j < i then Handled(rows[j], envs(j)) else rows[j]
    {
      assert rows[j] in rows;
      AfterAt(t, rows, envs, i, j);
    }
    forall id: Id | forall r :: r in rows ==> r.id != id ensures (id in t' <==> id in t) && (id in t ==> t'[id] == t[id]) {
      AfterElsewhere(t, rows, envs, i, id);
    }
  }

  lemma {:induction false} FetchRun(s: State, now: int, rows: seq<OutboxRow>)
    requires s.running && s.phase.Idle? && IsDueBatch(s.outbox, now, rows)
    ensures ValidRun(s, [Advance(now), TickBegin(rows)])
    ensures Run(s, [Advance(now), TickBegin(rows)]) == s.(clock := now, phase := Working(rows))
  {
    RunTwo(s, Advance(now), TickBegin(rows));
  }

  class EventOutboxRelayService {
    const db: Database
    const streams: StreamServer
    var running: bool
    var inFlight: bool
    var failed: bool

    /** The service's fields and the server's log are those of the traced state. */
    ghost predicate Agrees()
      reads this, db, streams
    {
      db.Valid() && streams.log == db.State().server && running == db.State().running
    }

    ghost predicate Valid()
      reads this, db, streams
    {
      Agrees() && inFlight == !db.State().phase.Idle?
    }

    constructor (db: Database, streams: StreamServer)
      requires db.Valid() && streams.log == db.State().server
      requires !db.State().running && db.State().phase.Idle?
      ensures Valid() && this.db == db && this.streams == streams && !running
    {
      this.db, this.streams := db, streams;
      running, inFlight, failed := false, false, false;
    }

    /** Starting twice is the same as starting once. */
    method StartRelay()
      requires Valid()
      modifies this, db
      ensures Valid() && running && inFlight == old(inFlight)
      ensures db.trace == if old(running) then old(db.trace) else old(db.trace) + [Start]
    {
      if running { return; }
      running := true;
      RunOne(db.State(), Start);
      db.Took([Start]);
    }

    /**
     * Publish, then mark; a failure of either is recorded against the fetched copy. Says what the row
     * becomes, that no other row changes, and which steps the pipeline took.
     */
    method ProcessRow(row: OutboxRow, env: RowEnv) returns (threw: bool)
      requires Agrees() && db.State().phase.Working? && db.State().phase.rest != [] && db.State().phase.rest[0] == row
      modifies db, streams
      ensures Agrees() && db.trace == old(db.trace) + RowSteps(env)
      ensures db.State().phase == if threw then Idle else Working(old(db.State().phase.rest)[1..])
      ensures threw == Escapes(env)
      ensures db.eventOutbox == old(db.eventOutbox)[row.id := Handled(row, env)]
      ensures streams.log == if env.publish.Refused? then old(streams.log) else old(streams.log) + [Delivery(row.id, row.event)]
      ensures db.State().ticks == old(db.State().ticks)
    {
      InTable(row);
      RowRun(db.State(), row, env);
      var ok := streams.Publish(Delivery(row.id, row.event), env.publish);
      if ok && !env.mark.Throws? {
        db.eventOutbox := db.eventOutbox[row.id := db.eventOutbox[row.id].(status := Published, publishedAt := Some(env.now))];
      }
      threw := false;
      if !ok || !env.mark.Works? {
        threw := RecordFailureOf(row, env);
      }
      assert db.eventOutbox == old(db.eventOutbox)[row.id := Handled(row, env)];
      db.Took(RowSteps(env));
    }

    lemma InTable(row: OutboxRow)
      requires Agrees() && db.State().phase.Working? && db.State().phase.rest != [] && db.State().phase.rest[0] == row
      ensures row.id in db.eventOutbox && db.eventOutbox[row.id] == row
    {
      RunKeeps(Init(db.origin), db.trace);
      InHandCurrent(db.State());
    }

    /** The catch branch's update: the counter comes from the fetched copy, the rest of the row from the table. */
    method RecordFailureOf(row: OutboxRow, env: RowEnv) returns (threw: bool)
      modifies db`eventOutbox
      ensures threw == !env.record.Works?
      ensures db.eventOutbox == if env.record.Throws? then old(db.eventOutbox) else RecordFailure(old(db.eventOutbox), row, env.now)
    {
      var nextAttempts := row.attempts + 1;
      var isDead := nextAttempts >= MAX_ATTEMPTS;
      var backoff := Min(MAX_BACKOFF_MS, BASE_BACKOFF_MS * Pow2(Min(nextAttempts, 10)));
      var nextAt := env.now + backoff;
      if !env.record.Throws? && row.id in db.eventOutbox {
        db.eventOutbox := db.eventOutbox[row.id := db.eventOutbox[row.id].(status := if isDead then Dead else Pending,
                                                                           attempts := nextAttempts, nextAttemptAt := nextAt)];
      }
      threw := !env.record.Works?;
    }

    /**
     * One poll. A tick that is not running or overlaps another does nothing; otherwise it fetches a due batch
     * and handles the rows in order, stopping at the first write that escapes. Every row it reached has been
     * handled once, the last of them possibly halfway, every row it did not reach is as before, and a completed
     * tick is counted.
     */
    method Tick(now: int, envs: nat -> RowEnv) returns (ghost batch: seq<OutboxRow>, ghost reached: nat)
      requires Valid()
      modifies this, db, streams
      ensures Valid() && running == old(running)
      ensures !old(running) || old(inFlight) ==>
                batch == [] && db.trace == old(db.trace) && db.eventOutbox == old(db.eventOutbox)
      ensures old(running) && !old(inFlight) ==>
                && !inFlight
                && IsDueBatch(old(db.eventOutbox), now, batch) && StoppedAt(batch, envs, reached, failed)
                && AfterRows(old(db.eventOutbox), db.eventOutbox, batch, envs, reached)
                && db.State().ticks == old(db.State().ticks) + if failed then 0 else 1
    {
      if !running || inFlight { return [], 0; }
      inFlight := true;
      var rows := Fetch(now);
      batch := rows;
      failed, reached := ProcessRows(rows, envs);
      AfterIsPointwise(old(db.eventOutbox), now, rows, envs, reached);
      if !failed { EndTick(); }
      inFlight := false;
    }

    method EndTick()
      requires Agrees() && db.State().phase == Working([])
      modifies db
      ensures Agrees() && db.State().phase.Idle? && db.eventOutbox == old(db.eventOutbox)
      ensures db.State().ticks == old(db.State().ticks) + 1
    {
      RunOne(db.State(), TickEnd);
      db.Took([TickEnd]);
    }

    /** The loop of a tick. */
    method ProcessRows(rows: seq<OutboxRow>, envs: nat -> RowEnv) returns (threw: bool, ghost reached: nat)
      requires Agrees() && db.State().phase == Working(rows)
      modifies db, streams
      ensures Agrees() && db.State().ticks == old(db.State().ticks)
      ensures StoppedAt(rows, envs, reached, threw)
      ensures db.eventOutbox == After(old(db.eventOutbox), rows, envs, reached)
      ensures db.State().phase == if threw then Idle else Working([])
    {
      threw := false;
      var i := 0;
      while i < |rows| && !threw
        invariant 0 <= i <= |rows| && Agrees()
        invariant db.State().ticks == old(db.State().ticks)
        invariant db.State().phase == if threw then Idle else Working(rows[i..])
        invariant threw ==> i > 0 && Escapes(envs(i - 1))
        invariant forall j :: 0 <= j < (if threw then i - 1 else i) ==> !Escapes(envs(j))
        invariant db.eventOutbox == After(old(db.eventOutbox), rows, envs, i)
      {
        assert rows[i..][1..] == rows[i + 1..];
        threw := ProcessRow(rows[i], envs(i));
        i := i + 1;
      }
      reached := i;
      assert rows[|rows|..] == [];
    }

    lemma IdsAreKeys()
      requires Agrees()
      ensures forall id :: id in db.eventOutbox ==> db.eventOutbox[id].id == id
    {
      RunKeeps(Init(db.origin), db.trace);
    }

    /** The poll's query, at the start of a tick. */
    method Fetch(now: int) returns (rows: seq<OutboxRow>)
      requires Agrees() && running && db.State().phase.Idle?
      modifies db
      ensures Agrees() && db.State().phase == Working(rows) && db.State().ticks == old(db.State().ticks)
      ensures db.eventOutbox == old(db.eventOutbox) && IsDueBatch(db.eventOutbox, now, rows)
    {
      IdsAreKeys();
      rows := db.SelectDue(now);
      FetchRun(db.State(), now, rows);
      db.Took([Advance(now), TickBegin(rows)]);
    }

    /** In every state the services can bring about, a committed event is in the real outbox or in the real log. */
    lemma ServicesLoseNothing(id: Id)
      requires Agrees() && id in db.State().committed
      ensures || (id in db.eventOutbox && db.eventOutbox[id].status != Published && db.eventOutbox[id].event == db.State().committed[id])
              || Delivery(id, db.State().committed[id]) in streams.log
    {
      RunKeeps(Init(db.origin), db.trace);
      assert Held(db.State(), id) || Delivered(db.State(), id);
    }

    /** Deletes published rows older than the retention period, and only those. */
    method TrimPublished(now: int)
      requires Valid()
      modifies db
      ensures Valid()
      ensures forall id :: id in old(db.eventOutbox) ==>
                var row := old(db.eventOutbox)[id];
                (id !in db.eventOutbox <==> (row.status == Published && row.publishedAt.Some? && row.publishedAt.value < now - 1_800_000))
      ensures forall id :: id in db.eventOutbox ==> id in old(db.eventOutbox) && db.eventOutbox[id] == old(db.eventOutbox)[id]
    {
      db.eventOutbox := Trim(db.eventOutbox, now);
      ghost var s := db.State();
      RunTwo(s, Advance(now), Step.TrimPublished);
      db.Took([Advance(now), Step.TrimPublished]);
    }
  }
}
