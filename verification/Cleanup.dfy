/** Retention of `session_events`: deletion in batches, and exactly which rows it takes. */
module Cleanup {
  import opened Common
  import opened SessionEvents
  import opened Pipeline
  import opened Offsets
  import opened Storage
  import opened Timestamps

  const DELETE_BATCH := 1000

  ghost predicate UniqueIds(events: seq<EventRow>) {
    forall i, j :: 0 <= i < j < |events| ==> events[i].id != events[j].id
  }

  function Keep(dialect: Dialect, cutoff: int): EventRow -> bool {
    (r: EventRow) => !SortsBefore(dialect, r.createdAt, cutoff)
  }

  function OldIds(events: seq<EventRow>, dialect: Dialect, cutoff: int): set<string> {
    set r | r in events && SortsBefore(dialect, r.createdAt, cutoff) :: r.id
  }

  /**
   * A row is deleted although it is no older than the cutoff exactly on SQLite, if its time was written by the
   * column's default, and on the cutoff's own UTC day; so never more than a day early, and every row older than the
   * cutoff does expire.
   */
  lemma DeletedEarlyIff(dialect: Dialect, createdAt: Stamp, cutoff: int)
    ensures SortsBefore(dialect, createdAt, cutoff) && createdAt.at >= cutoff
            <==> dialect == Sqlite && createdAt.format == ColumnDefault && cutoff <= createdAt.at < (cutoff / DAY_MS + 1) * DAY_MS
    ensures SortsBefore(dialect, createdAt, cutoff) ==> createdAt.at < cutoff + DAY_MS
    ensures createdAt.at < cutoff ==> SortsBefore(dialect, createdAt, cutoff)
  {
    var day := cutoff / DAY_MS;
    assert day * DAY_MS <= cutoff < (day + 1) * DAY_MS;
    assert createdAt.at / DAY_MS <= day <==> createdAt.at < (day + 1) * DAY_MS;
  }

  /** 9 January 2024, 23:00 and 00:30. */
  const EVENING := 19_731 * DAY_MS + 23 * HOUR_MS
  const MORNING := 19_731 * DAY_MS + HOUR_MS / 2

  /** With the morning as cutoff, SQLite takes the row of that evening for older, if it carries the column's default. */
  lemma EveningSortsBeforeMorning()
    ensures SortsBefore(Sqlite, Stamp(EVENING, ColumnDefault), MORNING) && !SortsBefore(Sqlite, Stamp(EVENING, Iso), MORNING)
    ensures forall format :: !SortsBefore(Postgres, Stamp(EVENING, format), MORNING)
  {
    assert EVENING / DAY_MS == 19_731 && MORNING / DAY_MS == 19_731;
  }

  /** The text the column's default gives that evening, and the cutoff's. */
  lemma SameDayTexts()
    ensures TextLess("2024-01-09" + " 23:00:00", "2024-01-09" + "T00:30:00.000Z")
  {
    TextLessConcat("2024-01-09", "2024-01-09", " 23:00:00", "T00:30:00.000Z");
  }

  /** An ISO text of that evening. */
  lemma SameDayIsoTexts()
    ensures !TextLess("2024-01-09T" + "23:00:00.000Z", "2024-01-09T" + "00:30:00.000Z")
  {
    TextLessConcat("2024-01-09T", "2024-01-09T", "23:00:00.000Z", "00:30:00.000Z");
    TextLessIrreflexive("2024-01-09T");
  }

  /** Publish one event, wait, and let retention delete it. */
  function WriteAndExpire(e: Event, dialect: Dialect, cutoff: int, now: int): seq<Step> {
    [Commit(Request(e, "a", [NoFault, NoFault, NoFault], ColumnDefault, 0, false))] + [Advance(now), Step.Cleanup(dialect, cutoff, {"a"})]
  }

  /** The run is possible: the row is there after the first step, and gone at the end, at `now`. */
  predicate WritesAndLoses(e: Event, dialect: Dialect, created: int, cutoff: int, now: int) {
    var s0, steps := Init(created), WriteAndExpire(e, dialect, cutoff, now);
    && ValidRun(s0, steps)
    && Next(s0, steps[0]).events == [EventRow("a", e, 0, Stamp(created, ColumnDefault))]
    && Run(s0, steps).events == [] && Run(s0, steps).clock == now
  }

  lemma {:induction false} OnlyRowExpires(s: State, row: EventRow, dialect: Dialect, cutoff: int, now: int)
    requires s.events == [row] && SortsBefore(dialect, row.createdAt, cutoff) && cutoff < now
    ensures var steps := [Advance(now), Step.Cleanup(dialect, cutoff, {row.id})];
            ValidRun(s, steps) && Run(s, steps).events == [] && Run(s, steps).clock == now
  {
    ExpireAll(Next(s, Advance(now)), row, dialect, cutoff);
    RunTwo(s, Advance(now), Step.Cleanup(dialect, cutoff, {row.id}));
  }

  lemma WrittenRowExpires(e: Event, dialect: Dialect, created: int, cutoff: int, now: int)
    requires SortsBefore(dialect, Stamp(created, ColumnDefault), cutoff) && cutoff < now
    ensures WritesAndLoses(e, dialect, created, cutoff, now)
  {
    var write := WriteAndExpire(e, dialect, cutoff, now)[0];
    FirstOffset(Init(created), write.req);
    OnlyRowExpires(Next(Init(created), write), EventRow("a", e, 0, Stamp(created, ColumnDefault)), dialect, cutoff, now);
    RunCons(Init(created), write, [Advance(now), Step.Cleanup(dialect, cutoff, {"a"})]);
  }

  /** With a retention of one day, SQLite can delete a row an hour and a half after it was written. */
  lemma YoungRowDeleted(e: Event)
    ensures MORNING + DAY_MS == EVENING + 3 * HOUR_MS / 2
    ensures WritesAndLoses(e, Sqlite, EVENING, MORNING, MORNING + DAY_MS)
  {
    EveningSortsBeforeMorning();
    WrittenRowExpires(e, Sqlite, EVENING, MORNING, MORNING + DAY_MS);
  }

  lemma {:induction false} FilterKeepsUnique(events: seq<EventRow>, p: EventRow -> bool)
    requires UniqueIds(events)
    ensures UniqueIds(Filter(events, p))
  {
    if events != [] {
      var n := |events| - 1;
      FilterKeepsUnique(events[..n], p);
      forall r | r in Filter(events[..n], p) ensures r.id != events[n].id {
        FilterMembers(events[..n], p, r);
        assert exists i :: 0 <= i < n && events[i] == r;
      }
    }
  }

  lemma InsertKeepsUniqueIds(s: State, step: Step)
    requires UniqueIds(s.events) && Enabled(s, step) && Inserting(step)
    ensures UniqueIds(Next(s, step).events)
  {
    InsertAppends(s, step);
    var s' := Next(s, step);
    if s' != s {
      forall i | 0 <= i < |s.events| ensures s.events[i].id != s'.events[|s.events|].id {
        assert s.events[i] in s.events;
      }
    }
  }

  lemma StepKeepsUniqueIds(s: State, step: Step)
    requires UniqueIds(s.events) && Enabled(s, step)
    ensures UniqueIds(Next(s, step).events)
  {
    if Inserting(step) {
      InsertKeepsUniqueIds(s, step);
    } else if Deletes(step) {
      FilterKeepsUnique(s.events, Remains(step));
    } else {
      OtherStepsKeepEvents(s, step);
    }
  }

  /** The table's primary key holds in every reachable state. */
  lemma {:induction false} RunKeepsUniqueIds(s: State, steps: seq<Step>)
    requires UniqueIds(s.events) && ValidRun(s, steps)
    ensures UniqueIds(Run(s, steps).events)
    decreases |steps|
  {
    if steps != [] {
      StepKeepsUniqueIds(s, steps[0]);
      RunKeepsUniqueIds(Next(s, steps[0]), steps[1..]);
    }
  }

  /** With unique ids, deleting by id removes one row per id. */
  lemma {:induction false} FilterCount(events: seq<EventRow>, victims: set<string>)
    requires UniqueIds(events) && forall id :: id in victims ==> HasId(events, id)
    ensures |Filter(events, Surviving(victims))| == |events| - |victims|
  {
    if events == [] {
      forall id ensures id !in victims {
        assert !HasId(events, id);
      }
      assert victims == {};
    } else {
      var n := |events| - 1;
      var last := events[n];
      var rest := victims - {last.id};
      forall id | id in rest ensures HasId(events[..n], id) {
        var r :| r in events && r.id == id;
        assert r in events[..n];
      }
      FilterCount(events[..n], rest);
      FilterAgrees(events[..n], victims, rest, last.id);
    }
  }

  lemma {:induction false} FilterAgrees(events: seq<EventRow>, a: set<string>, b: set<string>, id: string)
    requires a - {id} == b - {id} && forall i :: 0 <= i < |events| ==> events[i].id != id
    ensures Filter(events, Surviving(a)) == Filter(events, Surviving(b))
  {
    if events != [] {
      FilterAgrees(events[..|events| - 1], a, b, id);
      var x := events[|events| - 1].id;
      assert (x in a <==> x in a - {id}) && (x in b <==> x in b - {id});
    }
  }

  /** Deleting old rows in two rounds deletes the same rows as in one. */
  lemma {:induction false} FilterThenKeep(events: seq<EventRow>, victims: set<string>, dialect: Dialect, cutoff: int)
    requires forall r :: r in events && r.id in victims ==> SortsBefore(dialect, r.createdAt, cutoff)
    ensures Filter(Filter(events, Surviving(victims)), Keep(dialect, cutoff)) == Filter(events, Keep(dialect, cutoff))
  {
    if events != [] {
      var n := |events| - 1;
      assert events == events[..n] + [events[n]];
      FilterThenKeep(events[..n], victims, dialect, cutoff);
      var f := Filter(events[..n], Surviving(victims));
      if events[n].id !in victims {
        FilterSnoc(f, events[n], Keep(dialect, cutoff));
      }
    }
  }

  lemma {:induction false} KeepAll(events: seq<EventRow>, dialect: Dialect, cutoff: int)
    requires OldIds(events, dialect, cutoff) == {}
    ensures Filter(events, Keep(dialect, cutoff)) == events
  {
    if events != [] {
      var n := |events| - 1;
      assert events == events[..n] + [events[n]];
      forall r ensures r in events ==> !SortsBefore(dialect, r.createdAt, cutoff) {
        assert r in events && SortsBefore(dialect, r.createdAt, cutoff) ==> r.id in OldIds(events, dialect, cutoff);
      }
      assert OldIds(events[..n], dialect, cutoff) == {};
      KeepAll(events[..n], dialect, cutoff);
    }
  }

  /** What a row must be to survive a complete pass. */
  predicate Survives(r: EventRow, dialect: Dialect, cutoff: int) {
    match dialect
    case Postgres => cutoff <= r.createdAt.at
    case Sqlite =>
      match r.createdAt.format
      case ColumnDefault => cutoff / DAY_MS < r.createdAt.at / DAY_MS
      case Iso => cutoff <= r.createdAt.at
  }

  lemma {:induction false} Survivors(events: seq<EventRow>, dialect: Dialect, cutoff: int)
    ensures forall r :: r in events ==> (r in Filter(events, Keep(dialect, cutoff)) <==> Survives(r, dialect, cutoff))
  {
    forall r: EventRow { FilterMembers(events, Keep(dialect, cutoff), r); }
  }

  /** If only expired rows were deleted, none was deleted more than a day early. */
  lemma {:induction false} YoungRowsStay(events: seq<EventRow>, events': seq<EventRow>, dialect: Dialect, cutoff: int)
    requires Filter(events', Keep(dialect, cutoff)) == Filter(events, Keep(dialect, cutoff))
    ensures forall r :: r in events && r !in events' ==> r.createdAt.at < cutoff + DAY_MS
  {
    forall r | r in events && r !in events' ensures r.createdAt.at < cutoff + DAY_MS {
      FilterMembers(events, Keep(dialect, cutoff), r);
      FilterMembers(events', Keep(dialect, cutoff), r);
      DeletedEarlyIff(dialect, r.createdAt, cutoff);
    }
  }

  lemma SubsetOfSize(ids: set<string>, n: nat)
    requires n <= |ids|
    ensures exists sub :: sub <= ids && |sub| == n
  {
    if n == |ids| {
      assert ids <= ids;
    } else {
      var x :| x in ids;
      SubsetOfSize(ids - {x}, n);
      var sub :| sub <= ids - {x} && |sub| == n;
      assert sub <= ids;
    }
  }

  class EventCleanupService {
    const db: Database
    const dialect: Dialect

    constructor (db: Database, dialect: Dialect)
      ensures this.db == db && this.dialect == dialect
    {
      this.db, this.dialect := db, dialect;
    }

    /** One DELETE … WHERE id IN (SELECT … LIMIT 1000): which old rows go first is up to the database. */
    method DeleteSome(cutoff: int) returns (deleted: nat)
      requires db.Valid() && cutoff < db.State().clock
      modifies db
      ensures db.Valid() && db.eventOutbox == old(db.eventOutbox) && db.State().clock == old(db.State().clock)
      ensures deleted == Min(1000, |OldIds(old(db.sessionEvents), dialect, cutoff)|)
      ensures deleted == |old(db.sessionEvents)| - |db.sessionEvents|
      ensures Filter(db.sessionEvents, Keep(dialect, cutoff)) == Filter(old(db.sessionEvents), Keep(dialect, cutoff))
      ensures forall r :: r in db.sessionEvents ==> r in old(db.sessionEvents)
      ensures deleted < DELETE_BATCH ==> OldIds(db.sessionEvents, dialect, cutoff) == {}
    {
      var events := db.sessionEvents;
      var ids := OldIds(events, dialect, cutoff);
      deleted := Min(DELETE_BATCH, |ids|);
      SubsetOfSize(ids, deleted);
      var victims: set<string> :| victims <= ids && |victims| == deleted;
      db.sessionEvents := Filter(events, Surviving(victims));
      ghost var s := db.State();
      if deleted == |ids| {
        assert |ids - victims| == |ids| - |victims|;
        assert victims == ids;
      }
      DeletionFacts(s, db.origin, db.trace, dialect, cutoff, victims);
      DeletionEffect(events, dialect, cutoff, victims);
      RunOne(s, Step.Cleanup(dialect, cutoff, victims));
      db.Took([Step.Cleanup(dialect, cutoff, victims)]);
    }

    /**
     * Deletes batch after batch until one comes back short or a statement fails. Rows that have not expired all
     * survive, in order; the count is exact; and after a pass in which no statement failed a row is left exactly
     * if it was created at or after the cutoff, or, on SQLite with the column's default, on a UTC day after its.
     */
    method BatchDelete(cutoff: int, fails: nat -> bool) returns (total: nat)
      requires db.Valid() && cutoff < db.State().clock
      modifies db
      ensures db.Valid() && db.eventOutbox == old(db.eventOutbox) && db.State().clock == old(db.State().clock)
      ensures total == |old(db.sessionEvents)| - |db.sessionEvents|
      ensures Filter(db.sessionEvents, Keep(dialect, cutoff)) == Filter(old(db.sessionEvents), Keep(dialect, cutoff))
      ensures forall r :: r in db.sessionEvents ==> r in old(db.sessionEvents)
      ensures (forall i: nat :: !fails(i)) ==>
                && db.sessionEvents == Filter(old(db.sessionEvents), Keep(dialect, cutoff))
                && forall r :: r in old(db.sessionEvents) ==> (r in db.sessionEvents <==> Survives(r, dialect, cutoff))
    {
      total := 0;
      var batchDeleted := DELETE_BATCH;
      var round := 0;
      var stopped := false;
      while batchDeleted >= DELETE_BATCH && !stopped
        invariant db.Valid() && db.eventOutbox == old(db.eventOutbox) && db.State().clock == old(db.State().clock)
        invariant total == |old(db.sessionEvents)| - |db.sessionEvents|
        invariant Filter(db.sessionEvents, Keep(dialect, cutoff)) == Filter(old(db.sessionEvents), Keep(dialect, cutoff))
        invariant forall r :: r in db.sessionEvents ==> r in old(db.sessionEvents)
        invariant batchDeleted < DELETE_BATCH ==> OldIds(db.sessionEvents, dialect, cutoff) == {}
        invariant stopped ==> exists i: nat :: fails(i)
        decreases |db.sessionEvents| + (if batchDeleted >= DELETE_BATCH then 1 else 0), !stopped
      {
        if fails(round) {
          stopped := true;
        } else {
          batchDeleted := DeleteSome(cutoff);
          total := total + batchDeleted;
          round := round + 1;
        }
      }
      if !stopped {
        KeepAll(db.sessionEvents, dialect, cutoff);
        Survivors(old(db.sessionEvents), dialect, cutoff);
      }
    }

    /**
     * One cycle on this table: the cutoff lies a positive number of days before now. A row younger than the
     * retention period less one day survives in any case.
     */
    method RunCleanup(now: int, retentionDays: nat, fails: nat -> bool) returns (deleted: nat)
      requires db.Valid() && retentionDays > 0
      modifies db
      ensures db.Valid() && db.eventOutbox == old(db.eventOutbox)
      ensures deleted == |old(db.sessionEvents)| - |db.sessionEvents|
      ensures var cutoff := now - retentionDays * DAY_MS;
              && Filter(db.sessionEvents, Keep(dialect, cutoff)) == Filter(old(db.sessionEvents), Keep(dialect, cutoff))
              && (forall r :: r in old(db.sessionEvents) && r !in db.sessionEvents ==> r.createdAt.at < cutoff + DAY_MS)
              && ((forall i: nat :: !fails(i)) ==>
                    && db.sessionEvents == Filter(old(db.sessionEvents), Keep(dialect, cutoff))
                    && forall r :: r in old(db.sessionEvents) ==> (r in db.sessionEvents <==> Survives(r, dialect, cutoff)))
    {
      ghost var s := db.State();
      RunOne(s, Advance(now));
      db.Took([Advance(now)]);
      var cutoff := now - retentionDays * DAY_MS;
      deleted := BatchDelete(cutoff, fails);
      YoungRowsStay(old(db.sessionEvents), db.sessionEvents, dialect, cutoff);
    }
  }

  /** With unique ids, the rows that share an id with an expired row have expired themselves. */
  lemma VictimsExpired(events: seq<EventRow>, dialect: Dialect, cutoff: int, victims: set<string>, r: EventRow)
    requires UniqueIds(events) && victims <= OldIds(events, dialect, cutoff) && r in events && r.id in victims
    ensures SortsBefore(dialect, r.createdAt, cutoff)
  {
    var q :| q in events && SortsBefore(dialect, q.createdAt, cutoff) && q.id == r.id;
    var i :| 0 <= i < |events| && events[i] == r;
    var j :| 0 <= j < |events| && events[j] == q;
    assert i == j;
  }

  /** What one delete statement does to the table. */
  lemma {:induction false} DeletionEffect(events: seq<EventRow>, dialect: Dialect, cutoff: int, victims: set<string>)
    requires UniqueIds(events) && victims <= OldIds(events, dialect, cutoff)
    ensures var events' := Filter(events, Surviving(victims));
            && |events'| == |events| - |victims|
            && Filter(events', Keep(dialect, cutoff)) == Filter(events, Keep(dialect, cutoff))
            && (forall r :: r in events' ==> r in events)
            && (victims == OldIds(events, dialect, cutoff) ==> OldIds(events', dialect, cutoff) == {})
  {
    forall r | r in events && r.id in victims ensures SortsBefore(dialect, r.createdAt, cutoff) {
      VictimsExpired(events, dialect, cutoff, victims, r);
    }
    FilterThenKeep(events, victims, dialect, cutoff);
    FilterCount(events, victims);
    forall r: EventRow { FilterMembers(events, Surviving(victims), r); }
  }

  lemma {:induction false} DeletionFacts(
    s: State, origin: int, trace: seq<Step>, dialect: Dialect, cutoff: int, victims: set<string>)
    requires ValidRun(Init(origin), trace) && s == Run(Init(origin), trace)
    requires victims <= OldIds(s.events, dialect, cutoff) && cutoff < s.clock
    ensures UniqueIds(s.events) && Enabled(s, Step.Cleanup(dialect, cutoff, victims))
    ensures Next(s, Step.Cleanup(dialect, cutoff, victims)) == s.(events := Filter(s.events, Surviving(victims)))
  {
    RunKeepsUniqueIds(Init(origin), trace);
    forall r | r in s.events && r.id in victims ensures SortsBefore(dialect, r.createdAt, cutoff) {
      VictimsExpired(s.events, dialect, cutoff, victims, r);
    }
  }
}
