/** The database and the stream server as the services see them, tied to the step system by a ghost trace. */
module Storage {
  import opened Common
  import opened SessionEvents
  import opened Outbox
  import opened Pipeline

  /** Two tables. `trace` lists the steps of the pipeline taken so far by all services on this database. */
  class Database {
    var sessionEvents: seq<EventRow>
    var eventOutbox: Table
    ghost var trace: seq<Step>
    ghost const origin: int

    ghost function State(): State
      reads this
      requires ValidRun(Init(origin), trace)
    {
      Run(Init(origin), trace)
    }

    /** The tables are what the traced steps produce. */
    ghost predicate Valid()
      reads this
    {
      && ValidRun(Init(origin), trace)
      && State().events == sessionEvents
      && State().outbox == eventOutbox
    }

    constructor (now: int)
      ensures Valid() && trace == [] && origin == now && sessionEvents == [] && eventOutbox == map[]
    {
      sessionEvents, eventOutbox, trace, origin := [], map[], [], now;
    }

    /** Records steps after their effect on the tables took place. */
    ghost method Took(steps: seq<Step>)
      requires ValidRun(Init(origin), trace) && ValidRun(State(), steps)
      requires sessionEvents == Run(State(), steps).events && eventOutbox == Run(State(), steps).outbox
      modifies this`trace
      ensures Valid() && trace == old(trace) + steps && State() == Run(old(State()), steps)
    {
      RunConcat(Init(origin), trace, steps);
      trace := trace + steps;
    }

    /** INSERT … RETURNING offset: the offset is computed by the statement itself. */
    method InsertSessionEvent(e: Event, id: string, fault: Fault, now: Stamp) returns (r: Result<nat, Fault>)
      modifies this`sessionEvents
      ensures r.Ok? <==> fault == NoFault && !HasId(old(sessionEvents), id)
      ensures r.Ok? ==> r.value == NextOffset(old(sessionEvents), e.streamId)
                        && sessionEvents == old(sessionEvents) + [NewRow(old(sessionEvents), e, id, now)]
      ensures r.Ok? <==> fault == NoFault && forall row :: row in old(sessionEvents) ==> row.id != id
      ensures r.Ok? ==>
                && sessionEvents == old(sessionEvents) + [EventRow(id, e, r.value, now)]
                && (forall row :: row in old(sessionEvents) && row.event.streamId == e.streamId ==> row.offset < r.value)
                && (r.value == 0 || exists row :: row in old(sessionEvents) && row.event.streamId == e.streamId && row.offset == r.value - 1)
      ensures r.Err? ==> sessionEvents == old(sessionEvents)
                         && r.error == if fault == OtherFailure then OtherFailure else UniqueViolation
    {
      if fault != NoFault { return Err(fault); }
      if exists i :: 0 <= i < |sessionEvents| && sessionEvents[i].id == id {
        return Err(UniqueViolation);
      }
      var row := NewRow(sessionEvents, e, id, now);
      sessionEvents := sessionEvents + [row];
      r := Ok(row.offset);
    }

    /** DELETE FROM session_events WHERE session_id IN (…): the rows of whole streams go, all others stay in order. */
    method DeleteStreams(streams: set<string>)
      requires Valid()
      modifies this
      ensures Valid() && eventOutbox == old(eventOutbox) && sessionEvents == Filter(old(sessionEvents), OffStreams(streams))
      ensures forall r :: r in sessionEvents <==> r in old(sessionEvents) && r.event.streamId !in streams
      ensures trace == old(trace) + [Step.DeleteStreams(streams)]
    {
      forall r: EventRow { FilterMembers(sessionEvents, OffStreams(streams), r); }
      sessionEvents := Filter(sessionEvents, OffStreams(streams));
      RunOne(State(), Step.DeleteStreams(streams));
      Took([Step.DeleteStreams(streams)]);
    }

    /** The relay's SELECT: repeatedly the earliest remaining due row. */
    method SelectDue(now: int) returns (batch: seq<OutboxRow>)
      requires forall id :: id in eventOutbox ==> eventOutbox[id].id == id
      ensures IsDueBatch(eventOutbox, now, batch)
      ensures |batch| <= 100
      ensures forall r :: r in batch ==> r.id in eventOutbox && eventOutbox[r.id] == r && r.status == Pending && r.nextAttemptAt <= now
      ensures forall i, j :: 0 <= i < j < |batch| ==> batch[i].id != batch[j].id && batch[i].nextAttemptAt <= batch[j].nextAttemptAt
      ensures forall id :: id in eventOutbox && eventOutbox[id].status == Pending && eventOutbox[id].nextAttemptAt <= now
                           && eventOutbox[id] !in batch ==>
                |batch| == 100 && forall r :: r in batch ==> r.nextAttemptAt <= eventOutbox[id].nextAttemptAt
    {
      var t := eventOutbox;
      var left := DueIds(t, now);
      batch := [];
      while left != {} && |batch| < BATCH_SIZE
        invariant |batch| <= BATCH_SIZE && Selected(t, now, batch, left)
        decreases left
      {
        var id := Earliest(t, left);
        SelectOne(t, now, batch, left, id);
        batch := batch + [t[id]];
        left := left - {id};
      }
      SelectionIsDueBatch(t, now, batch, left);
    }

    method Earliest(t: Table, ids: set<Id>) returns (id: Id)
      requires ids != {} && ids <= t.Keys
      ensures id in ids && forall j :: j in ids ==> t[id].nextAttemptAt <= t[j].nextAttemptAt
    {
      EarliestExists(t, ids);
      id :| id in ids && forall j :: j in ids ==> t[id].nextAttemptAt <= t[j].nextAttemptAt;
    }
  }

  /** `batch` holds due rows in order, and nothing in `left`, the due rows not taken yet, is earlier. */
  ghost predicate Selected(t: Table, now: int, batch: seq<OutboxRow>, left: set<Id>) {
    && (forall id :: id in t ==> t[id].id == id)
    && left <= DueIds(t, now)
    && DistinctIds(batch)
    && (forall r :: r in batch ==> r.id in t && t[r.id] == r && Due(r, now) && r.id !in left)
    && (forall id :: id in DueIds(t, now) ==> id in left || t[id] in batch)
    && (forall i, j :: 0 <= i < j < |batch| ==> batch[i].nextAttemptAt <= batch[j].nextAttemptAt)
    && (forall r, id :: r in batch && id in left ==> r.nextAttemptAt <= t[id].nextAttemptAt)
  }

  lemma SelectionIsDueBatch(t: Table, now: int, batch: seq<OutboxRow>, left: set<Id>)
    requires Selected(t, now, batch, left) && |batch| <= BATCH_SIZE
    requires left == {} || |batch| == BATCH_SIZE
    ensures IsDueBatch(t, now, batch)
  {
    forall id | id in t && Due(t[id], now) && t[id] !in batch
      ensures |batch| == BATCH_SIZE && forall r :: r in batch ==> r.nextAttemptAt <= t[id].nextAttemptAt
    {
      assert id in DueIds(t, now);
    }
  }

  lemma SelectOne(t: Table, now: int, batch: seq<OutboxRow>, left: set<Id>, id: Id)
    requires Selected(t, now, batch, left) && id in left
    requires forall j :: j in left ==> t[id].nextAttemptAt <= t[j].nextAttemptAt
    ensures Selected(t, now, batch + [t[id]], left - {id})
  {
    var batch' := batch + [t[id]];
    assert forall r :: r in batch' <==> r in batch || r == t[id];
    forall i, j | 0 <= i < j < |batch'|
      ensures batch'[i].nextAttemptAt <= batch'[j].nextAttemptAt && batch'[i].id != batch'[j].id
    {
      assert batch'[i] in batch;
    }
  }

  lemma EarliestExists(t: Table, ids: set<Id>)
    requires ids != {} && ids <= t.Keys
    ensures exists id :: id in ids && forall j :: j in ids ==> t[id].nextAttemptAt <= t[j].nextAttemptAt
  {
    var x :| x in ids;
    if ids != {x} {
      EarliestExists(t, ids - {x});
      var y :| y in ids - {x} && forall j :: j in ids - {x} ==> t[y].nextAttemptAt <= t[j].nextAttemptAt;
      var best := if t[x].nextAttemptAt <= t[y].nextAttemptAt then x else y;
      assert best in ids && forall j :: j in ids ==> t[best].nextAttemptAt <= t[j].nextAttemptAt;
    } else {
      assert x in ids && forall j :: j in ids ==> t[x].nextAttemptAt <= t[j].nextAttemptAt;
    }
  }

  /** The append-only server; the outcome of each call is up to the network. */
  class StreamServer {
    var log: seq<Delivery>

    constructor ()
      ensures log == []
    {
      log := [];
    }

    method Publish(d: Delivery, outcome: PublishOutcome) returns (ok: bool)
      modifies this
      ensures ok == outcome.Accepted?
      ensures log == if outcome.Refused? then old(log) else old(log) + [d]
    {
      if !outcome.Refused? { log := log + [d]; }
      ok := outcome.Accepted?;
    }
  }
}
