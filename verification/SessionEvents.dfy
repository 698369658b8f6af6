/**
 * The `session_events` table: offset allocation on insert, and deletion of expired rows.
 * A table is the sequence of its surviving rows in commit order.
 */
module SessionEvents {
  import opened Common

  /** What a producer publishes: a payload of some event type on a stream. */
  datatype Event = Event(streamId: string, eventType: string, payload: string)

  /** How `created_at` is written: by the column's default, or by the service as an ISO text. */
  datatype Format = ColumnDefault | Iso

  datatype Stamp = Stamp(at: int, format: Format)

  datatype EventRow = EventRow(id: string, event: Event, offset: nat, createdAt: Stamp)

  /** What the environment does to one INSERT: nothing, a lost race on a unique index, or another failure. */
  datatype Fault = NoFault | UniqueViolation | OtherFailure

  const MAX_RETRIES := 3

  /** COALESCE(MAX(offset), -1) over the rows of one stream. */
  function MaxOffset(events: seq<EventRow>, stream: string): (m: int)
    ensures m >= -1
    ensures forall r :: r in events && r.event.streamId == stream ==> r.offset <= m
    ensures m == -1 || exists r :: r in events && r.event.streamId == stream && r.offset == m
  {
    if events == [] then -1
    else
      var n := |events| - 1;
      var m0 := MaxOffset(events[..n], stream);
      assert events == events[..n] + [events[n]];
      assert m0 == -1 || exists r :: r in events[..n] && r.event.streamId == stream && r.offset == m0;
      if events[n].event.streamId == stream then Max(m0, events[n].offset) else m0
  }

  function NextOffset(events: seq<EventRow>, stream: string): nat {
    MaxOffset(events, stream) + 1
  }

  predicate HasId(events: seq<EventRow>, id: string) {
    exists r :: r in events && r.id == id
  }

  /** The rows a deletion by id leaves. */
  function Surviving(victims: set<string>): EventRow -> bool {
    (r: EventRow) => r.id !in victims
  }

  /** The rows a deletion by stream leaves. */
  function OffStreams(streams: set<string>): EventRow -> bool {
    (r: EventRow) => r.event.streamId !in streams
  }

  datatype Dialect = Sqlite | Postgres

  /**
   * What `created_at < cutoff` says. PostgreSQL compares instants. SQLite compares texts: an ISO text with the ISO
   * cutoff, which compares instants too (`Timestamps.IsoOrderIsInstantOrder`), and the column's default, of another
   * shape, which comes down to comparing UTC days (`Timestamps.TextOrderIsDayOrder`).
   */
  predicate SortsBefore(dialect: Dialect, createdAt: Stamp, cutoff: int) {
    if dialect == Sqlite && createdAt.format == ColumnDefault then createdAt.at / DAY_MS <= cutoff / DAY_MS
    else createdAt.at < cutoff
  }

  /** The row id used on the given attempt: the event id, then a suffixed one. */
  function RetryId(eventId: string, attempt: nat): string
    requires attempt < MAX_RETRIES
  {
    if attempt == 0 then eventId else if attempt == 1 then eventId + "-r1" else eventId + "-r2"
  }

  predicate InsertFails(events: seq<EventRow>, eventId: string, faults: seq<Fault>, attempt: nat)
    requires |faults| == MAX_RETRIES && attempt < MAX_RETRIES
  {
    faults[attempt] != NoFault || HasId(events, RetryId(eventId, attempt))
  }

  /** Attempt `k` is the one that inserts: every earlier one met a unique violation. */
  predicate Inserts(events: seq<EventRow>, eventId: string, faults: seq<Fault>, k: nat)
    requires |faults| == MAX_RETRIES
  {
    && k < MAX_RETRIES
    && !InsertFails(events, eventId, faults, k)
    && forall j :: 0 <= j < k ==> InsertFails(events, eventId, faults, j) && faults[j] != OtherFailure
  }

  function NewRow(events: seq<EventRow>, e: Event, id: string, now: Stamp): EventRow {
    EventRow(id, e, NextOffset(events, e.streamId), now)
  }

  /** The outcome of the retry loop from a given attempt on: the inserted row, or nothing. */
  function Persist(events: seq<EventRow>, e: Event, eventId: string, faults: seq<Fault>, now: Stamp, attempt: nat)
    : (r: Option<EventRow>)
    requires |faults| == MAX_RETRIES && attempt < MAX_RETRIES
    decreases MAX_RETRIES - attempt
  {
    if faults[attempt] == OtherFailure then None
    else if !InsertFails(events, eventId, faults, attempt) then
      Some(NewRow(events, e, RetryId(eventId, attempt), now))
    else if attempt < MAX_RETRIES - 1 then
      Persist(events, e, eventId, faults, now, attempt + 1)
    else None
  }

  /** The loop inserts exactly when some attempt within the limit can, and it inserts at the first such attempt. */
  lemma {:induction false} PersistInserts(events: seq<EventRow>, e: Event, eventId: string, faults: seq<Fault>, now: Stamp)
    requires |faults| == MAX_RETRIES
    ensures Persist(events, e, eventId, faults, now, 0).None? <==> forall k: nat :: !Inserts(events, eventId, faults, k)
    ensures forall k: nat :: Inserts(events, eventId, faults, k) ==>
              Persist(events, e, eventId, faults, now, 0) == Some(NewRow(events, e, RetryId(eventId, k), now))
  {
    var p0, p1, p2 := Persist(events, e, eventId, faults, now, 0),
                      Persist(events, e, eventId, faults, now, 1),
                      Persist(events, e, eventId, faults, now, 2);
    if p0.Some? {
      var k := if !InsertFails(events, eventId, faults, 0) then 0
               else if !InsertFails(events, eventId, faults, 1) then 1 else 2;
      assert Inserts(events, eventId, faults, k);
    }
  }

  /** The id is free and the environment lets the insert through. */
  ghost predicate Free(events: seq<EventRow>, id: string, fault: Fault) {
    fault == NoFault && forall r :: r in events ==> r.id != id
  }

  /**
   * The three tries one by one: the event id, then with the suffixes "-r1" and "-r2", each after a unique violation
   * of the one before; the row goes behind the stream's highest offset.
   */
  lemma {:induction false} PersistTries(events: seq<EventRow>, e: Event, eventId: string, faults: seq<Fault>, now: Stamp)
    requires |faults| == MAX_RETRIES
    ensures var r := Persist(events, e, eventId, faults, now, 0);
            var free0, free1, free2 :=
              Free(events, eventId, faults[0]), Free(events, eventId + "-r1", faults[1]), Free(events, eventId + "-r2", faults[2]);
            var again0, again1 := !free0 && faults[0] != OtherFailure, !free1 && faults[1] != OtherFailure;
            && (r.Some? <==> free0 || (again0 && free1) || (again0 && again1 && free2))
            && (r.Some? ==>
                  && r.value.event == e && r.value.createdAt == now
                  && r.value.id == (if free0 then eventId else if free1 then eventId + "-r1" else eventId + "-r2")
                  && (forall row :: row in events && row.event.streamId == e.streamId ==> row.offset < r.value.offset)
                  && (r.value.offset == 0
                      || exists row :: row in events && row.event.streamId == e.streamId && row.offset == r.value.offset - 1))
  {
    var p1, p2 := Persist(events, e, eventId, faults, now, 1), Persist(events, e, eventId, faults, now, 2);
  }
}
