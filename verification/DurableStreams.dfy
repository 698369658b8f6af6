/** The producer side: one transaction that appends the event and enqueues its delivery. */
module DurableStreams {
  import opened Common
  import opened SessionEvents
  import opened Outbox
  import opened Pipeline
  import opened Storage

  /** The two tables after a commit, by the attempt that inserts. */
  lemma {:induction false} CommitRun(s: State, req: Request, now: int)
    requires |req.faults| == MAX_RETRIES && req.outboxId !in s.committed
    ensures ValidRun(s, [Advance(now), Commit(req)])
    ensures var s' := Run(s, [Advance(now), Commit(req)]);
            && (req.enqueueFails || (forall k: nat :: !Inserts(s.events, req.eventId, req.faults, k)) ==>
                  s'.events == s.events && s'.outbox == s.outbox)
            && (forall k: nat :: Inserts(s.events, req.eventId, req.faults, k) && !req.enqueueFails ==>
                  && s'.events == s.events + [NewRow(s.events, req.event, RetryId(req.eventId, k), Stamp(now, req.format))]
                  && s'.outbox == s.outbox[req.outboxId := Enqueued(req.outboxId, req.event, now)])
  {
    RunTwo(s, Advance(now), Commit(req));
    PersistInserts(s.events, req.event, req.eventId, req.faults, Stamp(now, req.format));
  }

  class DurableStreamsService {
    const db: Database

    constructor (db: Database)
      ensures this.db == db
    {
      this.db := db;
    }

    /** The retry loop: at most three ids are tried, and only unique violations are retried. */
    method PersistToDb(e: Event, eventId: string, faults: seq<Fault>, now: Stamp) returns (r: Result<nat, Fault>)
      requires |faults| == MAX_RETRIES
      modifies db`sessionEvents
      ensures r.Ok? <==> exists k: nat :: Inserts(old(db.sessionEvents), eventId, faults, k)
      ensures r.Ok? ==> r.value == NextOffset(old(db.sessionEvents), e.streamId)
      ensures forall k: nat :: Inserts(old(db.sessionEvents), eventId, faults, k) ==>
                db.sessionEvents == old(db.sessionEvents) + [NewRow(old(db.sessionEvents), e, RetryId(eventId, k), now)]
      ensures r.Err? ==> db.sessionEvents == old(db.sessionEvents)
    {
      var attempt := 0;
      while attempt < MAX_RETRIES
        invariant 0 <= attempt < MAX_RETRIES
        invariant db.sessionEvents == old(db.sessionEvents)
        invariant forall j :: 0 <= j < attempt ==> InsertFails(db.sessionEvents, eventId, faults, j) && faults[j] != OtherFailure
      {
        r := db.InsertSessionEvent(e, RetryId(eventId, attempt), faults[attempt], now);
        if r.Ok? {
          assert Inserts(old(db.sessionEvents), eventId, faults, attempt);
          return;
        }
        if r.error != UniqueViolation || attempt == MAX_RETRIES - 1 {
          return;
        }
        attempt := attempt + 1;
      }
      assert false;
      r := Err(OtherFailure);
    }

    /**
     * The transaction. Both tables gain their row or neither changes; the caller gets the offset of the
     * event, and the pipeline has taken exactly one commit step.
     */
    method PersistToDbAndOutbox(req: Request, now: int) returns (r: Result<nat, Fault>)
      requires db.Valid() && |req.faults| == MAX_RETRIES && req.outboxId !in db.State().committed
      modifies db
      ensures db.Valid() && db.trace == old(db.trace) + [Advance(now), Commit(req)]
      ensures r.Ok? <==> !req.enqueueFails && exists k: nat :: Inserts(old(db.sessionEvents), req.eventId, req.faults, k)
      ensures r.Ok? ==>
                && r.value == NextOffset(old(db.sessionEvents), req.event.streamId)
                && |db.sessionEvents| == |old(db.sessionEvents)| + 1 && old(db.sessionEvents) <= db.sessionEvents
                && db.sessionEvents[|old(db.sessionEvents)|].event == req.event
                && db.sessionEvents[|old(db.sessionEvents)|].offset == r.value
                && db.sessionEvents[|old(db.sessionEvents)|].createdAt == Stamp(now, req.format)
                && db.eventOutbox == old(db.eventOutbox)[req.outboxId := OutboxRow(req.outboxId, req.event, Pending, 0, now, None)]
      ensures r.Err? ==> db.sessionEvents == old(db.sessionEvents) && db.eventOutbox == old(db.eventOutbox)
    {
      var savedEvents := db.sessionEvents;
      CommitRun(db.State(), req, now);
      r := PersistToDb(req.event, req.eventId, req.faults, Stamp(now, req.format));
      if r.Ok? {
        if req.enqueueFails {
          db.sessionEvents := savedEvents;
          r := Err(OtherFailure);
        } else {
          db.eventOutbox := db.eventOutbox[req.outboxId := Enqueued(req.outboxId, req.event, now)];
        }
      }
      db.Took([Advance(now), Commit(req)]);
    }
  }
}
