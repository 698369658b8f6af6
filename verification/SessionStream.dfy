/** The session stream service: a second producer of event rows, with or without live delivery. */
module SessionStream {
  import opened Common
  import opened SessionEvents
  import opened Outbox
  import opened Pipeline
  import opened Storage

  /** One attempt only: whatever fails ends it. */
  function OnlyAttempt(fault: Fault): seq<Fault> {
    [fault, OtherFailure, OtherFailure]
  }

  lemma {:induction false} OneAttempt(events: seq<EventRow>, e: Event, eventId: string, fault: Fault, now: Stamp)
    ensures Persist(events, e, eventId, OnlyAttempt(fault), now, 0)
            == if fault != NoFault || HasId(events, eventId) then None else Some(NewRow(events, e, eventId, now))
  {
    assert Persist(events, e, eventId, OnlyAttempt(fault), now, 1) == None;
  }

  /** The step of the pipeline one call takes. A later statement that fails takes the insert back. */
  function StepOf(e: Event, eventId: string, fault: Fault, enqueue: bool, outboxId: Id, laterFails: bool): Step {
    if enqueue then Commit(Request(e, eventId, OnlyAttempt(fault), Iso, outboxId, laterFails))
    else PersistOnly(e, eventId, if laterFails then OtherFailure else fault)
  }

  /** What the call does to both tables. */
  lemma StepEffect(s: State, e: Event, eventId: string, fault: Fault, enqueue: bool, outboxId: Id, laterFails: bool)
    requires outboxId !in s.committed
    ensures var step := StepOf(e, eventId, fault, enqueue, outboxId, laterFails);
            && Enabled(s, step)
            && var s' := Next(s, step);
               if fault != NoFault || HasId(s.events, eventId) || laterFails then s'.events == s.events && s'.outbox == s.outbox
               else
                 && s'.events == s.events + [NewRow(s.events, e, eventId, Stamp(s.clock, Iso))]
                 && s'.outbox == if enqueue then s.outbox[outboxId := Enqueued(outboxId, e, s.clock)] else s.outbox
  {
    if enqueue { OneAttempt(s.events, e, eventId, fault, Stamp(s.clock, Iso)); }
  }

  class SessionStreamService {
    const db: Database
    const streams: StreamServer

    constructor (db: Database, streams: StreamServer)
      ensures this.db == db && this.streams == streams
    {
      this.db, this.streams := db, streams;
    }

    /**
     * The transaction: the event row, then the session summary, and on request the outbox row. All of it takes
     * effect or nothing does; the caller gets the event's offset; the pipeline has taken exactly one step.
     */
    method PersistEventInternal(e: Event, eventId: string, fault: Fault, enqueue: bool, outboxId: Id, laterFails: bool, now: int)
      returns (r: Result<nat, Fault>)
      requires db.Valid() && outboxId !in db.State().committed
      modifies db
      ensures db.Valid() && db.trace == old(db.trace) + [Advance(now), StepOf(e, eventId, fault, enqueue, outboxId, laterFails)]
      ensures r.Ok? <==> fault == NoFault && !HasId(old(db.sessionEvents), eventId) && !laterFails
      ensures r.Ok? ==>
                && r.value == NextOffset(old(db.sessionEvents), e.streamId)
                && db.sessionEvents == old(db.sessionEvents) + [EventRow(eventId, e, r.value, Stamp(now, Iso))]
                && db.eventOutbox == if enqueue then old(db.eventOutbox)[outboxId := OutboxRow(outboxId, e, Pending, 0, now, None)] else old(db.eventOutbox)
      ensures r.Err? ==> db.sessionEvents == old(db.sessionEvents) && db.eventOutbox == old(db.eventOutbox)
    {
      ghost var s, step := db.State(), StepOf(e, eventId, fault, enqueue, outboxId, laterFails);
      StepEffect(Next(s, Advance(now)), e, eventId, fault, enqueue, outboxId, laterFails);
      RunTwo(s, Advance(now), step);
      var savedEvents := db.sessionEvents;
      r := db.InsertSessionEvent(e, eventId, fault, Stamp(now, Iso));
      if r.Ok? {
        if laterFails {
          db.sessionEvents := savedEvents;
          r := Err(OtherFailure);
        } else if enqueue {
          db.eventOutbox := db.eventOutbox[outboxId := Enqueued(outboxId, e, now)];
        }
      }
      db.Took([Advance(now), step]);
    }

    /** A direct publication: nothing is persisted, and nothing but the log can change. */
    method PublishRealtimeOnly(e: Event, outcome: PublishOutcome) returns (ok: bool)
      requires db.Valid() && streams.log == db.State().server
      modifies db, streams
      ensures db.Valid() && streams.log == db.State().server
      ensures db.trace == old(db.trace) + [PublishDirect(e, outcome)]
      ensures db.sessionEvents == old(db.sessionEvents) && db.eventOutbox == old(db.eventOutbox)
      ensures ok == outcome.Accepted? && streams.log == if outcome.Refused? then old(streams.log) else old(streams.log) + [Direct(e)]
    {
      RunOne(db.State(), PublishDirect(e, outcome));
      ok := streams.Publish(Direct(e), outcome);
      db.Took([PublishDirect(e, outcome)]);
    }
  }
}
