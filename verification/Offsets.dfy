/** Offset allocation over whole runs, with and without deletions. */
module Offsets {
  import opened Common
  import opened SessionEvents
  import opened Outbox
  import opened Pipeline
  import opened NoLoss

  function StreamLength(events: seq<EventRow>, stream: string): nat {
    Count(events, (r: EventRow) => r.event.streamId == stream)
  }

  ghost predicate Increasing(events: seq<EventRow>) {
    forall i, j :: 0 <= i < j < |events| && events[i].event.streamId == events[j].event.streamId ==>
      events[i].offset < events[j].offset
  }

  lemma {:induction false} FilterIsSubsequence(events: seq<EventRow>, p: EventRow -> bool)
    requires Increasing(events)
    ensures Increasing(Filter(events, p))
  {
    if events != [] {
      var n := |events| - 1;
      var init, last := events[..n], events[n];
      FilterIsSubsequence(init, p);
      forall r | r in Filter(init, p) && r.event.streamId == last.event.streamId ensures r.offset < last.offset {
        FilterMembers(init, p, r);
        assert exists i :: 0 <= i < n && events[i] == r;
      }
    }
  }

  lemma AppendKeepsIncreasing(events: seq<EventRow>, e: Event, id: string, now: Stamp)
    requires Increasing(events)
    ensures Increasing(events + [NewRow(events, e, id, now)])
  {
    var r := NewRow(events, e, id, now);
    forall i | 0 <= i < |events| && events[i].event.streamId == e.streamId ensures events[i].offset < r.offset {
      assert events[i] in events;
    }
  }

  /** Whatever attempt succeeds, the row it inserts takes the next free offset. */
  lemma {:induction false} PersistRow(events: seq<EventRow>, e: Event, eventId: string, faults: seq<Fault>, now: Stamp, attempt: nat)
    requires |faults| == MAX_RETRIES && attempt < MAX_RETRIES
    ensures var r := Persist(events, e, eventId, faults, now, attempt);
            r.Some? ==> r.value == NewRow(events, e, r.value.id, now) && !HasId(events, r.value.id)
    decreases MAX_RETRIES - attempt
  {
    if attempt < MAX_RETRIES - 1 { PersistRow(events, e, eventId, faults, now, attempt + 1); }
  }

  /** The steps that insert event rows. */
  predicate Inserting(step: Step) {
    step.Commit? || step.PersistOnly?
  }

  function EventOf(step: Step): Event
    requires Inserting(step)
  {
    if step.Commit? then step.req.event else step.event
  }

  function StampOf(s: State, step: Step): Stamp
    requires Inserting(step)
  {
    Stamp(s.clock, if step.Commit? then step.req.format else Iso)
  }

  /** The outbox row that goes with the event row. */
  function OutboxIdOf(step: Step): Option<Id>
    requires Inserting(step)
  {
    if step.Commit? then Some(step.req.outboxId) else None
  }

  /** One row more, at the next offset, with a fresh id; a commit also registers its event. */
  predicate Appended(s: State, s': State, step: Step)
    requires Inserting(step)
  {
    && |s'.events| == |s.events| + 1
    && s'.events == s.events + [NewRow(s.events, EventOf(step), s'.events[|s.events|].id, StampOf(s, step))]
    && !HasId(s.events, s'.events[|s.events|].id)
    && s'.issued == s.issued + [Issue(EventOf(step).streamId, NextOffset(s.events, EventOf(step).streamId))]
    && s'.committed == (if step.Commit? then s.committed[step.req.outboxId := step.req.event] else s.committed)
    && s'.origin == s.origin[s'.events[|s.events|].id := OutboxIdOf(step)]
  }

  lemma CommitAppends(s: State, req: Request)
    requires Enabled(s, Commit(req))
    ensures CommitStep(s, req) == s || Appended(s, CommitStep(s, req), Commit(req))
  {
    PersistRow(s.events, req.event, req.eventId, req.faults, Stamp(s.clock, req.format), 0);
  }

  lemma PersistOnlyAppends(s: State, e: Event, eventId: string, fault: Fault)
    ensures var s' := PersistOnlyStep(s, e, eventId, fault); s' == s || Appended(s, s', PersistOnly(e, eventId, fault))
  {
  }

  /** An inserting step appends one row, or changes nothing. */
  lemma InsertAppends(s: State, step: Step)
    requires Enabled(s, step) && Inserting(step)
    ensures Next(s, step) == s || Appended(s, Next(s, step), step)
  {
    match step
    case Commit(req) => CommitAppends(s, req);
    case PersistOnly(e, eventId, fault) => PersistOnlyAppends(s, e, eventId, fault);
  }

  /** What only insertions and deletions change. */
  predicate SameEvents(s: State, s': State) {
    s'.events == s.events && s'.issued == s.issued && s'.committed == s.committed && s'.origin == s.origin
  }

  lemma RecordKeepsEvents(s: State)
    requires s.phase.Failing? && s.phase.rest != []
    ensures SameEvents(s, RecordStep(s)) && SameEvents(s, RecordStep(s).(phase := Idle))
  {
    var row := s.phase.rest[0];
    var s' := Failed(s, row);
    assert SameEvents(s, s');
    assert row.id in s.outbox ==> RecordStep(s) == s';
  }

  lemma OtherStepsKeepEvents(s: State, step: Step)
    requires Enabled(s, step) && !Inserting(step) && !Deletes(step)
    ensures SameEvents(s, Next(s, step))
  {
    match step
    case Record => RecordKeepsEvents(s);
    case RecordThrows(_) => RecordKeepsEvents(s);
    case _ =>
  }

  // ---------------------------------------------------------------- uniqueness

  lemma StepKeepsIncreasing(s: State, step: Step)
    requires Increasing(s.events) && Enabled(s, step)
    ensures Increasing(Next(s, step).events)
  {
    if Inserting(step) {
      InsertAppends(s, step);
      if Next(s, step) != s {
        AppendKeepsIncreasing(s.events, EventOf(step), Next(s, step).events[|s.events|].id, StampOf(s, step));
      }
    } else if Deletes(step) {
      FilterIsSubsequence(s.events, Remains(step));
    } else {
      OtherStepsKeepEvents(s, step);
    }
  }

  lemma {:induction false} RunKeepsIncreasing(s: State, steps: seq<Step>)
    requires Increasing(s.events) && ValidRun(s, steps)
    ensures Increasing(Run(s, steps).events)
    decreases |steps|
  {
    if steps != [] {
      StepKeepsIncreasing(s, steps[0]);
      RunKeepsIncreasing(Next(s, steps[0]), steps[1..]);
    }
  }

  /** Two surviving rows of one stream never share an offset, and table order is offset order. */
  lemma {:induction false} OffsetsAreUnique(t: int, steps: seq<Step>, i: nat, j: nat)
    requires ValidRun(Init(t), steps) && i < j < |Run(Init(t), steps).events|
    ensures var events := Run(Init(t), steps).events;
            events[i].event.streamId == events[j].event.streamId ==> events[i].offset < events[j].offset
  {
    RunKeepsIncreasing(Init(t), steps);
  }

  // ---------------------------------------------------------------- without deletions: 0, 1, 2, …

  ghost predicate NoDeletion(steps: seq<Step>) {
    forall step :: step in steps ==> !Deletes(step)
  }

  /** The row at each position carries the number of earlier rows of its stream. */
  ghost predicate Dense(events: seq<EventRow>) {
    forall j :: 0 <= j < |events| ==> events[j].offset == StreamLength(events[..j], events[j].event.streamId)
  }

  lemma {:induction false} DenseNext(events: seq<EventRow>, stream: string)
    requires Dense(events)
    ensures NextOffset(events, stream) == StreamLength(events, stream)
  {
    if events != [] {
      var n := |events| - 1;
      forall j | 0 <= j < n ensures events[..n][j].offset == StreamLength(events[..n][..j], events[..n][j].event.streamId) {
        assert events[..n][..j] == events[..j];
      }
      DenseNext(events[..n], stream);
    }
  }

  lemma AppendKeepsDense(events: seq<EventRow>, r: EventRow)
    requires Dense(events) && r.offset == NextOffset(events, r.event.streamId)
    ensures Dense(events + [r])
  {
    DenseNext(events, r.event.streamId);
    forall j | 0 <= j < |events| + 1
      ensures (events + [r])[j].offset == StreamLength((events + [r])[..j], (events + [r])[j].event.streamId)
    {
      assert (events + [r])[..j] == events[..j];
      if j == |events| { assert events[..j] == events; }
    }
  }

  lemma {:induction false} RunKeepsDense(s: State, steps: seq<Step>)
    requires Dense(s.events) && ValidRun(s, steps) && NoDeletion(steps)
    ensures Dense(Run(s, steps).events) && s.events <= Run(s, steps).events
    decreases |steps|
  {
    if steps != [] {
      var s' := Next(s, steps[0]);
      if Inserting(steps[0]) {
        InsertAppends(s, steps[0]);
        if s' != s { AppendKeepsDense(s.events, s'.events[|s.events|]); }
      } else {
        OtherStepsKeepEvents(s, steps[0]);
      }
      RunKeepsDense(s', steps[1..]);
    }
  }

  /**
   * While nothing was deleted, every row's offset is the number of rows its stream had before it,
   * and so is the offset the next publish will return.
   */
  lemma {:induction false} OffsetsCountEvents(t: int, steps: seq<Step>, stream: string)
    requires ValidRun(Init(t), steps) && NoDeletion(steps)
    ensures var events := Run(Init(t), steps).events;
            && Dense(events)
            && NextOffset(events, stream) == StreamLength(events, stream)
  {
    RunKeepsDense(Init(t), steps);
    DenseNext(Run(Init(t), steps).events, stream);
  }

  // ---------------------------------------------------------------- with deletions

  function HighestIssued(issued: seq<Issue>, stream: string): (h: int)
    ensures h >= -1
    ensures forall x :: x in issued && x.stream == stream ==> x.offset <= h
    ensures h >= 0 ==> exists x :: x in issued && x.stream == stream && x.offset == h
  {
    if issued == [] then -1
    else
      var n := |issued| - 1;
      var h := HighestIssued(issued[..n], stream);
      assert issued == issued[..n] + [issued[n]];
      assert h >= 0 ==> exists x :: x in issued[..n] && x.stream == stream && x.offset == h;
      if issued[n].stream == stream then Max(h, issued[n].offset) else h
  }

  lemma {:induction false} HighestSnoc(issued: seq<Issue>, x: Issue, stream: string)
    ensures HighestIssued(issued + [x], stream)
            == if x.stream == stream then Max(HighestIssued(issued, stream), x.offset) else HighestIssued(issued, stream)
  {
    assert (issued + [x])[..|issued|] == issued;
  }

  ghost predicate RowsWereIssued(s: State) {
    forall r :: r in s.events ==> Issue(r.event.streamId, r.offset) in s.issued
  }

  /** A deleting step leaves exactly the rows its statement does not name. */
  lemma DeletionMembers(s: State, step: Step)
    requires Enabled(s, step) && Deletes(step)
    ensures Next(s, step) == s.(events := Filter(s.events, Remains(step)))
    ensures forall r :: r in Next(s, step).events <==> r in s.events && Remains(step)(r)
  {
    forall r: EventRow {
      FilterMembers(s.events, Remains(step), r);
    }
  }

  lemma InsertKeepsIssued(s: State, step: Step)
    requires RowsWereIssued(s) && Enabled(s, step) && Inserting(step)
    ensures RowsWereIssued(Next(s, step))
  {
    InsertAppends(s, step);
  }

  lemma StepKeepsIssued(s: State, step: Step)
    requires RowsWereIssued(s) && Enabled(s, step)
    ensures RowsWereIssued(Next(s, step))
  {
    if Inserting(step) {
      InsertKeepsIssued(s, step);
    } else if Deletes(step) {
      DeletionMembers(s, step);
    } else {
      OtherStepsKeepEvents(s, step);
    }
  }

  lemma {:induction false} RunKeepsIssued(s: State, steps: seq<Step>)
    requires RowsWereIssued(s) && ValidRun(s, steps)
    ensures RowsWereIssued(Run(s, steps))
    decreases |steps|
  {
    if steps != [] {
      StepKeepsIssued(s, steps[0]);
      RunKeepsIssued(Next(s, steps[0]), steps[1..]);
    }
  }

  /** The row that holds the highest offset ever issued on a stream is still there. */
  ghost predicate NewestSurvives(s: State, stream: string) {
    exists r :: r in s.events && r.event.streamId == stream && r.offset == HighestIssued(s.issued, stream)
  }

  /**
   * Exactly when deletions are harmless: in every reachable state, the next offset of a stream is above all
   * offsets ever issued on it if and only if the stream is new or its newest row survives.
   */
  lemma {:induction false} FreshOffsetIff(t: int, steps: seq<Step>, stream: string)
    requires ValidRun(Init(t), steps)
    ensures var s := Run(Init(t), steps);
            NextOffset(s.events, stream) > HighestIssued(s.issued, stream)
            <==> HighestIssued(s.issued, stream) == -1 || NewestSurvives(s, stream)
  {
    RunKeepsIssued(Init(t), steps);
    var s := Run(Init(t), steps);
    var m := MaxOffset(s.events, stream);
    if m >= 0 {
      var r :| r in s.events && r.event.streamId == stream && r.offset == m;
      assert Issue(stream, r.offset) in s.issued;
    }
  }

  // ---------------------------------------------------------------- when an offset is handed out twice

  /**
   * A deletion that takes the stream's newest surviving row, by retention or with the whole stream. The deleting
   * service could see this coming.
   */
  ghost predicate DropsNewest(s: State, step: Step, stream: string) {
    Deletes(step) && exists r :: r in s.events && r.event.streamId == stream && !Remains(step)(r) && r.offset == MaxOffset(s.events, stream)
  }

  /** An insertion that succeeds in appending to the stream. */
  ghost predicate Appends(s: State, step: Step, stream: string)
    requires Enabled(s, step)
  {
    Inserting(step) && EventOf(step).streamId == stream && |Next(s, step).events| > |s.events|
  }

  /** Somewhere in the run an append follows a deletion of the stream's newest row. */
  ghost predicate AppendsAfterDrop(s: State, steps: seq<Step>, stream: string, dropped: bool)
    requires ValidRun(s, steps)
    decreases |steps|
  {
    steps != [] &&
    var s' := Next(s, steps[0]);
    || (dropped && Appends(s, steps[0], stream))
    || AppendsAfterDrop(s', steps[1..], stream, dropped || DropsNewest(s, steps[0], stream))
  }

  ghost predicate IncreasingIssues(issued: seq<Issue>, stream: string) {
    forall i, j :: 0 <= i < j < |issued| && issued[i].stream == stream && issued[j].stream == stream ==> issued[i].offset < issued[j].offset
  }

  ghost predicate IssuedTwice(issued: seq<Issue>, stream: string) {
    exists i, j :: 0 <= i < j < |issued| && issued[i].stream == stream && issued[i] == issued[j]
  }

  ghost predicate NoGaps(issued: seq<Issue>, stream: string) {
    forall o: nat :: o <= HighestIssued(issued, stream) ==> Issue(stream, o) in issued
  }

  /** Up to the first deletion of the newest row the table knows the highest offset issued; after it, not. */
  ghost predicate Knows(s: State, stream: string, dropped: bool) {
    && RowsWereIssued(s) && Increasing(s.events) && NoGaps(s.issued, stream)
    && var max, highest := MaxOffset(s.events, stream), HighestIssued(s.issued, stream);
       if dropped then max < highest else max == highest && IncreasingIssues(s.issued, stream)
  }

  lemma {:induction false} MaxOffsetSnoc(events: seq<EventRow>, r: EventRow, stream: string)
    ensures MaxOffset(events + [r], stream)
            == if r.event.streamId == stream then Max(MaxOffset(events, stream), r.offset) else MaxOffset(events, stream)
  {
    assert (events + [r])[..|events|] == events;
  }

  lemma {:induction false} MaxOffsetShrinks(s: State, step: Step, stream: string)
    requires Enabled(s, step) && Deletes(step)
    ensures MaxOffset(Next(s, step).events, stream) <= MaxOffset(s.events, stream)
  {
    DeletionMembers(s, step);
  }

  lemma {:induction false} NewestKept(s: State, step: Step, stream: string)
    requires Enabled(s, step) && Deletes(step) && !DropsNewest(s, step, stream)
    ensures MaxOffset(Next(s, step).events, stream) == MaxOffset(s.events, stream)
  {
    DeletionMembers(s, step);
    MaxOffsetShrinks(s, step, stream);
    if MaxOffset(s.events, stream) >= 0 {
      var r :| r in s.events && r.event.streamId == stream && r.offset == MaxOffset(s.events, stream);
      assert r in Next(s, step).events;
    }
  }

  lemma OnlyOneNewest(events: seq<EventRow>, r: EventRow, q: EventRow)
    requires Increasing(events) && r in events && q in events && q.event.streamId == r.event.streamId && q != r
    ensures q.offset != r.offset
  {
    var i :| 0 <= i < |events| && events[i] == r;
    var j :| 0 <= j < |events| && events[j] == q;
    assert i != j;
  }

  lemma {:induction false} NewestDropped(s: State, step: Step, stream: string)
    requires Increasing(s.events) && Enabled(s, step) && DropsNewest(s, step, stream)
    ensures MaxOffset(Next(s, step).events, stream) < MaxOffset(s.events, stream)
  {
    var max, left := MaxOffset(s.events, stream), Next(s, step).events;
    DeletionMembers(s, step);
    var r :| r in s.events && r.event.streamId == stream && !Remains(step)(r) && r.offset == max;
    forall q | q in left && q.event.streamId == stream ensures q.offset < max {
      OnlyOneNewest(s.events, r, q);
    }
  }

  lemma {:induction false} NextIssue(issued: seq<Issue>, x: Issue, stream: string)
    requires NoGaps(issued, stream) && (x.stream == stream ==> x.offset <= HighestIssued(issued, stream) + 1)
    ensures NoGaps(issued + [x], stream)
    ensures IncreasingIssues(issued, stream) && (x.stream == stream ==> x.offset > HighestIssued(issued, stream)) ==>
              IncreasingIssues(issued + [x], stream)
    ensures x.stream == stream && x.offset <= HighestIssued(issued, stream) ==> IssuedTwice(issued + [x], stream)
  {
    HighestSnoc(issued, x, stream);
    var all := issued + [x];
    forall o: nat | o <= HighestIssued(all, stream) ensures Issue(stream, o) in all {
      assert o <= HighestIssued(issued, stream) || Issue(stream, o) == all[|issued|];
    }
    forall i | 0 <= i < |issued| && issued[i].stream == stream ensures issued[i].offset <= HighestIssued(issued, stream) {
      assert issued[i] in issued;
    }
    if x.stream == stream && x.offset <= HighestIssued(issued, stream) {
      assert x in issued;
      var i :| 0 <= i < |issued| && issued[i] == x;
      assert all[i] == all[|issued|];
    }
  }

  lemma InsertKnows(s: State, step: Step, stream: string, dropped: bool)
    requires Knows(s, stream, dropped) && Enabled(s, step) && Inserting(step)
    ensures dropped && Appends(s, step, stream) ==> IssuedTwice(Next(s, step).issued, stream)
    ensures !(dropped && Appends(s, step, stream)) ==> Knows(Next(s, step), stream, dropped)
  {
    var s' := Next(s, step);
    InsertAppends(s, step);
    if s' != s {
      var row, x := s'.events[|s.events|], Issue(EventOf(step).streamId, NextOffset(s.events, EventOf(step).streamId));
      InsertKeepsIssued(s, step);
      AppendKeepsIncreasing(s.events, EventOf(step), row.id, StampOf(s, step));
      MaxOffsetSnoc(s.events, row, stream);
      HighestSnoc(s.issued, x, stream);
      NextIssue(s.issued, x, stream);
    }
  }

  lemma DeletionKnows(s: State, step: Step, stream: string, dropped: bool)
    requires Knows(s, stream, dropped) && Enabled(s, step) && Deletes(step)
    ensures Knows(Next(s, step), stream, dropped || DropsNewest(s, step, stream))
  {
    DeletionMembers(s, step);
    StepKeepsIssued(s, step);
    StepKeepsIncreasing(s, step);
    MaxOffsetShrinks(s, step, stream);
    if DropsNewest(s, step, stream) {
      NewestDropped(s, step, stream);
    } else {
      NewestKept(s, step, stream);
    }
  }

  lemma OtherStepsKnow(s: State, step: Step, stream: string, dropped: bool)
    requires Knows(s, stream, dropped) && Enabled(s, step) && !Inserting(step) && !Deletes(step)
    ensures Knows(Next(s, step), stream, dropped)
  {
    OtherStepsKeepEvents(s, step);
  }

  lemma IssuedGrowsStep(s: State, step: Step)
    requires Enabled(s, step)
    ensures s.issued <= Next(s, step).issued
  {
    if Inserting(step) {
      InsertAppends(s, step);
    } else if Deletes(step) {
      DeletionMembers(s, step);
    } else {
      OtherStepsKeepEvents(s, step);
    }
  }

  lemma {:induction false} IssuedTwiceForGood(s: State, steps: seq<Step>, stream: string)
    requires ValidRun(s, steps) && IssuedTwice(s.issued, stream)
    ensures IssuedTwice(Run(s, steps).issued, stream)
    decreases |steps|
  {
    if steps != [] {
      var s' := Next(s, steps[0]);
      IssuedGrowsStep(s, steps[0]);
      var i, j :| 0 <= i < j < |s.issued| && s.issued[i].stream == stream && s.issued[i] == s.issued[j];
      assert s'.issued[i] == s'.issued[j];
      IssuedTwiceForGood(s', steps[1..], stream);
    }
  }

  lemma KnowsStep(s: State, step: Step, stream: string, dropped: bool)
    requires Knows(s, stream, dropped) && Enabled(s, step)
    ensures dropped && Appends(s, step, stream) ==> IssuedTwice(Next(s, step).issued, stream)
    ensures !(dropped && Appends(s, step, stream)) ==> Knows(Next(s, step), stream, dropped || DropsNewest(s, step, stream))
  {
    if Inserting(step) {
      InsertKnows(s, step, stream, dropped);
    } else if Deletes(step) {
      DeletionKnows(s, step, stream, dropped);
    } else {
      OtherStepsKnow(s, step, stream, dropped);
    }
  }

  lemma {:induction false} RepeatsRun(s: State, steps: seq<Step>, stream: string, dropped: bool)
    requires Knows(s, stream, dropped) && ValidRun(s, steps) && IncreasingIssues(s.issued, stream)
    ensures if AppendsAfterDrop(s, steps, stream, dropped) then IssuedTwice(Run(s, steps).issued, stream)
            else IncreasingIssues(Run(s, steps).issued, stream)
    decreases |steps|
  {
    if steps != [] {
      var s', step := Next(s, steps[0]), steps[0];
      KnowsStep(s, step, stream, dropped);
      if dropped && Appends(s, step, stream) {
        IssuedTwiceForGood(s', steps[1..], stream);
      } else {
        IssuesUnchanged(s, step, stream, dropped);
        RepeatsRun(s', steps[1..], stream, dropped || DropsNewest(s, step, stream));
      }
    }
  }

  /** Once the newest row was dropped, only an append could issue anything on the stream. */
  lemma IssuesUnchanged(s: State, step: Step, stream: string, dropped: bool)
    requires Knows(s, stream, dropped) && Enabled(s, step) && !(dropped && Appends(s, step, stream))
    requires IncreasingIssues(s.issued, stream)
    ensures IncreasingIssues(Next(s, step).issued, stream)
  {
    if Inserting(step) {
      InsertAppends(s, step);
      if Next(s, step) != s {
        NextIssue(s.issued, Issue(EventOf(step).streamId, NextOffset(s.events, EventOf(step).streamId)), stream);
      }
    } else if !Deletes(step) {
      OtherStepsKeepEvents(s, step);
    }
  }

  /**
   * Exactly which runs hand an offset out twice: those in which an append to the stream follows a deletion of
   * its newest row. In all others the offsets issued on the stream strictly increase.
   */
  lemma {:induction false} OffsetsRepeatIff(t: int, steps: seq<Step>, stream: string)
    requires ValidRun(Init(t), steps)
    ensures var issued := Run(Init(t), steps).issued;
            if AppendsAfterDrop(Init(t), steps, stream, false) then IssuedTwice(issued, stream) else IncreasingIssues(issued, stream)
  {
    RepeatsRun(Init(t), steps, stream, false);
  }

  /** Publishing into an empty table issues offset 0. */
  lemma FirstOffset(s: State, req: Request)
    requires s.events == [] && req.faults == [NoFault, NoFault, NoFault] && !req.enqueueFails && req.outboxId !in s.committed
    ensures var s' := Next(s, Commit(req));
            && s'.events == [EventRow(req.eventId, req.event, 0, Stamp(s.clock, req.format))]
            && s'.issued == s.issued + [Issue(req.event.streamId, 0)]
            && s'.committed == s.committed[req.outboxId := req.event] && s'.clock == s.clock
  {
    assert !InsertFails([], req.eventId, req.faults, 0);
  }

  lemma ExpireAll(s: State, row: EventRow, dialect: Dialect, cutoff: int)
    requires s.events == [row] && SortsBefore(dialect, row.createdAt, cutoff) && cutoff < s.clock
    ensures var step := Step.Cleanup(dialect, cutoff, {row.id});
            Enabled(s, step) && Next(s, step) == s.(events := [])
  {
    var p := Surviving({row.id});
    assert [row][..0] == [] && Filter<EventRow>([], p) == [];
    assert Filter([row], p) == [];
  }

  /** A run of two days with a retention of one: publish, expire everything, publish again. */
  lemma OffsetsCanRepeat(dialect: Dialect, format: Format, e: Event)
    ensures exists steps :: ValidRun(Init(0), steps) &&
              Run(Init(0), steps).issued == [Issue(e.streamId, 0), Issue(e.streamId, 0)]
  {
    var ok := [NoFault, NoFault, NoFault];
    var first, second := Request(e, "a", ok, format, 0, false), Request(e, "b", ok, format, 1, false);
    var wait, expire := Advance(2 * DAY_MS), Step.Cleanup(dialect, DAY_MS, {"a"});
    FirstOffset(Init(0), first);
    var s1 := Next(Init(0), Commit(first));
    var s2 := Next(s1, wait);
    ExpireAll(s2, EventRow("a", e, 0, Stamp(0, format)), dialect, DAY_MS);
    var s3 := Next(s2, expire);
    FirstOffset(s3, second);
    RunTwo(s2, expire, Commit(second));
    RunCons(s1, wait, [expire, Commit(second)]);
    RunCons(Init(0), Commit(first), [wait] + [expire, Commit(second)]);
    var steps := [Commit(first)] + ([wait] + [expire, Commit(second)]);
    assert Run(Init(0), steps).issued == [Issue(e.streamId, 0), Issue(e.streamId, 0)];
  }

  /** Deleting a stream makes it start over: the next publish on it gets offset 0, as its very first one did. */
  lemma {:induction false} DeletedStreamStartsOver(s: State, streams: set<string>, step: Step)
    requires Inserting(step) && EventOf(step).streamId in streams && Enabled(s, step)
    ensures var deleted := Next(s, DeleteStreams(streams));
            Enabled(deleted, step) &&
            (Appends(deleted, step, EventOf(step).streamId) ==>
               Next(deleted, step).issued == s.issued + [Issue(EventOf(step).streamId, 0)])
  {
    var deleted := Next(s, DeleteStreams(streams));
    DeletionMembers(s, DeleteStreams(streams));
    assert forall r :: r in deleted.events ==> r.event.streamId != EventOf(step).streamId;
    InsertAppends(deleted, step);
  }

  // ---------------------------------------------------------------- replay and live delivery agree

  /** Every surviving row remembers whether it was committed with a delivery, and no two rows share one. */
  ghost predicate RowsHaveOrigins(s: State) {
    && (forall r :: r in s.events ==> r.id in s.origin && HasCommit(s, r))
    && (forall a :: a in s.origin && s.origin[a].Some? ==> s.origin[a].value in s.committed)
    && (forall a, b :: a in s.origin && b in s.origin && a != b && s.origin[a].Some? ==> s.origin[a] != s.origin[b])
  }

  ghost predicate HasCommit(s: State, r: EventRow)
    requires r.id in s.origin
  {
    s.origin[r.id].Some? ==> s.origin[r.id].value in s.committed && s.committed[s.origin[r.id].value] == r.event
  }

  lemma InsertKeepsOrigins(s: State, step: Step)
    requires RowsHaveOrigins(s) && Enabled(s, step) && Inserting(step)
    ensures RowsHaveOrigins(Next(s, step))
  {
    var s' := Next(s, step);
    InsertAppends(s, step);
    if s' != s {
      forall r | r in s'.events ensures r.id in s'.origin && HasCommit(s', r) {
        if r in s.events {
          assert r.id != s'.events[|s.events|].id && HasCommit(s, r);
        }
      }
    }
  }

  lemma StepKeepsOrigins(s: State, step: Step)
    requires RowsHaveOrigins(s) && Enabled(s, step)
    ensures RowsHaveOrigins(Next(s, step))
  {
    if Inserting(step) {
      InsertKeepsOrigins(s, step);
    } else {
      if Deletes(step) { DeletionMembers(s, step); } else { OtherStepsKeepEvents(s, step); }
      forall r | r in Next(s, step).events ensures r.id in s.origin && HasCommit(Next(s, step), r) {
        assert HasCommit(s, r);
      }
    }
  }

  lemma {:induction false} RunKeepsOrigins(s: State, steps: seq<Step>)
    requires RowsHaveOrigins(s) && ValidRun(s, steps)
    ensures RowsHaveOrigins(Run(s, steps))
    decreases |steps|
  {
    if steps != [] {
      StepKeepsOrigins(s, steps[0]);
      RunKeepsOrigins(Next(s, steps[0]), steps[1..]);
    }
  }

  /** The step inserts a row with this id. */
  predicate InsertsId(s: State, step: Step, id: string)
    requires Enabled(s, step)
  {
    var s' := Next(s, step);
    Inserting(step) && |s'.events| > |s.events| && s'.events[|s.events|].id == id
  }

  /** The last step of the run that inserts a row with this id, `last` if there is none. */
  function InsertedBy(s: State, steps: seq<Step>, id: string, last: Option<Step>): Option<Step>
    requires ValidRun(s, steps)
    decreases |steps|
  {
    if steps == [] then last
    else InsertedBy(Next(s, steps[0]), steps[1..], id, if InsertsId(s, steps[0], id) then Some(steps[0]) else last)
  }

  /** The row id's origin is the one of the step that inserted it last. */
  ghost predicate OriginIsBy(s: State, id: string, last: Option<Step>) {
    if last.Some? then Inserting(last.value) && id in s.origin && s.origin[id] == OutboxIdOf(last.value) else id !in s.origin
  }

  lemma OriginStep(s: State, step: Step, id: string, last: Option<Step>)
    requires Enabled(s, step) && OriginIsBy(s, id, last)
    ensures OriginIsBy(Next(s, step), id, if InsertsId(s, step, id) then Some(step) else last)
  {
    if Inserting(step) {
      InsertAppends(s, step);
    } else if Deletes(step) {
      DeletionMembers(s, step);
    } else {
      OtherStepsKeepEvents(s, step);
    }
  }

  lemma {:induction false} OriginRun(s: State, steps: seq<Step>, id: string, last: Option<Step>)
    requires ValidRun(s, steps) && OriginIsBy(s, id, last)
    ensures OriginIsBy(Run(s, steps), id, InsertedBy(s, steps, id, last))
    decreases |steps|
  {
    if steps != [] {
      OriginStep(s, steps[0], id, last);
      OriginRun(Next(s, steps[0]), steps[1..], id, if InsertsId(s, steps[0], id) then Some(steps[0]) else last);
    }
  }

  /** The outbox row committed with the event row, if there is one. */
  function DeliveryOf(t: int, steps: seq<Step>, id: string): Option<Id>
    requires ValidRun(Init(t), steps)
  {
    var last := InsertedBy(Init(t), steps, id, None);
    if last.Some? && last.value.Commit? then Some(last.value.req.outboxId) else None
  }

  /**
   * A crash cannot leave a committed event that can be replayed but that live subscribers will never get a chance to
   * see: every surviving row was inserted by a commit or without live delivery, and in the first case it has a
   * delivery of its own, shared with no other row, that is still held or done.
   */
  lemma {:induction false} ReplayableIsDeliverable(t: int, steps: seq<Step>, r: EventRow)
    requires ValidRun(Init(t), steps) && r in Run(Init(t), steps).events
    ensures var s, last := Run(Init(t), steps), InsertedBy(Init(t), steps, r.id, None);
            && last.Some? && (last.value.Commit? || last.value.PersistOnly?)
            && (last.value.Commit? ==>
                  var id := last.value.req.outboxId;
                  && id in s.committed && s.committed[id] == r.event && (Held(s, id) || Delivered(s, id))
                  && forall q :: q in s.events && q.id != r.id ==> DeliveryOf(t, steps, q.id) != Some(id))
  {
    var s0, s, last := Init(t), Run(Init(t), steps), InsertedBy(Init(t), steps, r.id, None);
    RunKeepsOrigins(s0, steps);
    RunKeeps(s0, steps);
    OriginRun(s0, steps, r.id, None);
    assert HasCommit(s, r);
    if last.value.Commit? {
      assert Held(s, last.value.req.outboxId) || Delivered(s, last.value.req.outboxId);
      forall q | q in s.events && q.id != r.id ensures DeliveryOf(t, steps, q.id) != s.origin[r.id] {
        OriginRun(s0, steps, q.id, None);
      }
    }
  }

  ghost predicate NoCommit(steps: seq<Step>) {
    forall step :: step in steps ==> !step.Commit?
  }

  lemma {:induction false} NothingCommitted(s: State, steps: seq<Step>)
    requires ValidRun(s, steps) && NoCommit(steps)
    ensures Run(s, steps).committed == s.committed
    decreases |steps|
  {
    if steps != [] {
      if Inserting(steps[0]) {
        InsertAppends(s, steps[0]);
      } else if Deletes(steps[0]) {
        DeletionMembers(s, steps[0]);
      } else {
        OtherStepsKeepEvents(s, steps[0]);
      }
      NothingCommitted(Next(s, steps[0]), steps[1..]);
    }
  }

  /** What is persisted without live delivery is never relayed: without commits the log holds direct entries only. */
  lemma {:induction false} PersistOnlyIsNotRelayed(t: int, steps: seq<Step>)
    requires ValidRun(Init(t), steps) && NoCommit(steps)
    ensures Run(Init(t), steps).server == Directly(steps) && Run(Init(t), steps).outbox == map[]
  {
    var s := Run(Init(t), steps);
    NothingCommitted(Init(t), steps);
    RunKeeps(Init(t), steps);
    DirectlyPublishedInOrder(Init(t), steps);
    AllDirect(s.server);
    forall id ensures id !in s.outbox { }
  }

  lemma {:induction false} AllDirect(log: seq<Delivery>)
    requires forall d :: d in log ==> d.Direct?
    ensures Filter(log, IsDirect()) == log
  {
    if log != [] {
      var init := log[..|log| - 1];
      assert log == init + [log[|log| - 1]];
      AllDirect(init);
    }
  }
}
