/** The agent runner's event emitter: token deltas travel in batches, everything else as single lines. */
module TokenBatching {
  import opened Common

  datatype CompleteStatus = Completed | TurnLimit | ErrorStatus

  /** The events the host sees after decoding. */
  datatype AgentEvent =
    | Started
    | Token(delta: string)
    | Turn(turn: nat)
    | ToolStart(toolId: string, toolName: string)
    | ToolResult(toolId: string, toolName: string, isError: bool)
    | Message(content: string)
    | Complete(status: CompleteStatus, turnCount: nat)
    | ErrorEvent(turnCount: nat)
    | Cancelled(turnCount: nat)
    | FileChanged(path: string)
    | PlanReady(plan: string)
    | TopologySpawned(agentId: string, parentId: Option<string>, agentType: Option<string>)
    | TopologyProgress(agentId: string)
    | TopologyCompleted(agentId: string)

  /** One JSON line on stdout. */
  datatype Line = Batch(deltas: seq<string>) | Single(event: AgentEvent)

  const TOKEN_BATCH_SIZE := 10

  /** The emit methods that flush buffered tokens first. */
  predicate Flushes(e: AgentEvent) {
    e.Turn? || e.ToolStart? || e.ToolResult? || e.Message? || e.Complete? || e.ErrorEvent? || e.Cancelled?
  }

  datatype State = State(batch: seq<string>, timer: bool, out: seq<Line>)

  const Fresh := State([], false, [])

  /** What reaches the emitter: a method call, or its timer. */
  datatype Input = Call(event: AgentEvent) | TimerFires

  function Flush(s: State): State {
    State([], false, if s.batch == [] then s.out else s.out + [Batch(s.batch)])
  }

  function Feed(s: State, input: Input): State {
    match input
    case TimerFires => if s.timer then Flush(s) else s
    case Call(Token(delta)) =>
      var s' := s.(batch := s.batch + [delta]);
      if |s'.batch| >= TOKEN_BATCH_SIZE then Flush(s') else s'.(timer := true)
    case Call(e) =>
      var s' := if Flushes(e) then Flush(s) else s;
      s'.(out := s'.out + [Single(e)])
  }

  function FeedAll(s: State, inputs: seq<Input>): State
    decreases |inputs|
  {
    if inputs == [] then s else Feed(FeedAll(s, inputs[..|inputs| - 1]), inputs[|inputs| - 1])
  }

  // ---------------------------------------------------------------- the host's decoding

  function TokenEvents(deltas: seq<string>): seq<AgentEvent> {
    seq(|deltas|, i requires 0 <= i < |deltas| => Token(deltas[i]))
  }

  /** The bridge expands each batch into single token events. */
  function Decode(out: seq<Line>): seq<AgentEvent> {
    if out == [] then []
    else Decode(out[..|out| - 1]) + match out[|out| - 1] case Batch(deltas) => TokenEvents(deltas) case Single(e) => [e]
  }

  /** The calls in order, without batching. */
  function CallsOf(inputs: seq<Input>): seq<AgentEvent> {
    if inputs == [] then []
    else CallsOf(inputs[..|inputs| - 1]) + if inputs[|inputs| - 1].Call? then [inputs[|inputs| - 1].event] else []
  }

  /** What the host will have seen once the buffer is flushed. */
  function Seen(s: State): seq<AgentEvent> {
    Decode(s.out) + TokenEvents(s.batch)
  }

  /** Some call overtakes buffered tokens: it does not flush, and the buffer is not empty. */
  predicate Overtakes(inputs: seq<Input>) {
    inputs != [] &&
    var init, last := inputs[..|inputs| - 1], inputs[|inputs| - 1];
    || Overtakes(init)
    || (last.Call? && !last.event.Token? && !Flushes(last.event) && FeedAll(Fresh, init).batch != [])
  }

  ghost predicate WellFormed(s: State) {
    && |s.batch| < 10
    && (s.timer <==> s.batch != [])
    && (forall l :: l in s.out && l.Batch? ==> 1 <= |l.deltas| <= 10)
    && (forall l :: l in s.out && l.Single? ==> !l.event.Token?)
  }

  lemma {:induction false} DecodeSnoc(out: seq<Line>, l: Line)
    ensures Decode(out + [l]) == Decode(out) + match l case Batch(deltas) => TokenEvents(deltas) case Single(e) => [e]
  {
    assert (out + [l])[..|out|] == out;
  }

  lemma FlushKeepsSeen(s: State)
    ensures Seen(Flush(s)) == Seen(s)
  {
    if s.batch != [] { DecodeSnoc(s.out, Batch(s.batch)); }
    assert TokenEvents([]) == [];
  }

  lemma TokenSeen(s: State, delta: string)
    ensures Seen(Feed(s, Call(Token(delta)))) == Seen(s) + [Token(delta)]
  {
    var s' := s.(batch := s.batch + [delta]);
    assert TokenEvents(s'.batch) == TokenEvents(s.batch) + [Token(delta)];
    assert Seen(s') == Seen(s) + [Token(delta)];
    FlushKeepsSeen(s');
  }

  lemma SingleSeen(s: State, e: AgentEvent)
    requires !e.Token?
    ensures Seen(s.(out := s.out + [Single(e)])) == Decode(s.out) + [e] + TokenEvents(s.batch)
  {
    DecodeSnoc(s.out, Single(e));
  }

  /** What the host will see after one more input. */
  function SeenAfter(s: State, input: Input): seq<AgentEvent> {
    match input
    case TimerFires => Seen(s)
    case Call(e) =>
      if e.Token? || Flushes(e) || s.batch == [] then Seen(s) + [e]
      else Decode(s.out) + [e] + TokenEvents(s.batch)
  }

  lemma FeedSeen(s: State, input: Input)
    ensures Seen(Feed(s, input)) == SeenAfter(s, input)
  {
    match input
    case TimerFires => FlushKeepsSeen(s);
    case Call(e) =>
      if e.Token? {
        TokenSeen(s, e.delta);
      } else {
        FlushKeepsSeen(s);
        assert TokenEvents([]) == [];
        SingleSeen(if Flushes(e) then Flush(s) else s, e);
      }
  }

  lemma {:induction false} FeedAllWellFormed(inputs: seq<Input>)
    ensures WellFormed(FeedAll(Fresh, inputs))
  {
    if inputs != [] {
      FeedAllWellFormed(inputs[..|inputs| - 1]);
    }
  }

  /**
   * Batching refines direct emission. For every sequence of calls and timer flushes, decoding the output and
   * appending the buffer gives back exactly the call sequence if and only if no call overtook buffered
   * tokens; the calls that flush first never do.
   */
  lemma {:induction false} BatchingRefinesDirectEmission(inputs: seq<Input>)
    ensures Seen(FeedAll(Fresh, inputs)) == CallsOf(inputs) <==> !Overtakes(inputs)
  {
    if inputs == [] {
    } else {
      var init, last := inputs[..|inputs| - 1], inputs[|inputs| - 1];
      BatchingRefinesDirectEmission(init);
      var s := FeedAll(Fresh, init);
      FeedSeen(s, last);
      if last.Call? {
        var e := last.event;
        if e.Token? || Flushes(e) || s.batch == [] {
          assert (Seen(s) + [e])[..|Seen(s)|] == Seen(s);
          assert (CallsOf(init) + [e])[..|CallsOf(init)|] == CallsOf(init);
        } else {
          var seen := Decode(s.out) + [e] + TokenEvents(s.batch);
          assert seen[|seen| - 1] == Token(s.batch[|s.batch| - 1]);
          assert CallsOf(inputs)[|CallsOf(inputs)| - 1] == e;
        }
      }
    }
  }

  /** A file change sent after a token is seen before it. */
  lemma FileChangeOvertakes(delta: string, path: string)
    ensures var inputs := [Call(Token(delta)), Call(FileChanged(path)), TimerFires];
            && CallsOf(inputs) == [Token(delta), FileChanged(path)]
            && Decode(FeedAll(Fresh, inputs).out) == [FileChanged(path), Token(delta)]
  {
    var inputs := [Call(Token(delta)), Call(FileChanged(path)), TimerFires];
    assert inputs[..2] == [Call(Token(delta)), Call(FileChanged(path))] && inputs[..2][..1] == [Call(Token(delta))] && inputs[..2][..1][..0] == [];
    assert CallsOf(inputs[..2][..1]) == [Token(delta)] && CallsOf(inputs[..2]) == [Token(delta), FileChanged(path)];
    assert FeedAll(Fresh, inputs[..2][..1]) == State([delta], true, []);
    assert FeedAll(Fresh, inputs[..2]) == State([delta], true, [Single(FileChanged(path))]);
    assert FeedAll(Fresh, inputs) == State([], false, [Single(FileChanged(path)), Batch([delta])]);
    var out := [Single(FileChanged(path)), Batch([delta])];
    assert out[..1] == [Single(FileChanged(path))] && out[..1][..0] == [];
    assert Decode(out[..1]) == [FileChanged(path)] && TokenEvents([delta]) == [Token(delta)];
  }

  /**
   * What each kind of call writes, after any inputs: turns, tool events, messages and the three terminal events put the
   * buffered tokens, if there are any, in one batch before them; start, file change, plan and topology events go out
   * alone and leave the buffer as it is; the tenth token sends the batch.
   */
  lemma {:induction false} WritesOf(inputs: seq<Input>, e: AgentEvent)
    ensures var s, s' := FeedAll(Fresh, inputs), FeedAll(Fresh, inputs + [Call(e)]);
            match e
            case Token(delta) =>
              if |s.batch| == 9 then s'.batch == [] && s'.out == s.out + [Batch(s.batch + [delta])]
              else s'.batch == s.batch + [delta] && s'.out == s.out
            case Turn(_) => s'.batch == [] && s'.out == s.out + (if s.batch == [] then [] else [Batch(s.batch)]) + [Single(e)]
            case ToolStart(_, _) => s'.batch == [] && s'.out == s.out + (if s.batch == [] then [] else [Batch(s.batch)]) + [Single(e)]
            case ToolResult(_, _, _) => s'.batch == [] && s'.out == s.out + (if s.batch == [] then [] else [Batch(s.batch)]) + [Single(e)]
            case Message(_) => s'.batch == [] && s'.out == s.out + (if s.batch == [] then [] else [Batch(s.batch)]) + [Single(e)]
            case Complete(_, _) => s'.batch == [] && s'.out == s.out + (if s.batch == [] then [] else [Batch(s.batch)]) + [Single(e)]
            case ErrorEvent(_) => s'.batch == [] && s'.out == s.out + (if s.batch == [] then [] else [Batch(s.batch)]) + [Single(e)]
            case Cancelled(_) => s'.batch == [] && s'.out == s.out + (if s.batch == [] then [] else [Batch(s.batch)]) + [Single(e)]
            case _ => s'.batch == s.batch && s'.out == s.out + [Single(e)]
  {
    FeedAllWellFormed(inputs);
    assert (inputs + [Call(e)])[..|inputs|] == inputs;
  }

  /** The timer sends what is buffered. */
  lemma {:induction false} TimerWrites(inputs: seq<Input>)
    ensures var s, s' := FeedAll(Fresh, inputs), FeedAll(Fresh, inputs + [TimerFires]);
            s'.batch == [] && s'.out == s.out + if s.batch == [] then [] else [Batch(s.batch)]
  {
    FeedAllWellFormed(inputs);
    assert (inputs + [TimerFires])[..|inputs|] == inputs;
  }

  // ---------------------------------------------------------------- what holds even when calls overtake

  function IsToken(): AgentEvent -> bool { (e: AgentEvent) => e.Token? }

  function NotToken(): AgentEvent -> bool { (e: AgentEvent) => !e.Token? }

  lemma {:induction false} FilterTokens(deltas: seq<string>)
    ensures Filter(TokenEvents(deltas), IsToken()) == TokenEvents(deltas)
    ensures Filter(TokenEvents(deltas), NotToken()) == []
  {
    if deltas != [] {
      FilterTokens(deltas[..|deltas| - 1]);
      assert TokenEvents(deltas)[..|deltas| - 1] == TokenEvents(deltas[..|deltas| - 1]);
    }
  }

  /** Moving an event before buffered tokens keeps the tokens' order. */
  lemma {:induction false} OvertakingKeepsTokens(d: seq<AgentEvent>, deltas: seq<string>, e: AgentEvent)
    requires !e.Token?
    ensures Filter(d + [e] + TokenEvents(deltas), IsToken()) == Filter(d + TokenEvents(deltas) + [e], IsToken())
  {
    var t := TokenEvents(deltas);
    FilterConcat(d + [e], t, IsToken());
    FilterSnoc(d, e, IsToken());
    FilterConcat(d, t, IsToken());
    FilterSnoc(d + t, e, IsToken());
  }

  /** And that of all other events. */
  lemma {:induction false} OvertakingKeepsOthers(d: seq<AgentEvent>, deltas: seq<string>, e: AgentEvent)
    requires !e.Token?
    ensures Filter(d + [e] + TokenEvents(deltas), NotToken()) == Filter(d + TokenEvents(deltas) + [e], NotToken())
  {
    var t := TokenEvents(deltas);
    FilterTokens(deltas);
    FilterConcat(d + [e], t, NotToken());
    FilterSnoc(d, e, NotToken());
    FilterConcat(d, t, NotToken());
    FilterSnoc(d + t, e, NotToken());
  }

  /** One call adds its event to the projection it belongs to, wherever it shows up. */
  lemma CallAddsItsKind(s: State, e: AgentEvent, p: AgentEvent -> bool)
    requires p == IsToken() || p == NotToken()
    ensures Filter(SeenAfter(s, Call(e)), p) == Filter(Seen(s) + [e], p)
  {
    if !e.Token? {
      OvertakingKeepsTokens(Decode(s.out), s.batch, e);
      OvertakingKeepsOthers(Decode(s.out), s.batch, e);
    }
  }

  lemma {:induction false} CallKeepsKind(s: State, calls: seq<AgentEvent>, e: AgentEvent, p: AgentEvent -> bool)
    requires (p == IsToken() || p == NotToken()) && Filter(Seen(s), p) == Filter(calls, p)
    ensures Filter(Seen(Feed(s, Call(e))), p) == Filter(calls + [e], p)
  {
    FeedSeen(s, Call(e));
    CallAddsItsKind(s, e, p);
    FilterSnoc(Seen(s), e, p);
    FilterSnoc(calls, e, p);
  }

  lemma {:induction false} KindKeepsItsOrder(inputs: seq<Input>, p: AgentEvent -> bool)
    requires p == IsToken() || p == NotToken()
    ensures Filter(Seen(FeedAll(Fresh, inputs)), p) == Filter(CallsOf(inputs), p)
  {
    if inputs != [] {
      var init, last := inputs[..|inputs| - 1], inputs[|inputs| - 1];
      var s := FeedAll(Fresh, init);
      KindKeepsItsOrder(init, p);
      assert FeedAll(Fresh, inputs) == Feed(s, last);
      if last.Call? {
        CallKeepsKind(s, CallsOf(init), last.event, p);
        assert CallsOf(inputs) == CallsOf(init) + [last.event];
      } else {
        FeedSeen(s, last);
        assert CallsOf(inputs) == CallsOf(init);
      }
    }
  }

  /** Tokens among themselves, and all other events among themselves, are never lost, doubled or reordered. */
  lemma {:induction false} EachKindKeepsItsOrder(inputs: seq<Input>)
    ensures Filter(Seen(FeedAll(Fresh, inputs)), IsToken()) == Filter(CallsOf(inputs), IsToken())
    ensures Filter(Seen(FeedAll(Fresh, inputs)), NotToken()) == Filter(CallsOf(inputs), NotToken())
  {
    KindKeepsItsOrder(inputs, IsToken());
    KindKeepsItsOrder(inputs, NotToken());
  }

  // ---------------------------------------------------------------- the class

  class EventEmitter {
    var tokenBatch: seq<string>
    var timerSet: bool
    var out: seq<Line>
    /** Every input so far. */
    ghost var inputs: seq<Input>

    ghost function Abs(): State
      reads this
    {
      State(tokenBatch, timerSet, out)
    }

    /** The fields are what the inputs lead to; batch sizes and the timer follow. */
    ghost predicate Valid()
      reads this
    {
      Abs() == FeedAll(Fresh, inputs) && WellFormed(Abs())
    }

    constructor ()
      ensures Valid() && inputs == [] && out == []
    {
      tokenBatch, timerSet, out, inputs := [], false, [], [];
    }

    method FlushTokens()
      modifies this`tokenBatch, this`timerSet, this`out
      ensures Abs() == Flush(old(Abs()))
    {
      if timerSet { timerSet := false; }
      if |tokenBatch| == 0 { return; }
      var batch := tokenBatch;
      tokenBatch := [];
      out := out + [Batch(batch)];
    }

    ghost method Took(input: Input)
      requires Abs() == Feed(FeedAll(Fresh, inputs), input)
      modifies this`inputs
      ensures Valid() && inputs == old(inputs) + [input]
    {
      inputs := inputs + [input];
      assert inputs[..|inputs| - 1] == old(inputs);
      FeedAllWellFormed(inputs);
    }

    /** Buffers one delta; the tenth flushes, an earlier one arms the timer. */
    method EmitToken(delta: string)
      requires Valid()
      modifies this
      ensures Valid() && inputs == old(inputs) + [Call(Token(delta))]
    {
      tokenBatch := tokenBatch + [delta];
      if |tokenBatch| >= TOKEN_BATCH_SIZE {
        FlushTokens();
      } else if !timerSet {
        timerSet := true;
      }
      Took(Call(Token(delta)));
    }

    /** Every other emit method. */
    method Emit(e: AgentEvent)
      requires Valid() && !e.Token?
      modifies this
      ensures Valid() && inputs == old(inputs) + [Call(e)]
    {
      if Flushes(e) { FlushTokens(); }
      out := out + [Single(e)];
      Took(Call(e));
    }

    method OnTimer()
      requires Valid()
      modifies this
      ensures Valid() && inputs == old(inputs) + [TimerFires]
    {
      if timerSet { FlushTokens(); }
      Took(TimerFires);
    }
  }
}
