/** What the host gets: the runner's calls seen through batching, timers and decoding. */
module RunnerHost {
  import opened Common
  import opened TokenBatching
  import opened Runner

  lemma {:induction false} OpenWithoutTokens(calls: seq<AgentEvent>, id: string)
    ensures Open(Filter(calls, NotToken()), id) == Open(calls, id)
    ensures StartName(Filter(calls, NotToken()), id) == StartName(calls, id)
  {
    if calls != [] {
      var init, last := calls[..|calls| - 1], calls[|calls| - 1];
      OpenWithoutTokens(init, id);
      OpenSnoc(Filter(init, NotToken()), last, id);
    }
  }

  /** Pairing looks at tool events only, so dropping the tokens does not change it. */
  lemma {:induction false} PairingWithoutTokens(calls: seq<AgentEvent>)
    requires Alternates(calls)
    ensures Alternates(Filter(calls, NotToken()))
  {
    if calls != [] {
      var init, last := calls[..|calls| - 1], calls[|calls| - 1];
      PairingWithoutTokens(init);
      if last.ToolStart? || last.ToolResult? { OpenWithoutTokens(init, last.toolId); }
      if !last.Token? { AlternatesSnoc(Filter(init, NotToken()), last); }
    }
  }

  /** A call that flushes leaves nothing buffered, and the timer brings nothing back. */
  lemma {:induction false} FlushedAtTheEnd(inputs: seq<TokenBatching.Input>)
    requires CallsOf(inputs) != [] && Flushes(CallsOf(inputs)[|CallsOf(inputs)| - 1])
    ensures FeedAll(Fresh, inputs).batch == []
    decreases |inputs|
  {
    var init, last := inputs[..|inputs| - 1], inputs[|inputs| - 1];
    if last.TimerFires? {
      FlushedAtTheEnd(init);
    } else {
      assert CallsOf(inputs)[|CallsOf(inputs)| - 1] == last.event;
    }
  }

  /**
   * What the host is missing, for every sequence of calls and timer flushes: the tokens still buffered, nine at
   * most and the last ones of the run. All other events have arrived, and each kind in its order.
   */
  lemma {:induction false} HostMissesAtMostNineTokens(wire: seq<TokenBatching.Input>)
    ensures var s, calls := FeedAll(Fresh, wire), CallsOf(wire);
            var seen := Decode(s.out);
            && Filter(seen, NotToken()) == Filter(calls, NotToken())
            && Filter(calls, IsToken()) == Filter(seen, IsToken()) + TokenEvents(s.batch)
            && |s.batch| <= 9
  {
    var s := FeedAll(Fresh, wire);
    EachKindKeepsItsOrder(wire);
    FeedAllWellFormed(wire);
    FilterTokens(s.batch);
    FilterConcat(Decode(s.out), TokenEvents(s.batch), IsToken());
    FilterConcat(Decode(s.out), TokenEvents(s.batch), NotToken());
  }

  /** A flushing call at the end is the last thing the host sees, whatever overtook what before. */
  lemma {:induction false} LastSeen(inputs: seq<TokenBatching.Input>)
    requires CallsOf(inputs) != [] && Flushes(CallsOf(inputs)[|CallsOf(inputs)| - 1])
    ensures var seen := Decode(FeedAll(Fresh, inputs).out);
            seen != [] && seen[|seen| - 1] == CallsOf(inputs)[|CallsOf(inputs)| - 1]
    decreases |inputs|
  {
    var init, last := inputs[..|inputs| - 1], inputs[|inputs| - 1];
    if last.TimerFires? {
      LastSeen(init);
      FlushedAtTheEnd(init);
      FeedAllWellFormed(init);
    } else {
      assert CallsOf(inputs)[|CallsOf(inputs)| - 1] == last.event;
      DecodeSnoc(Flush(FeedAll(Fresh, init)).out, Single(last.event));
    }
  }

  /**
   * End to end. Whatever the timers did in between, once a phase has ended by anything but a signal the
   * decoded output holds every event of the run, tokens in order and all others in order; tool starts and
   * results pair up in it as they did in the run; and its very last event is the terminal one.
   */
  lemma {:induction false} HostSeesTheRun(c: Config, inputs: seq<Runner.Input>, wire: seq<TokenBatching.Input>)
    requires CallsOf(wire) == Run(c, inputs).calls
    requires Run(c, inputs).exit.Some? && !Run(c, inputs).exit.value.BySignal?
    ensures var calls, seen := Run(c, inputs).calls, Decode(FeedAll(Fresh, wire).out);
            && Filter(seen, IsToken()) == Filter(calls, IsToken())
            && Filter(seen, NotToken()) == Filter(calls, NotToken())
            && Alternates(Filter(seen, NotToken()))
            && calls != [] && seen != []
            && seen[|seen| - 1] == calls[|calls| - 1] && Terminal(seen[|seen| - 1])
            && (!Overtakes(wire) ==> seen == calls)
  {
    OneTerminalEventLast(c, inputs);
    ToolsPair(c, inputs, "");
    FlushedAtTheEnd(wire);
    LastSeen(wire);
    HostMissesAtMostNineTokens(wire);
    BatchingRefinesDirectEmission(wire);
    assert TokenEvents([]) == [];
    PairingWithoutTokens(Run(c, inputs).calls);
  }

  /** At any moment of any run, signalled or not: its tools are paired for the host, which misses nine tokens at most. */
  lemma {:induction false} HostSeesAnyRun(c: Config, inputs: seq<Runner.Input>, wire: seq<TokenBatching.Input>)
    requires CallsOf(wire) == Run(c, inputs).calls
    ensures var calls, seen := Run(c, inputs).calls, Decode(FeedAll(Fresh, wire).out);
            && Filter(seen, NotToken()) == Filter(calls, NotToken())
            && Filter(seen, IsToken()) <= Filter(calls, IsToken())
            && |Filter(calls, IsToken())| <= |Filter(seen, IsToken())| + 9
            && Alternates(Filter(seen, NotToken()))
  {
    ToolsPair(c, inputs, "");
    HostMissesAtMostNineTokens(wire);
    PairingWithoutTokens(Run(c, inputs).calls);
  }
}
