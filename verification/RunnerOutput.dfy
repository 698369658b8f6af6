/** What an execution phase sends, told from its inputs alone: the map of tools, the turn and the tracker are not looked at. */
module RunnerOutput {
  import opened Common
  import opened TokenBatching
  import opened Topology
  import opened Runner

  // ---------------------------------------------------------------- everything but results and topology

  function Plain(): AgentEvent -> bool {
    (e: AgentEvent) => !e.ToolResult? && !e.TopologySpawned? && !e.TopologyProgress? && !e.TopologyCompleted?
  }

  ghost function SaidFor(c: Config, before: seq<Runner.Input>, m: Runner.Message): seq<AgentEvent> {
    match m
    case MessageStart =>
      var n := Turns(before) + 1;
      if n >= c.maxTurns then [Turn(n), Complete(TurnLimit, n)] else [Turn(n)]
    case TextDelta(text) => if text == "" then [] else [Token(text)]
    case ToolProgress(id, name) => if LeftOpen(before, id) then [] else [ToolStart(id, name)]
    case Assistant(text) => if text == "" then [] else [AgentEvent.Message(text)]
    case ResultMessage(isError) => [Complete(if isError then ErrorStatus else Completed, Turns(before))]
    case _ => []
  }

  /** What an input makes the phase say after the inputs before it. */
  ghost function Said(c: Config, before: seq<Runner.Input>, input: Runner.Input): seq<AgentEvent> {
    match input
    case ToolHook(id, name, path) =>
      if id == "" || LeftOpen(before, id) then []
      else if path.Some? then [ToolStart(id, name), FileChanged(path.value)] else [ToolStart(id, name)]
    case Received(m, stopped) => if stopped then [Cancelled(Turns(before))] else SaidFor(c, before, m)
    case StreamEnds => [Complete(Completed, Turns(before))]
    case StreamThrows => [ErrorEvent(Turns(before))]
    case _ => []
  }

  /** What all inputs up to the one that ends the run make it say. */
  ghost function AllSaid(c: Config, inputs: seq<Runner.Input>): seq<AgentEvent> {
    if inputs == [] then [Started]
    else
      var init := inputs[..|inputs| - 1];
      AllSaid(c, init) + if NoneEnds(c, init) then Said(c, init, inputs[|inputs| - 1]) else []
  }

  lemma {:induction false} ClosingSaysNothing(s: Phase, ids: seq<string>, isError: bool)
    ensures Filter(CloseEach(s, ids, isError).calls, Plain()) == Filter(s.calls, Plain())
    decreases |ids|
  {
    if ids != [] {
      if HasTool(s.active, ids[0]) {
        FilterSnoc(s.calls, ToolResult(ids[0], NameOf(s.active, ids[0]), isError), Plain());
      }
      ClosingSaysNothing(CloseTool(s, ids[0], isError), ids[1..], isError);
    }
  }

  lemma TopologySaysNothing(s: Phase, task: TaskMsg, root: string)
    ensures Filter(EmitAll(s, Emits(s.tracker, task, root)).calls, Plain()) == Filter(s.calls, Plain())
  {
    var es := Emits(s.tracker, task, root);
    if es == [] {
      assert s.calls + es == s.calls;
    } else {
      FilterSnoc(s.calls, es[0], Plain());
      if |es| == 2 {
        FilterSnoc(s.calls + [es[0]], es[1], Plain());
        assert s.calls + es == s.calls + [es[0]] + [es[1]];
      } else {
        assert es == [es[0]];
      }
    }
  }

  lemma {:induction false} SnocSays(calls: seq<AgentEvent>, said: seq<AgentEvent>)
    requires |said| <= 2 && forall e :: e in said ==> Plain()(e)
    ensures Filter(calls + said, Plain()) == Filter(calls, Plain()) + said
  {
    if said == [] {
      assert calls + said == calls;
    } else {
      FilterSnoc(calls, said[0], Plain());
      if |said| == 2 {
        FilterSnoc(calls + [said[0]], said[1], Plain());
        assert calls + said == calls + [said[0]] + [said[1]];
      } else {
        assert said == [said[0]];
      }
    }
  }

  lemma {:induction false} MessageSays(c: Config, s: Phase, before: seq<Runner.Input>, m: Runner.Message)
    requires s.exit.None? && s.turn == Turns(before)
    requires m.ToolProgress? ==> (HasTool(s.active, m.toolId) <==> LeftOpen(before, m.toolId))
    ensures Filter(OnMessage(c, s, m).calls, Plain()) == Filter(s.calls, Plain()) + SaidFor(c, before, m)
  {
    match m
    case MessageStart =>
      SnocSays(s.calls, SaidFor(c, before, m));
      assert OnMessage(c, s, m).calls == s.calls + SaidFor(c, before, m);
    case TextDelta(_) => SnocSays(s.calls, SaidFor(c, before, m));
    case ToolProgress(_, _) => SnocSays(s.calls, SaidFor(c, before, m));
    case TaskMessage(task) => TopologySaysNothing(s, task, c.root);
    case ToolSummary(ids, isError) => ClosingSaysNothing(s, ids, isError);
    case Assistant(_) =>
      ClosingSaysNothing(s, Ids(s.active), false);
      SnocSays(CloseAll(s, false).calls, SaidFor(c, before, m));
    case ResultMessage(_) =>
      CloseEachKeepsRest(s, Ids(s.active), false);
      ClosingSaysNothing(s, Ids(s.active), false);
      SnocSays(CloseAll(s, false).calls, SaidFor(c, before, m));
    case OtherMessage =>
  }

  lemma {:induction false} StepSays(c: Config, s: Phase, before: seq<Runner.Input>, input: Runner.Input)
    requires s.exit.None? && s.turn == Turns(before)
    requires forall id: string :: HasTool(s.active, id) <==> LeftOpen(before, id)
    ensures Filter(Step(c, s, input).calls, Plain()) == Filter(s.calls, Plain()) + Said(c, before, input)
  {
    match input
    case ToolHook(_, _, _) => HookSays(c, s, before, input);
    case SubagentHook(_) =>
    case Received(m, stopped) => if stopped { SnocSays(s.calls, [Cancelled(s.turn)]); } else { MessageSays(c, s, before, m); }
    case Signal => ClosingSaysNothing(s, Ids(s.active), true);
    case ProcessExits =>
    case StreamEnds => EndSays(c, s, before, input);
    case StreamThrows => EndSays(c, s, before, input);
  }

  /** The calls of a hook, in terms of the map. */
  lemma HookCalls(c: Config, s: Phase, id: string, name: string, path: Option<string>)
    requires s.exit.None?
    ensures Step(c, s, ToolHook(id, name, path)).calls
            == s.calls + if id == "" || HasTool(s.active, id) then []
                         else if path.Some? then [ToolStart(id, name), FileChanged(path.value)] else [ToolStart(id, name)]
  {
  }

  lemma {:induction false} HookSays(c: Config, s: Phase, before: seq<Runner.Input>, input: Runner.Input)
    requires s.exit.None? && input.ToolHook? && (HasTool(s.active, input.toolId) <==> LeftOpen(before, input.toolId))
    ensures Filter(Step(c, s, input).calls, Plain()) == Filter(s.calls, Plain()) + Said(c, before, input)
  {
    HookCalls(c, s, input.toolId, input.toolName, input.changedPath);
    SnocSays(s.calls, Said(c, before, input));
  }

  lemma {:induction false} EndSays(c: Config, s: Phase, before: seq<Runner.Input>, input: Runner.Input)
    requires s.exit.None? && s.turn == Turns(before) && (input.StreamEnds? || input.StreamThrows?)
    ensures Filter(Step(c, s, input).calls, Plain()) == Filter(s.calls, Plain()) + Said(c, before, input)
  {
    CloseEachKeepsRest(s, Ids(s.active), false);
    ClosingSaysNothing(s, Ids(s.active), false);
    SnocSays(CloseAll(s, false).calls, Said(c, before, input));
  }

  /** Tools open and turn of a run that goes on, from its inputs. */
  lemma {:induction false} GoesOn(c: Config, inputs: seq<Runner.Input>)
    requires NoneEnds(c, inputs)
    ensures var s := Run(c, inputs);
            && s.exit.None? && s.turn == Turns(inputs)
            && forall id: string :: HasTool(s.active, id) <==> LeftOpen(inputs, id)
  {
    ExitIff(c, inputs);
    forall id: string ensures HasTool(Run(c, inputs).active, id) <==> LeftOpen(inputs, id) {
      OpenIff(c, inputs, id);
    }
  }

  /**
   * Everything a run sends besides tool results and topology events: token deltas, texts, turn numbers, tool starts,
   * file changes and the terminal event are, in order and in full, what its inputs call for.
   */
  lemma {:induction false} SaysWhatInputsSay(c: Config, inputs: seq<Runner.Input>)
    ensures Filter(Run(c, inputs).calls, Plain()) == AllSaid(c, inputs)
  {
    if inputs == [] {
      var rootEvent := TopologySpawned(c.root, None, None);
      assert Begin(c).calls == ([] + [Started]) + [rootEvent] && Filter<AgentEvent>([], Plain()) == [];
      FilterSnoc([], Started, Plain());
      FilterSnoc([] + [Started], rootEvent, Plain());
    } else {
      var n := |inputs| - 1;
      SaysWhatInputsSay(c, inputs[..n]);
      ExitIff(c, inputs[..n]);
      if NoneEnds(c, inputs[..n]) {
        GoesOn(c, inputs[..n]);
        StepSays(c, Run(c, inputs[..n]), inputs[..n], inputs[n]);
      }
    }
  }

  // ---------------------------------------------------------------- the terminal event

  /** Which terminal event a run ends with, by the first of its inputs that ends it. */
  lemma {:induction false} LastCall(c: Config, inputs: seq<Runner.Input>, i: nat)
    requires i < |inputs| && Ends(c, inputs, i) && NoneEnds(c, inputs[..i]) && inputs[i] != ProcessExits
    ensures var calls, turns := Run(c, inputs).calls, Turns(inputs[..i]);
            calls != [] &&
            var last := calls[|calls| - 1];
            && (forall isError :: inputs[i] == Received(ResultMessage(isError), false) ==>
                  last == if isError then Complete(ErrorStatus, turns) else Complete(Completed, turns))
            && (inputs[i] == Received(MessageStart, false) ==> last == Complete(TurnLimit, Turns(inputs[..i + 1])))
            && (forall m :: inputs[i] == Received(m, true) ==> last == Cancelled(turns))
            && (inputs[i] == StreamEnds ==> last == Complete(Completed, turns))
            && (inputs[i] == StreamThrows ==> last == ErrorEvent(turns))
  {
    EndedByFirst(c, inputs, i);
    ExitIff(c, inputs[..i]);
    assert inputs[..i + 1][..i] == inputs[..i];
    CloseEachKeepsRest(Run(c, inputs[..i]), Ids(Run(c, inputs[..i]).active), false);
  }

  /** A failed result is sent as such. */
  lemma {:induction false} FailedResult(c: Config)
    ensures Run(c, [Received(ResultMessage(true), false)]).calls
            == [Started, TopologySpawned(c.root, None, None), Complete(ErrorStatus, 0)]
  {
    assert [Received(ResultMessage(true), false)][..0] == [];
    assert CloseAll(Begin(c), false) == Begin(c);
  }

  // ---------------------------------------------------------------- tool results

  /** Where the tool was last started. */
  function LastStart(calls: seq<AgentEvent>, id: string): int {
    if calls == [] then -1
    else if calls[|calls| - 1].ToolStart? && calls[|calls| - 1].toolId == id then |calls| - 1
    else LastStart(calls[..|calls| - 1], id)
  }

  /** Earlier tools of the map were started earlier. */
  ghost predicate InStartOrder(active: seq<Tool>, calls: seq<AgentEvent>) {
    forall i, j :: 0 <= i < j < |active| ==> LastStart(calls, active[i].id) < LastStart(calls, active[j].id)
  }

  lemma {:induction false} LastStartSnoc(calls: seq<AgentEvent>, e: AgentEvent, id: string)
    ensures LastStart(calls + [e], id) == if e.ToolStart? && e.toolId == id then |calls| else LastStart(calls, id)
  {
    assert (calls + [e])[..|calls|] == calls;
  }

  lemma {:induction false} LastStartBelow(calls: seq<AgentEvent>, id: string)
    ensures LastStart(calls, id) < |calls|
  {
    if calls != [] { LastStartBelow(calls[..|calls| - 1], id); }
  }

  lemma {:induction false} LastStartAfter(calls: seq<AgentEvent>, es: seq<AgentEvent>, id: string)
    requires forall e :: e in es ==> !e.ToolStart?
    ensures LastStart(calls + es, id) == LastStart(calls, id)
  {
    if es == [] {
      assert calls + es == calls;
    } else {
      var n := |es| - 1;
      LastStartAfter(calls, es[..n], id);
      LastStartSnoc(calls + es[..n], es[n], id);
      assert calls + es == calls + es[..n] + [es[n]];
    }
  }

  lemma OrderAfter(active: seq<Tool>, calls: seq<AgentEvent>, es: seq<AgentEvent>)
    requires InStartOrder(active, calls) && forall e :: e in es ==> !e.ToolStart?
    ensures InStartOrder(active, calls + es)
  {
    forall i, j | 0 <= i < j < |active| ensures LastStart(calls + es, active[i].id) < LastStart(calls + es, active[j].id) {
      LastStartAfter(calls, es, active[i].id);
      LastStartAfter(calls, es, active[j].id);
    }
  }

  lemma OpeningKeepsOrder(s: Phase, id: string, name: string)
    requires InStartOrder(s.active, s.calls)
    ensures InStartOrder(OpenTool(s, id, name).active, OpenTool(s, id, name).calls)
  {
    if !HasTool(s.active, id) {
      var s', e := OpenTool(s, id, name), ToolStart(id, name);
      forall i, j | 0 <= i < j < |s'.active| ensures LastStart(s'.calls, s'.active[i].id) < LastStart(s'.calls, s'.active[j].id) {
        assert s.active[i] in s.active;
        LastStartSnoc(s.calls, e, s'.active[i].id);
        LastStartSnoc(s.calls, e, s'.active[j].id);
        LastStartBelow(s.calls, s'.active[i].id);
        if j < |s.active| { assert s.active[j] in s.active; }
      }
    }
  }

  /** Removing a tool leaves the others in their order: each is found at or one behind its new place. */
  lemma {:induction false} RemoveKeepsOrder(active: seq<Tool>, id: string, calls: seq<AgentEvent>)
    requires InStartOrder(active, calls)
    ensures InStartOrder(Remove(active, id), calls)
    ensures forall t :: t in Remove(active, id) ==> t in active
  {
    if active != [] && active[0].id != id {
      var t, rest := active[0], Remove(active[1..], id);
      RemoveKeepsOrder(active[1..], id, calls);
      assert active == [t] + active[1..];
      forall j | 0 <= j < |rest| ensures LastStart(calls, t.id) < LastStart(calls, rest[j].id) {
        assert rest[j] in active[1..];
        var k :| 0 <= k < |active| - 1 && active[1..][k] == rest[j];
        assert active[k + 1] == rest[j];
      }
    }
  }

  lemma ClosingKeepsOrder(s: Phase, id: string, isError: bool)
    requires InStartOrder(s.active, s.calls)
    ensures InStartOrder(CloseTool(s, id, isError).active, CloseTool(s, id, isError).calls)
  {
    if HasTool(s.active, id) {
      RemoveKeepsOrder(s.active, id, s.calls);
      OrderAfter(Remove(s.active, id), s.calls, [ToolResult(id, NameOf(s.active, id), isError)]);
    }
  }

  lemma {:induction false} ClosingEachKeepsOrder(s: Phase, ids: seq<string>, isError: bool)
    requires InStartOrder(s.active, s.calls)
    ensures InStartOrder(CloseEach(s, ids, isError).active, CloseEach(s, ids, isError).calls)
    decreases |ids|
  {
    if ids != [] {
      ClosingKeepsOrder(s, ids[0], isError);
      ClosingEachKeepsOrder(CloseTool(s, ids[0], isError), ids[1..], isError);
    }
  }

  lemma StepKeepsOrder(c: Config, s: Phase, input: Runner.Input)
    requires s.exit.None? && InStartOrder(s.active, s.calls)
    ensures InStartOrder(Step(c, s, input).active, Step(c, s, input).calls)
  {
    match input
    case ToolHook(id, name, path) =>
      OpeningKeepsOrder(s, id, name);
      var s' := OpenTool(s, id, name);
      if path.Some? { OrderAfter(s'.active, s'.calls, [FileChanged(path.value)]); }
    case Received(m, stopped) =>
      if stopped { OrderAfter(s.active, s.calls, [Cancelled(s.turn)]); } else { MessageKeepsOrder(c, s, m); }
    case Signal => CloseAllIs(s, true);
    case StreamEnds => CloseAllIs(s, false);
    case StreamThrows => CloseAllIs(s, false);
    case _ =>
  }

  lemma MessageKeepsOrder(c: Config, s: Phase, m: Runner.Message)
    requires s.exit.None? && InStartOrder(s.active, s.calls)
    ensures InStartOrder(OnMessage(c, s, m).active, OnMessage(c, s, m).calls)
  {
    match m
    case MessageStart =>
      OrderAfter(s.active, s.calls, [Turn(s.turn + 1)]);
      OrderAfter(s.active, s.calls + [Turn(s.turn + 1)], [Complete(TurnLimit, s.turn + 1)]);
    case TextDelta(text) => OrderAfter(s.active, s.calls, [Token(text)]);
    case ToolProgress(id, name) => OpeningKeepsOrder(s, id, name);
    case TaskMessage(task) => OrderAfter(s.active, s.calls, Emits(s.tracker, task, c.root));
    case ToolSummary(ids, isError) => ClosingEachKeepsOrder(s, ids, isError);
    case Assistant(_) => CloseAllIs(s, false);
    case ResultMessage(_) => CloseAllIs(s, false);
    case OtherMessage =>
  }

  lemma {:induction false} RunKeepsOrder(c: Config, inputs: seq<Runner.Input>)
    ensures InStartOrder(Run(c, inputs).active, Run(c, inputs).calls)
  {
    if inputs != [] {
      var n := |inputs| - 1;
      RunKeepsOrder(c, inputs[..n]);
      if Run(c, inputs[..n]).exit.None? { StepKeepsOrder(c, Run(c, inputs[..n]), inputs[n]); }
    }
  }

  /** Every result in the part of `calls` behind `start` is for an active tool that the input closes, and bears the flag. */
  ghost predicate ResultsFit(calls: seq<AgentEvent>, start: nat, active: seq<Tool>, input: Runner.Input, isError: bool) {
    forall k :: start <= k < |calls| && calls[k].ToolResult? ==>
      HasTool(active, calls[k].toolId) && Closes(input, calls[k].toolId) && calls[k].isError == isError
  }

  /** Results behind `start` come in the order in which their tools were started. */
  ghost predicate InOrderOfStarts(calls: seq<AgentEvent>, start: nat)
    requires start <= |calls|
  {
    forall j, k :: start <= j < k < |calls| && calls[j].ToolResult? && calls[k].ToolResult? ==>
      LastStart(calls[..start], calls[j].toolId) < LastStart(calls[..start], calls[k].toolId)
  }

  /** Two results behind `start` are for ids in that order in the list. */
  ghost predicate Listed(ids: seq<string>, first: string, second: string) {
    exists p, q :: 0 <= p < q < |ids| && ids[p] == first && ids[q] == second
  }

  ghost predicate InOrderOfIds(calls: seq<AgentEvent>, start: nat, ids: seq<string>) {
    forall j, k :: start <= j < k < |calls| && calls[j].ToolResult? && calls[k].ToolResult? ==>
      Listed(ids, calls[j].toolId, calls[k].toolId)
  }

  /** What the i-th input adds to the calls: nothing is taken back, and results fit. */
  ghost predicate AddsResults(calls: seq<AgentEvent>, calls': seq<AgentEvent>, active: seq<Tool>, input: Runner.Input, isError: bool) {
    && calls <= calls'
    && ResultsFit(calls', |calls|, active, input, isError)
    && if input.Received? && input.message.ToolSummary? then InOrderOfIds(calls', |calls|, input.message.toolIds)
       else InOrderOfStarts(calls', |calls|)
  }

  lemma {:induction false} RemoveSubset(active: seq<Tool>, id: string, other: string)
    requires HasTool(Remove(active, id), other)
    ensures HasTool(active, other)
  {
    if active[0].id == id {
      var t :| t in active[1..] && t.id == other;
      assert t in active;
    } else {
      var t :| t in Remove(active, id) && t.id == other;
      if t == active[0] {
        assert t in active;
      } else {
        assert HasTool(Remove(active[1..], id), other);
        RemoveSubset(active[1..], id, other);
        var u :| u in active[1..] && u.id == other;
        assert u in active;
      }
    }
  }

  /** Closing a list of tools sends results for active tools of the list, in its order, and nothing else. */
  lemma {:induction false} ClosingEachAdds(s: Phase, ids: seq<string>, isError: bool)
    ensures var calls := CloseEach(s, ids, isError).calls;
            && s.calls <= calls
            && (forall k :: |s.calls| <= k < |calls| ==>
                  && calls[k].ToolResult? && calls[k].isError == isError
                  && HasTool(s.active, calls[k].toolId) && calls[k].toolId in ids)
            && InOrderOfIds(calls, |s.calls|, ids)
    decreases |ids|
  {
    if ids != [] {
      var s', rest := CloseTool(s, ids[0], isError), ids[1..];
      var calls := CloseEach(s, ids, isError).calls;
      ClosingEachAdds(s', rest, isError);
      assert ids == [ids[0]] + rest;
      forall k | |s'.calls| <= k < |calls| ensures HasTool(s.active, calls[k].toolId) {
        if HasTool(s.active, ids[0]) { RemoveSubset(s.active, ids[0], calls[k].toolId); }
      }
      forall j, k | |s.calls| <= j < k < |calls| ensures Listed(ids, calls[j].toolId, calls[k].toolId) {
        if j < |s'.calls| {
          var q :| 0 <= q < |rest| && rest[q] == calls[k].toolId;
          assert ids[0] == calls[j].toolId && ids[q + 1] == calls[k].toolId;
        } else {
          assert Listed(rest, calls[j].toolId, calls[k].toolId);
          var p, q :| 0 <= p < q < |rest| && rest[p] == calls[j].toolId && rest[q] == calls[k].toolId;
          assert ids[p + 1] == calls[j].toolId && ids[q + 1] == calls[k].toolId;
        }
      }
    }
  }

  /** Results sit right behind `calls`, one for each tool. */
  lemma ResultAt(calls: seq<AgentEvent>, tools: seq<Tool>, isError: bool, more: seq<AgentEvent>, k: int)
    requires forall i :: 0 <= i < |more| ==> !more[i].ToolResult?
    requires |calls| <= k < |calls| + |tools| + |more|
    ensures var all := calls + Results(tools, isError) + more;
            all[k].ToolResult? ==> k - |calls| < |tools| && all[k] == ToolResult(tools[k - |calls|].id, tools[k - |calls|].name, isError)
  {
  }

  /** Closing all tools, and then at most one more call that is no result. */
  lemma ClosingAllAdds(s: Phase, isError: bool, more: seq<AgentEvent>, input: Runner.Input)
    requires InStartOrder(s.active, s.calls) && forall i :: 0 <= i < |more| ==> !more[i].ToolResult?
    requires forall id :: Closes(input, id)
    requires !(input.Received? && input.message.ToolSummary?)
    ensures AddsResults(s.calls, CloseAll(s, isError).calls + more, s.active, input, isError)
  {
    CloseAllIs(s, isError);
    var start, all := |s.calls|, s.calls + Results(s.active, isError) + more;
    assert all[..start] == s.calls;
    forall k | start <= k < |all| && all[k].ToolResult?
      ensures HasTool(s.active, all[k].toolId) && all[k].isError == isError
    {
      ResultAt(s.calls, s.active, isError, more, k);
      assert s.active[k - start] in s.active;
    }
    forall j, k | start <= j < k < |all| && all[j].ToolResult? && all[k].ToolResult?
      ensures LastStart(s.calls, all[j].toolId) < LastStart(s.calls, all[k].toolId)
    {
      ResultAt(s.calls, s.active, isError, more, j);
      ResultAt(s.calls, s.active, isError, more, k);
    }
  }

  lemma NoResultsAdded(calls: seq<AgentEvent>, es: seq<AgentEvent>, active: seq<Tool>, input: Runner.Input, isError: bool)
    requires forall e :: e in es ==> !e.ToolResult?
    ensures AddsResults(calls, calls + es, active, input, isError)
  {
    forall k | |calls| <= k < |calls + es| ensures !(calls + es)[k].ToolResult? {
      assert (calls + es)[k] in es;
    }
  }

  function ErrorFlag(input: Runner.Input): bool {
    input.Signal? || (input.Received? && input.message.ToolSummary? && input.message.isError)
  }

  lemma MessageAdds(c: Config, s: Phase, m: Runner.Message)
    requires s.exit.None? && InStartOrder(s.active, s.calls)
    ensures AddsResults(s.calls, OnMessage(c, s, m).calls, s.active, Received(m, false), m.ToolSummary? && m.isError)
  {
    var input := Received(m, false);
    match m
    case ToolSummary(ids, isError) => ClosingEachAdds(s, ids, isError);
    case Assistant(text) =>
      ClosingAllAdds(s, false, if text == "" then [] else [AgentEvent.Message(text)], input);
      assert CloseAll(s, false).calls + [] == CloseAll(s, false).calls;
    case ResultMessage(isError) =>
      ClosingAllAdds(s, false, [Complete(if isError then ErrorStatus else Completed, CloseAll(s, false).turn)], input);
    case TaskMessage(task) => NoResultsAdded(s.calls, Emits(s.tracker, task, c.root), s.active, input, false);
    case _ =>
  }

  lemma StepAdds(c: Config, s: Phase, input: Runner.Input)
    requires s.exit.None? && InStartOrder(s.active, s.calls)
    ensures AddsResults(s.calls, Step(c, s, input).calls, s.active, input, ErrorFlag(input))
  {
    match input
    case Received(m, stopped) => if stopped { NoResultsAdded(s.calls, [Cancelled(s.turn)], s.active, input, ErrorFlag(input)); } else { MessageAdds(c, s, m); }
    case Signal =>
      ClosingAllAdds(s, true, [], input);
      assert CloseAll(s, true).calls + [] == CloseAll(s, true).calls;
    case StreamEnds => ClosingAllAdds(s, false, [Complete(Completed, CloseAll(s, false).turn)], input);
    case StreamThrows => ClosingAllAdds(s, false, [ErrorEvent(CloseAll(s, false).turn)], input);
    case _ =>
  }

  /**
   * The results an input makes a run send: for tools that the inputs before left open and this one closes, with the
   * error flag the input carries (a signal's is set, the summary's is its own, all others are clear); in the order
   * the summary lists them, and otherwise in the order in which they were started.
   */
  lemma {:induction false} ResultsOfInput(c: Config, inputs: seq<Runner.Input>, i: nat)
    requires i < |inputs| && NoneEnds(c, inputs[..i])
    ensures var before, calls, input := Run(c, inputs[..i]).calls, Run(c, inputs[..i + 1]).calls, inputs[i];
            && before <= calls
            && (forall k :: |before| <= k < |calls| && calls[k].ToolResult? ==>
                  && LeftOpen(inputs[..i], calls[k].toolId) && Closes(input, calls[k].toolId)
                  && calls[k].isError == (input.Signal? || (input.Received? && input.message.ToolSummary? && input.message.isError)))
            && if input.Received? && input.message.ToolSummary? then InOrderOfIds(calls, |before|, input.message.toolIds)
               else InOrderOfStarts(calls, |before|)
  {
    var s := Run(c, inputs[..i]);
    GoesOn(c, inputs[..i]);
    RunKeepsOrder(c, inputs[..i]);
    assert inputs[..i + 1][..i] == inputs[..i];
    StepAdds(c, s, inputs[i]);
  }
}
