/** Node lifecycle and label alignment over whole execution phases. */
module RunnerTopology {
  import opened Common
  import opened TokenBatching
  import opened Topology
  import opened Runner

  predicate IsTopology(e: AgentEvent) {
    e.TopologySpawned? || e.TopologyProgress? || e.TopologyCompleted?
  }

  ghost predicate Sound(c: Config, s: Phase) {
    Live(s.tracker, s.calls, c.root)
  }

  /** The random ids made up for started tasks do not repeat. */
  ghost predicate FreshNodes(c: Config, inputs: seq<Runner.Input>) {
    inputs != [] ==>
      var init, last := inputs[..|inputs| - 1], inputs[|inputs| - 1];
      && FreshNodes(c, init)
      && (last.Received? && last.message.TaskMessage? && last.message.task.TaskStarted? ==>
            last.message.task.node != c.root && last.message.task.node !in Spawned(Run(c, init).calls))
  }

  lemma QuietEventKeepsSound(c: Config, s: Phase, e: AgentEvent)
    requires Sound(c, s) && !IsTopology(e)
    ensures Sound(c, Emit(s, e))
  {
    LifecycleSnoc(s.calls, e);
    AppendedEvents(s.calls, e);
  }

  lemma {:induction false} CloseEachKeepsSound(c: Config, s: Phase, ids: seq<string>, isError: bool)
    requires Sound(c, s)
    ensures Sound(c, CloseEach(s, ids, isError))
    decreases |ids|
  {
    if ids != [] {
      if HasTool(s.active, ids[0]) {
        QuietEventKeepsSound(c, s, ToolResult(ids[0], NameOf(s.active, ids[0]), isError));
      }
      CloseEachKeepsSound(c, CloseTool(s, ids[0], isError), ids[1..], isError);
    }
  }

  lemma OpenKeepsSound(c: Config, s: Phase, id: string, name: string)
    requires Sound(c, s)
    ensures Sound(c, OpenTool(s, id, name))
  {
    if !HasTool(s.active, id) { QuietEventKeepsSound(c, s, ToolStart(id, name)); }
  }

  lemma TaskKeepsSound(c: Config, s: Phase, m: TaskMsg)
    requires Sound(c, s)
    requires m.TaskStarted? ==> m.node != c.root && m.node !in Spawned(s.calls)
    ensures Sound(c, OnMessage(c, s, TaskMessage(m)))
  {
    if m.TaskStarted? { StartKeepsLive(s.tracker, m, s.calls, c.root); } else { ReportKeepsLive(s.tracker, m, s.calls, c.root); }
  }

  /** Soundness is about tracker and calls only. */
  lemma SoundDependsOn(c: Config, s: Phase, s': Phase)
    requires Sound(c, s) && s'.tracker == s.tracker && s'.calls == s.calls
    ensures Sound(c, s')
  {
  }

  lemma TurnKeepsSound(c: Config, s: Phase)
    requires Sound(c, s)
    ensures Sound(c, Runner.OnMessage(c, s, MessageStart))
  {
    var n, s' := s.turn + 1, Runner.OnMessage(c, s, MessageStart);
    QuietEventKeepsSound(c, s, Turn(n));
    if n >= c.maxTurns {
      QuietEventKeepsSound(c, Emit(s, Turn(n)), Complete(TurnLimit, n));
      SoundDependsOn(c, Emit(Emit(s, Turn(n)), Complete(TurnLimit, n)), s');
    } else {
      SoundDependsOn(c, Emit(s, Turn(n)), s');
    }
  }

  lemma CloseThenEmitKeepsSound(c: Config, s: Phase, e: AgentEvent)
    requires Sound(c, s) && !IsTopology(e)
    ensures Sound(c, CloseAll(s, false)) && Sound(c, Emit(CloseAll(s, false), e))
  {
    CloseEachKeepsSound(c, s, Ids(s.active), false);
    QuietEventKeepsSound(c, CloseAll(s, false), e);
  }

  lemma MessageKeepsSound(c: Config, s: Phase, m: Runner.Message)
    requires Sound(c, s)
    requires m.TaskMessage? && m.task.TaskStarted? ==> m.task.node != c.root && m.task.node !in Spawned(s.calls)
    ensures Sound(c, OnMessage(c, s, m))
  {
    match m
    case MessageStart => TurnKeepsSound(c, s);
    case TextDelta(text) => QuietEventKeepsSound(c, s, Token(text));
    case ToolProgress(id, name) => OpenKeepsSound(c, s, id, name);
    case TaskMessage(task) => TaskKeepsSound(c, s, task);
    case ToolSummary(ids, isError) => CloseEachKeepsSound(c, s, ids, isError);
    case Assistant(text) => CloseThenEmitKeepsSound(c, s, AgentEvent.Message(text));
    case ResultMessage(isError) =>
      CloseThenEmitKeepsSound(c, s, Complete(if isError then ErrorStatus else Completed, CloseAll(s, false).turn));
    case OtherMessage =>
  }

  lemma StepKeepsSound(c: Config, s: Phase, input: Runner.Input)
    requires Sound(c, s)
    requires input.Received? && input.message.TaskMessage? && input.message.task.TaskStarted? ==>
               input.message.task.node != c.root && input.message.task.node !in Spawned(s.calls)
    ensures Sound(c, Step(c, s, input))
  {
    if s.exit.None? {
      match input
      case ToolHook(id, name, path) =>
        OpenKeepsSound(c, s, id, name);
        if path.Some? { QuietEventKeepsSound(c, OpenTool(s, id, name), FileChanged(path.value)); }
      case SubagentHook(agentType) =>
        LiveDependsOn(s.tracker, Hook(s.tracker, agentType), s.calls, c.root);
      case Received(m, stopped) =>
        if stopped { QuietEventKeepsSound(c, s, Cancelled(s.turn)); } else { MessageKeepsSound(c, s, m); }
      case StreamEnds => CloseThenEmitKeepsSound(c, s, Complete(Completed, CloseAll(s, false).turn));
      case StreamThrows => CloseThenEmitKeepsSound(c, s, ErrorEvent(CloseAll(s, false).turn));
      case Signal => CloseEachKeepsSound(c, s, Ids(s.active), true);
      case ProcessExits =>
    }
  }

  // ---------------------------------------------------------------- the tracker's share of a run

  /** Of all inputs only subagent hooks and task messages reach the tracker, and only while the run goes on. */
  function Reaching(input: Runner.Input): seq<Topology.Input> {
    match input
    case SubagentHook(agentType) => [SubagentStart(agentType)]
    case Received(TaskMessage(task), false) => [Task(task)]
    case _ => []
  }

  function TopologyInputs(c: Config, inputs: seq<Runner.Input>): seq<Topology.Input> {
    if inputs == [] then []
    else
      var n := |inputs| - 1;
      TopologyInputs(c, inputs[..n]) + if NoneEnds(c, inputs[..n]) then Reaching(inputs[n]) else []
  }

  function OnlyTopology(): AgentEvent -> bool {
    (e: AgentEvent) => IsTopology(e)
  }

  lemma {:induction false} CloseEachHasNoTopology(s: Phase, ids: seq<string>, isError: bool)
    ensures CloseEach(s, ids, isError).tracker == s.tracker
    ensures Filter(CloseEach(s, ids, isError).calls, OnlyTopology()) == Filter(s.calls, OnlyTopology())
    decreases |ids|
  {
    if ids != [] {
      FilterSnoc(s.calls, ToolResult(ids[0], NameOf(s.active, ids[0]), isError), OnlyTopology());
      CloseEachHasNoTopology(CloseTool(s, ids[0], isError), ids[1..], isError);
    }
  }

  lemma FilterOne(e: AgentEvent)
    requires IsTopology(e)
    ensures Filter([e], OnlyTopology()) == [e]
  {
    FilterSnoc([], e, OnlyTopology());
    assert [] + [e] == [e];
  }

  lemma EmitsAreTopology(t: Tracker, m: TaskMsg, root: string)
    ensures Filter(Emits(t, m, root), OnlyTopology()) == Emits(t, m, root)
  {
    var es := Emits(t, m, root);
    if |es| == 1 {
      FilterOne(es[0]);
      assert es == [es[0]];
    } else if |es| == 2 {
      FilterOne(es[0]);
      FilterSnoc([es[0]], es[1], OnlyTopology());
      assert es == [es[0]] + [es[1]];
    }
  }

  /** An input changes tracker and topology events as the tracker alone would, or not at all. */
  ghost predicate Follows(s: Phase, s': Phase, input: Runner.Input, root: string) {
    var taken := Reaching(input);
    && s'.tracker == Track(s.tracker, taken)
    && Filter(s'.calls, OnlyTopology()) == Filter(s.calls, OnlyTopology()) + Sent(s.tracker, taken, root)
  }

  lemma {:induction false} OneInput(t: Tracker, input: Topology.Input, root: string)
    ensures Track(t, [input]) == Take(t, input) && Sent(t, [input], root) == EmitsFor(t, input, root)
  {
    assert [input][..0] == [];
  }

  /** Inputs that do not reach the tracker leave it and its events alone. */
  lemma QuietFollows(s: Phase, s': Phase, input: Runner.Input, root: string)
    requires Reaching(input) == [] && s'.tracker == s.tracker
    requires Filter(s'.calls, OnlyTopology()) == Filter(s.calls, OnlyTopology())
    ensures Follows(s, s', input, root)
  {
  }

  lemma EmitIsQuiet(s: Phase, e: AgentEvent)
    requires !IsTopology(e)
    ensures Filter(Emit(s, e).calls, OnlyTopology()) == Filter(s.calls, OnlyTopology())
  {
    FilterSnoc(s.calls, e, OnlyTopology());
  }

  lemma TaskEvents(s: Phase, m: TaskMsg, root: string)
    ensures Filter(s.calls + Emits(s.tracker, m, root), OnlyTopology()) == Filter(s.calls, OnlyTopology()) + Emits(s.tracker, m, root)
  {
    FilterConcat(s.calls, Emits(s.tracker, m, root), OnlyTopology());
    EmitsAreTopology(s.tracker, m, root);
  }

  lemma TaskFollows(c: Config, s: Phase, m: TaskMsg)
    ensures Follows(s, Runner.OnMessage(c, s, TaskMessage(m)), Received(TaskMessage(m), false), c.root)
  {
    TaskEvents(s, m, c.root);
    OneInput(s.tracker, Task(m), c.root);
    assert Reaching(Received(TaskMessage(m), false)) == [Task(m)];
  }

  lemma CloseThenEmitIsQuiet(s: Phase, isError: bool, e: AgentEvent)
    requires !IsTopology(e)
    ensures var s' := CloseAll(s, isError);
            s'.tracker == s.tracker && Filter(s'.calls, OnlyTopology()) == Filter(s.calls, OnlyTopology()) == Filter(Emit(s', e).calls, OnlyTopology())
  {
    CloseEachHasNoTopology(s, Ids(s.active), isError);
    EmitIsQuiet(CloseAll(s, isError), e);
  }

  lemma {:induction false} TwoQuiet(calls: seq<AgentEvent>, first: AgentEvent, second: AgentEvent)
    requires !IsTopology(first) && !IsTopology(second)
    ensures Filter(calls + [first], OnlyTopology()) == Filter(calls, OnlyTopology())
    ensures Filter(calls + [first] + [second], OnlyTopology()) == Filter(calls, OnlyTopology())
  {
    FilterSnoc(calls, first, OnlyTopology());
    FilterSnoc(calls + [first], second, OnlyTopology());
  }

  lemma TurnFollows(c: Config, s: Phase)
    ensures Follows(s, Runner.OnMessage(c, s, MessageStart), Received(MessageStart, false), c.root)
  {
    var s' := Runner.OnMessage(c, s, MessageStart);
    TwoQuiet(s.calls, Turn(s.turn + 1), Complete(TurnLimit, s.turn + 1));
    assert s'.tracker == s.tracker;
    assert Filter(s'.calls, OnlyTopology()) == Filter(s.calls, OnlyTopology());
    QuietFollows(s, s', Received(MessageStart, false), c.root);
  }

  lemma ToolFollows(c: Config, s: Phase, id: string, name: string, path: Option<string>)
    requires s.exit.None?
    ensures Follows(s, Step(c, s, ToolHook(id, name, path)), ToolHook(id, name, path), c.root)
  {
    var s' := Step(c, s, ToolHook(id, name, path));
    TwoQuiet(s.calls, ToolStart(id, name), FileChanged(if path.Some? then path.value else ""));
    assert s'.tracker == s.tracker;
    assert Filter(s'.calls, OnlyTopology()) == Filter(s.calls, OnlyTopology());
    QuietFollows(s, s', ToolHook(id, name, path), c.root);
  }

  lemma MessageFollows(c: Config, s: Phase, m: Runner.Message)
    ensures Follows(s, Runner.OnMessage(c, s, m), Received(m, false), c.root)
  {
    match m
    case MessageStart => TurnFollows(c, s);
    case TextDelta(text) => EmitIsQuiet(s, Token(text));
    case ToolProgress(id, name) => EmitIsQuiet(s, ToolStart(id, name));
    case TaskMessage(task) => TaskFollows(c, s, task);
    case ToolSummary(ids, isError) => CloseEachHasNoTopology(s, ids, isError);
    case Assistant(text) => CloseThenEmitIsQuiet(s, false, AgentEvent.Message(text));
    case ResultMessage(isError) =>
      CloseThenEmitIsQuiet(s, false, Complete(if isError then ErrorStatus else Completed, CloseAll(s, false).turn));
    case OtherMessage =>
  }

  lemma StepFollows(c: Config, s: Phase, input: Runner.Input)
    requires s.exit.None?
    ensures Follows(s, Step(c, s, input), input, c.root)
  {
    match input
    case ToolHook(id, name, path) => ToolFollows(c, s, id, name, path);
    case SubagentHook(agentType) => OneInput(s.tracker, SubagentStart(agentType), c.root);
    case Received(m, stopped) => if stopped { EmitIsQuiet(s, Cancelled(s.turn)); } else { MessageFollows(c, s, m); }
    case StreamEnds => CloseThenEmitIsQuiet(s, false, Complete(Completed, CloseAll(s, false).turn));
    case StreamThrows => CloseThenEmitIsQuiet(s, false, ErrorEvent(CloseAll(s, false).turn));
    case Signal => CloseEachHasNoTopology(s, Ids(s.active), true);
    case ProcessExits =>
  }

  ghost predicate Mirrors(c: Config, s: Phase, taken: seq<Topology.Input>) {
    var t := FreshTracker.(rootEmitted := true);
    && s.tracker == Track(t, taken)
    && Filter(s.calls, OnlyTopology()) == [TopologySpawned(c.root, None, None)] + Sent(t, taken, c.root)
  }

  lemma MirrorsOneMore(c: Config, s: Phase, s': Phase, taken: seq<Topology.Input>, input: Topology.Input)
    requires Mirrors(c, s, taken) && s'.tracker == Take(s.tracker, input)
    requires Filter(s'.calls, OnlyTopology()) == Filter(s.calls, OnlyTopology()) + EmitsFor(s.tracker, input, c.root)
    ensures Mirrors(c, s', taken + [input])
  {
    assert (taken + [input])[..|taken|] == taken;
  }

  lemma MirrorsStep(c: Config, s: Phase, s': Phase, taken: seq<Topology.Input>, input: Runner.Input)
    requires Mirrors(c, s, taken) && Follows(s, s', input, c.root)
    ensures Mirrors(c, s', taken + Reaching(input))
  {
    var more := Reaching(input);
    if more == [] {
      assert taken + more == taken;
    } else {
      assert more == [more[0]];
      OneInput(s.tracker, more[0], c.root);
      MirrorsOneMore(c, s, s', taken, more[0]);
    }
  }

  /**
   * In every execution phase the topology events sent are the root's and then exactly those of the tracker run
   * alone on the hooks and task messages the phase took.
   */
  lemma {:induction false} TopologyCalls(c: Config, inputs: seq<Runner.Input>)
    ensures var t, s, taken := FreshTracker.(rootEmitted := true), Run(c, inputs), TopologyInputs(c, inputs);
            && s.tracker == Track(t, taken)
            && Filter(s.calls, OnlyTopology()) == [TopologySpawned(c.root, None, None)] + Sent(t, taken, c.root)
  {
    if inputs == [] {
      BeginCalls(c);
    } else {
      var n := |inputs| - 1;
      var s, taken := Run(c, inputs[..n]), TopologyInputs(c, inputs[..n]);
      TopologyCalls(c, inputs[..n]);
      assert Mirrors(c, s, taken);
      ExitIff(c, inputs[..n]);
      if s.exit.None? {
        StepFollows(c, s, inputs[n]);
        MirrorsStep(c, s, Step(c, s, inputs[n]), taken, inputs[n]);
        assert Mirrors(c, Run(c, inputs), TopologyInputs(c, inputs));
      } else {
        assert TopologyInputs(c, inputs) == taken;
      }
    }
  }

  lemma BeginCalls(c: Config)
    ensures Filter(Begin(c).calls, OnlyTopology()) == [TopologySpawned(c.root, None, None)]
  {
    var p, rootEvent := OnlyTopology(), TopologySpawned(c.root, None, None);
    assert Begin(c).calls == ([] + [Started]) + [rootEvent] && Filter<AgentEvent>([], p) == [];
    FilterSnoc([], Started, p);
    FilterSnoc([] + [Started], rootEvent, p);
  }

  /**
   * In every execution phase each node is spawned once, after its parent; progress and completion are sent
   * only for a spawned node that has not completed, so it completes at most once.
   */
  lemma {:induction false} TopologyIsSound(c: Config, inputs: seq<Runner.Input>)
    requires FreshNodes(c, inputs)
    ensures var s := Run(c, inputs);
            && Lifecycle(s.calls)
            && forall id :: id in s.tracker.nodes ==> s.tracker.nodes[id] in Spawned(s.calls) - CompletedNodes(s.calls)
  {
    RunKeepsSound(c, inputs);
  }

  lemma {:induction false} RunKeepsSound(c: Config, inputs: seq<Runner.Input>)
    requires FreshNodes(c, inputs)
    ensures Sound(c, Run(c, inputs))
  {
    if inputs == [] {
      var rootEvent := TopologySpawned(c.root, None, None);
      LifecycleSnoc([], Started);
      assert [] + [Started] == [Started];
      AppendedEvents([Started], rootEvent);
      LifecycleSnoc([Started], rootEvent);
      assert Begin(c).calls == [Started] + [rootEvent];
    } else {
      RunKeepsSound(c, inputs[..|inputs| - 1]);
      StepKeepsSound(c, Run(c, inputs[..|inputs| - 1]), inputs[|inputs| - 1]);
    }
  }
}
