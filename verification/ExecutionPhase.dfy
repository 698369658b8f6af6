/** The execution phase's own code: hooks and a message loop that update the maps and call the emitter. */
module ExecutionPhase {
  import opened Common
  import opened TokenBatching
  import opened Topology
  import opened Runner
  import opened RunnerOutput

  // ---------------------------------------------------------------- the map of active tools

  /** The entries of a map in insertion order. */
  function ToolList(order: seq<string>, names: map<string, string>): seq<Tool> {
    seq(|order|, i requires 0 <= i < |order| => Tool(order[i], if order[i] in names then names[order[i]] else ""))
  }

  function Without(order: seq<string>, id: string): seq<string> {
    if order == [] then [] else if order[0] == id then order[1..] else [order[0]] + Without(order[1..], id)
  }

  ghost predicate IsOrderOf(order: seq<string>, names: map<string, string>) {
    Distinct(order) && (forall id :: id in names <==> id in order)
  }

  lemma HasIff(order: seq<string>, names: map<string, string>, id: string)
    ensures HasTool(ToolList(order, names), id) <==> id in order
    ensures Ids(ToolList(order, names)) == order
  {
    var tools := ToolList(order, names);
    if id in order {
      var i :| 0 <= i < |order| && order[i] == id;
      assert tools[i] in tools;
    }
  }

  lemma {:induction false} NameIs(order: seq<string>, names: map<string, string>, id: string)
    requires id in order && id in names
    ensures NameOf(ToolList(order, names), id) == names[id]
  {
    if order[0] != id {
      assert order == [order[0]] + order[1..];
      NameIs(order[1..], names, id);
      assert ToolList(order, names)[1..] == ToolList(order[1..], names);
    }
  }

  lemma {:induction false} WithoutMembers(order: seq<string>, id: string)
    requires Distinct(order)
    ensures forall x :: x in Without(order, id) <==> x in order && x != id
    ensures Distinct(Without(order, id))
  {
    if order != [] {
      var rest := order[1..];
      assert order == [order[0]] + rest && order[0] !in rest;
      WithoutMembers(rest, id);
      assert order[0] != id ==> Without(order, id) == [order[0]] + Without(rest, id) && order[0] !in Without(rest, id);
    }
  }

  lemma ToolListCons(id: string, rest: seq<string>, names: map<string, string>)
    ensures ToolList([id] + rest, names) == ToolList([id], names) + ToolList(rest, names)
  {
  }

  lemma ToolListIgnores(order: seq<string>, names: map<string, string>, id: string)
    requires id !in order
    ensures ToolList(order, names - {id}) == ToolList(order, names)
  {
  }

  lemma {:induction false} RemoveIs(order: seq<string>, names: map<string, string>, id: string)
    requires Distinct(order)
    ensures Remove(ToolList(order, names), id) == ToolList(Without(order, id), names - {id})
  {
    if order != [] {
      var first, rest := order[0], order[1..];
      assert order == [first] + rest && first !in rest;
      ToolListCons(first, rest, names);
      assert ToolList(order, names)[1..] == ToolList(rest, names);
      if first == id {
        ToolListIgnores(rest, names, id);
      } else {
        RemoveIs(rest, names, id);
        ToolListCons(first, Without(rest, id), names - {id});
        ToolListIgnores([first], names, id);
      }
    }
  }

  class ExecutionPhase {
    const config: Config
    const events: EventEmitter
    var activeTools: map<string, string>
    var order: seq<string>
    var turn: nat
    var tracker: Tracker
    var draining: bool
    var exit: Option<Exit>

    ghost function Abs(): Phase
      reads this, events
    {
      Phase(ToolList(order, activeTools), turn, tracker, CallsOf(events.inputs), draining, exit)
    }

    /** `order` is the insertion order of the map. */
    ghost predicate Valid()
      reads this, events
    {
      events.Valid() && IsOrderOf(order, activeTools)
    }

    constructor (config: Config, events: EventEmitter)
      requires events.Valid() && events.inputs == []
      modifies events
      ensures Valid() && this.config == config && this.events == events && Abs() == Begin(config)
    {
      this.config, this.events := config, events;
      activeTools, order, turn, tracker, draining, exit := map[], [], 0, FreshTracker.(rootEmitted := true), false, None;
      new;
      Send(Started);
      Send(TopologySpawned(config.root, None, None));
      assert CallsOf(events.inputs) == [] + [Started] + [TopologySpawned(config.root, None, None)];
    }

    /** One emitter call. */
    method Send(e: AgentEvent)
      requires events.Valid()
      modifies events
      ensures events.Valid() && CallsOf(events.inputs) == old(CallsOf(events.inputs)) + [e]
    {
      ghost var before := events.inputs;
      match e {
        case Token(delta) => events.EmitToken(delta);
        case _ => events.Emit(e);
      }
      assert events.inputs[..|events.inputs| - 1] == before;
    }

    method SendAll(es: seq<AgentEvent>)
      requires events.Valid()
      modifies events
      ensures events.Valid() && CallsOf(events.inputs) == old(CallsOf(events.inputs)) + es
    {
      var i := 0;
      while i < |es|
        invariant 0 <= i <= |es| && events.Valid()
        invariant CallsOf(events.inputs) == old(CallsOf(events.inputs)) + es[..i]
      {
        assert es[..i + 1] == es[..i] + [es[i]];
        Send(es[i]);
        i := i + 1;
      }
      assert es[..i] == es;
    }

    method OpenTool(id: string, name: string)
      requires Valid()
      modifies this`activeTools, this`order, events
      ensures Valid() && Abs() == Runner.OpenTool(old(Abs()), id, name)
    {
      HasIff(order, activeTools, id);
      if id in activeTools { return; }
      ghost var before := ToolList(order, activeTools);
      activeTools := activeTools[id := name];
      order := order + [id];
      assert ToolList(order, activeTools) == before + [Tool(id, name)];
      Send(ToolStart(id, name));
    }

    method EmitToolResult(id: string, isError: bool)
      requires Valid()
      modifies this`activeTools, this`order, events
      ensures Valid() && Abs() == CloseTool(old(Abs()), id, isError)
    {
      HasIff(order, activeTools, id);
      if id in activeTools {
        NameIs(order, activeTools, id);
        WithoutMembers(order, id);
        RemoveIs(order, activeTools, id);
        Send(ToolResult(id, activeTools[id], isError));
        activeTools := activeTools - {id};
        order := Without(order, id);
      }
    }

    /** The loops over completed tool ids, and over all active ones. */
    method EmitToolResults(ids: seq<string>, isError: bool)
      requires Valid()
      modifies this`activeTools, this`order, events
      ensures Valid() && Abs() == CloseEach(old(Abs()), ids, isError)
    {
      var i := 0;
      while i < |ids|
        invariant 0 <= i <= |ids| && Valid()
        invariant CloseEach(Abs(), ids[i..], isError) == CloseEach(old(Abs()), ids, isError)
        invariant turn == old(turn) && tracker == old(tracker) && draining == old(draining) && exit == old(exit)
      {
        assert ids[i..][0] == ids[i] && ids[i..][1..] == ids[i + 1..];
        EmitToolResult(ids[i], isError);
        i := i + 1;
      }
    }

    method EmitAllToolResults(isError: bool)
      requires Valid()
      modifies this`activeTools, this`order, events
      ensures Valid() && Abs() == CloseAll(old(Abs()), isError)
    {
      HasIff(order, activeTools, "");
      EmitToolResults(order, isError);
    }

    /** One result for every entry of the map, which stays as it is. */
    method SendResults(isError: bool)
      requires Valid()
      modifies events
      ensures events.Valid()
      ensures CallsOf(events.inputs) == old(CallsOf(events.inputs)) + Results(ToolList(order, activeTools), isError)
    {
      ghost var results := Results(ToolList(order, activeTools), isError);
      var i := 0;
      while i < |order|
        invariant 0 <= i <= |order| && events.Valid()
        invariant CallsOf(events.inputs) == old(CallsOf(events.inputs)) + results[..i]
      {
        assert results[..i + 1] == results[..i] + [results[i]];
        assert order[i] in order;
        Send(ToolResult(order[i], activeTools[order[i]], isError));
        i := i + 1;
      }
      assert results[..i] == results;
    }

    /** The signal handler's hook: a result for every entry, then the map is cleared. */
    method FlushHook()
      requires Valid()
      modifies this`activeTools, this`order, events
      ensures Valid() && Abs() == CloseAll(old(Abs()), true)
    {
      CloseAllIs(Abs(), true);
      SendResults(true);
      activeTools, order := map[], [];
      assert ToolList(order, activeTools) == [];
    }

    method TrackToolInvocation(id: string, name: string, changedPath: Option<string>)
      requires Valid() && exit.None?
      modifies this`activeTools, this`order, events
      ensures Valid() && Abs() == Step(config, old(Abs()), ToolHook(id, name, changedPath))
    {
      HasIff(order, activeTools, id);
      if id == "" || id in activeTools { return; }
      OpenTool(id, name);
      if changedPath.Some? { Send(FileChanged(changedPath.value)); }
    }

    method OnMessageStart()
      requires Valid() && exit.None?
      modifies this`turn, this`exit, events
      ensures Valid() && Abs() == Runner.OnMessage(config, old(Abs()), MessageStart)
    {
      turn := turn + 1;
      Send(Turn(turn));
      if turn >= config.maxTurns {
        Send(Complete(TurnLimit, turn));
        exit := Some(ByTurnLimit);
      }
    }

    method OnResult(isError: bool)
      requires Valid() && exit.None?
      modifies this`activeTools, this`order, this`exit, events
      ensures Valid() && Abs() == Runner.OnMessage(config, old(Abs()), ResultMessage(isError))
    {
      EmitAllToolResults(false);
      Send(Complete(if isError then ErrorStatus else Completed, turn));
      exit := Some(ByResult);
    }

    method OnMessage(m: Runner.Message)
      requires Valid() && exit.None?
      modifies this, events
      ensures Valid() && Abs() == Runner.OnMessage(config, old(Abs()), m)
    {
      match m {
        case MessageStart =>
          OnMessageStart();
        case TextDelta(text) =>
          if text != "" { Send(Token(text)); }
        case ToolProgress(id, name) =>
          OpenTool(id, name);
        case TaskMessage(task) =>
          SendAll(Emits(tracker, task, config.root));
          tracker := Handle(tracker, task);
        case ToolSummary(ids, isError) =>
          EmitToolResults(ids, isError);
        case Assistant(text) =>
          EmitAllToolResults(false);
          if text != "" { Send(AgentEvent.Message(text)); }
        case ResultMessage(isError) =>
          OnResult(isError);
        case OtherMessage =>
      }
    }

    method Take(input: Runner.Input)
      requires Valid() && exit.None?
      modifies this, events
      ensures Valid() && Abs() == Step(config, old(Abs()), input)
    {
      match input {
        case ToolHook(id, name, path) =>
          TrackToolInvocation(id, name, path);
        case SubagentHook(agentType) =>
          tracker := Hook(tracker, agentType);
        case Received(m, stopped) =>
          if stopped {
            Send(Cancelled(turn));
            exit := Some(ByStopFile);
          } else {
            OnMessage(m);
          }
        case StreamEnds =>
          EmitAllToolResults(false);
          Send(Complete(Completed, turn));
          exit := Some(ByEndOfStream);
        case StreamThrows =>
          EmitAllToolResults(false);
          Send(ErrorEvent(turn));
          exit := Some(ByError);
        case Signal =>
          FlushHook();
          draining := true;
        case ProcessExits =>
          if draining { exit := Some(BySignal); }
      }
    }

    /** The whole phase: inputs are taken until one of them ends it. */
    method RunExecutionPhase(inputs: seq<Runner.Input>)
      requires Valid() && Abs() == Begin(config)
      modifies this, events
      ensures Valid() && Abs() == Run(config, inputs)
      ensures Filter(CallsOf(events.inputs), Plain()) == AllSaid(config, inputs)
    {
      SaysWhatInputsSay(config, inputs);
      var i := 0;
      while i < |inputs| && exit.None?
        invariant 0 <= i <= |inputs| && Valid()
        invariant Abs() == Run(config, inputs[..i])
      {
        assert inputs[..i + 1][..i] == inputs[..i];
        Take(inputs[i]);
        i := i + 1;
      }
      ExitedStays(config, inputs, i);
    }
  }

  lemma {:induction false} ExitedStays(c: Config, inputs: seq<Runner.Input>, i: nat)
    requires i <= |inputs| && (i < |inputs| ==> Run(c, inputs[..i]).exit.Some?)
    ensures Run(c, inputs) == Run(c, inputs[..i])
    decreases |inputs| - i
  {
    if i == |inputs| {
      assert inputs[..i] == inputs;
    } else {
      assert inputs[..i + 1][..i] == inputs[..i];
      ExitedStays(c, inputs, i + 1);
    }
  }
}
